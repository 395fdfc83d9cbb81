/** What the modules share. */
module Prelude {
  datatype Option<+T> = None | Some(value: T)

  const I32_MAX := 0x7FFF_FFFF

  function Max(a: int, b: int): int {
    if a < b then b else a
  }

  ghost function Pick<T>(s: set<T>): (x: T)
    requires s != {}
    ensures x in s
  {
    var x :| x in s;
    x
  }
}
