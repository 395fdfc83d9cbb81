/** Wire names of header fields: `snake_to_camel_case` of the derive macro. */
module WireNames {

  predicate IsLower(c: char) {
    'a' <= c <= 'z'
  }

  predicate IsUpper(c: char) {
    'A' <= c <= 'Z'
  }

  /** `to_ascii_uppercase` */
  function Upper(c: char): char {
    if IsLower(c) then 'A' + (c - 'a') else c
  }

  function Lower(c: char): char {
    if IsUpper(c) then 'a' + (c - 'A') else c
  }

  /** The camel-case name; `raise` says that the next letter is to be capitalised. */
  function Camel(s: string, raise: bool := false): string {
    if s == [] then []
    else if s[0] == '_' then Camel(s[1..], true)
    else [if raise then Upper(s[0]) else s[0]] + Camel(s[1..], false)
  }

  /** The way back: an underscore before every capital. */
  function Snake(s: string): string {
    if s == [] then []
    else (if IsUpper(s[0]) then ['_', Lower(s[0])] else [s[0]]) + Snake(s[1..])
  }

  /** No capitals, and every underscore is followed by a small letter. */
  predicate Proper(s: string) {
    s == [] || (!IsUpper(s[0]) && (s[0] == '_' ==> 1 < |s| && IsLower(s[1])) && Proper(s[1..]))
  }

  method SnakeToCamelCase(input: string) returns (camel: string)
    ensures camel == Camel(input)
  {
    camel := "";
    var capitalizeNext := false;
    for i := 0 to |input|
      invariant camel + Camel(input[i..], capitalizeNext) == Camel(input)
    {
      var c := input[i];
      assert input[i..][0] == c && input[i..][1..] == input[i + 1..];
      if c == '_' {
        capitalizeNext := true;
      } else if capitalizeNext {
        camel := camel + [Upper(c)];
        capitalizeNext := false;
      } else {
        camel := camel + [c];
      }
    }
    assert input[|input|..] == [];
  }

  lemma {:induction false} CamelHasNoUnderscore(s: string, raise: bool)
    ensures '_' !in Camel(s, raise)
  {
    if s != [] { CamelHasNoUnderscore(s[1..], s[0] == '_'); }
  }

  lemma {:induction false} SnakeUndoesCamel(s: string)
    requires Proper(s)
    ensures Snake(Camel(s)) == s
  {
    if s != [] && s[0] != '_' {
      SnakeUndoesCamel(s[1..]);
      assert [s[0]] + s[1..] == s;
    } else if s != [] {
      var rest := s[1..][1..];
      SnakeUndoesCamel(rest);
      var c := Camel(s);
      assert c == Camel(s[1..], true) == [Upper(s[1])] + Camel(rest);
      assert c[0] == Upper(s[1]) && c[1..] == Camel(rest);
      assert s == ['_', s[1]] + rest;
    }
  }

  lemma ProperCons(c: char, rest: string)
    requires Proper(rest) && !IsUpper(c) && (c == '_' ==> rest != [] && IsLower(rest[0]))
    ensures Proper([c] + rest)
  {
    assert ([c] + rest)[1..] == rest;
  }

  lemma {:induction false} SnakeIsProper(c: string)
    requires '_' !in c
    ensures Proper(Snake(c))
  {
    if c != [] {
      var rest := Snake(c[1..]);
      SnakeIsProper(c[1..]);
      ProperCons(Lower(c[0]), rest);
      if IsUpper(c[0]) {
        ProperCons('_', [Lower(c[0])] + rest);
        assert Snake(c) == ['_'] + ([Lower(c[0])] + rest);
      }
    }
  }

  /** A field name survives the trip to the wire and back if and only if it is proper. */
  lemma RoundTripIffProper(s: string)
    ensures Snake(Camel(s)) == s <==> Proper(s)
  {
    if Proper(s) { SnakeUndoesCamel(s); }
    CamelHasNoUnderscore(s, false);
    SnakeIsProper(Camel(s));
  }

  /** Distinct proper field names have distinct wire names. */
  lemma WireNamesDistinct(s: string, t: string)
    requires Proper(s) && Proper(t) && Camel(s) == Camel(t)
    ensures s == t
  {
    SnakeUndoesCamel(s);
    SnakeUndoesCamel(t);
  }

  /** Outside that class two fields of one struct can collide. */
  lemma ImproperNamesCollide()
    ensures Camel("a_1") == Camel("a1") && Camel("a__b") == Camel("a_b")
  {
    assert Camel("_1") == Camel("1", true) == "1";
    assert Camel("__b") == Camel("_b", true) == Camel("_b");
  }
}
