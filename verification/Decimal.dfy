/**
 Decimal text of integers as Rust prints and parses it: `to_string` and `str::parse` for an
 integer type with range [lo, hi]. Parsing takes an optional sign and leading zeros; a minus sign
 is refused by the unsigned types.
 */
module Decimal {
  import opened Prelude

  predicate IsDigit(c: char) {
    '0' <= c <= '9'
  }

  function Digit(d: nat): (c: char)
    requires d < 10
    ensures IsDigit(c) && c as int - '0' as int == d
  {
    '0' + d as char
  }

  function NatText(n: nat): (s: string)
    ensures s != [] && forall i | 0 <= i < |s| :: IsDigit(s[i])
  {
    if n < 10 then [Digit(n)] else NatText(n / 10) + [Digit(n % 10)]
  }

  function Text(n: int): (s: string)
    ensures s != []
  {
    if n < 0 then "-" + NatText(-n) else NatText(n)
  }

  predicate AllDigits(s: string) {
    forall i | 0 <= i < |s| :: IsDigit(s[i])
  }

  function NatValue(s: string): nat
    requires AllDigits(s)
  {
    if s == [] then 0 else 10 * NatValue(s[..|s| - 1]) + (s[|s| - 1] as int - '0' as int)
  }

  function Parse(s: string, lo: int, hi: int): Option<int> {
    var negative := s != [] && s[0] == '-' && lo < 0;
    var digits := if s != [] && (s[0] == '+' || negative) then s[1..] else s;
    if digits == [] || !AllDigits(digits) then None
    else
      var v: int := if negative then 0 - NatValue(digits) else NatValue(digits);
      if lo <= v <= hi then Some(v) else None
  }

  lemma {:induction false} NatRoundTrip(n: nat)
    ensures NatValue(NatText(n)) == n
  {
    if n >= 10 {
      NatRoundTrip(n / 10);
      assert NatText(n)[..|NatText(n)| - 1] == NatText(n / 10);
    }
  }

  lemma RoundTrip(n: int, lo: int, hi: int)
    requires lo <= 0 <= hi && lo <= n <= hi
    ensures Parse(Text(n), lo, hi) == Some(n)
  {
    if n < 0 {
      NatRoundTrip(-n);
      assert Text(n)[1..] == NatText(-n);
    } else {
      NatRoundTrip(n);
      assert IsDigit(Text(n)[0]);
    }
  }

  lemma TextInjective(m: int, n: int)
    requires Text(m) == Text(n)
    ensures m == n
  {
    var lo, hi := (if m < n then m else n), Max(m, n);
    RoundTrip(m, if lo < 0 then lo else 0, Max(hi, 0));
    RoundTrip(n, if lo < 0 then lo else 0, Max(hi, 0));
  }

  // ---------------------------------------------------------------- the grammar

  function Power10(n: nat): nat {
    if n == 0 then 1 else 10 * Power10(n - 1)
  }

  /** Each digit times the power of ten of its place. */
  function Positional(s: string): nat
    requires AllDigits(s)
  {
    if s == [] then 0 else (s[0] as int - '0' as int) * Power10(|s| - 1) + Positional(s[1..])
  }

  ghost predicate Spells(s: string, lo: int, hi: int, v: int) {
    exists sign, digits :: SpellsAs(s, lo, hi, v, sign, digits)
  }

  lemma {:induction false} PositionalLast(s: string)
    requires s != [] && AllDigits(s)
    ensures Positional(s) == 10 * Positional(s[..|s| - 1]) + (s[|s| - 1] as int - '0' as int)
  {
    if |s| > 1 {
      var init, rest := s[..|s| - 1], s[1..];
      PositionalLast(rest);
      assert rest[..|rest| - 1] == init[1..];
      var d, p := s[0] as int - '0' as int, Power10(|s| - 2);
      assert Power10(|s| - 1) == 10 * p;
      assert d * (10 * p) == 10 * (d * p);
    }
  }

  lemma {:induction false} NatValueIsPositional(s: string)
    requires AllDigits(s)
    ensures NatValue(s) == Positional(s)
  {
    if s != [] {
      NatValueIsPositional(s[..|s| - 1]);
      PositionalLast(s);
    }
  }

  /** An optional sign, a minus only where the type has negative values, at least one digit, and a value in range. */
  ghost predicate SpellsAs(s: string, lo: int, hi: int, v: int, sign: string, digits: string) {
    && s == sign + digits && (sign == "" || sign == "+" || (sign == "-" && lo < 0))
    && digits != [] && AllDigits(digits)
    && v == (if sign == "-" then 0 - Positional(digits) else Positional(digits)) && lo <= v <= hi
  }

  lemma SpelledIsParsed(s: string, lo: int, hi: int, v: int, sign: string, digits: string)
    requires SpellsAs(s, lo, hi, v, sign, digits)
    ensures Parse(s, lo, hi) == Some(v)
  {
    NatValueIsPositional(digits);
    assert IsDigit(digits[0]);
    if sign == "" { assert s == digits; } else { assert s[0] == sign[0] && s[1..] == digits; }
  }

  lemma ParsedIsSpelled(s: string, lo: int, hi: int, v: int)
    requires Parse(s, lo, hi) == Some(v)
    ensures Spells(s, lo, hi, v)
  {
    var signed := s[0] == '+' || (s[0] == '-' && lo < 0);
    var sign, digits := if signed then s[..1] else "", if signed then s[1..] else s;
    NatValueIsPositional(digits);
    assert SpellsAs(s, lo, hi, v, sign, digits);
  }

  /** Parsing accepts exactly the texts of the grammar, with the value they spell. */
  lemma ParseIffSpells(s: string, lo: int, hi: int, v: int)
    ensures Parse(s, lo, hi) == Some(v) <==> Spells(s, lo, hi, v)
  {
    if Parse(s, lo, hi) == Some(v) { ParsedIsSpelled(s, lo, hi, v); }
    if Spells(s, lo, hi, v) {
      var sign, digits :| SpellsAs(s, lo, hi, v, sign, digits);
      SpelledIsParsed(s, lo, hi, v, sign, digits);
    }
  }

  predicate Canonical(s: string) {
    s != [] && AllDigits(s) && (|s| == 1 || s[0] != '0')
  }

  lemma {:induction false} LeadingDigitCounts(s: string)
    requires s != [] && AllDigits(s) && s[0] != '0'
    ensures NatValue(s) >= 1
  {
    if |s| > 1 { LeadingDigitCounts(s[..|s| - 1]); }
  }

  /** Printing gives the one spelling without leading zeros. */
  lemma {:induction false} NatTextIsCanonical(n: nat)
    ensures Canonical(NatText(n)) && (NatText(n)[0] == '0' ==> n == 0)
  {
    if n >= 10 { NatTextIsCanonical(n / 10); }
  }

  lemma {:induction false} CanonicalIsPrinted(s: string)
    requires Canonical(s)
    ensures NatText(NatValue(s)) == s
  {
    if |s| > 1 {
      var init, d := s[..|s| - 1], s[|s| - 1] as int - '0' as int;
      LeadingDigitCounts(init);
      CanonicalIsPrinted(init);
      assert NatValue(s) == 10 * NatValue(init) + d;
      assert s == init + [Digit(d)];
    } else {
      assert s[..0] == [] && s == [Digit(s[0] as int - '0' as int)];
    }
  }

  /** A negative number has a minus in front, no other number has a sign. */
  lemma TextIsCanonical(n: int)
    ensures var s := Text(n);
            if n < 0 then s[0] == '-' && Canonical(s[1..]) && Positional(s[1..]) == -n
            else Canonical(s) && Positional(s) == n
  {
    var digits := NatText(if n < 0 then -n else n);
    NatTextIsCanonical(if n < 0 then -n else n);
    NatRoundTrip(if n < 0 then -n else n);
    NatValueIsPositional(digits);
    assert n < 0 ==> Text(n)[1..] == digits;
  }
}
