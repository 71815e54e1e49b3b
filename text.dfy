/**
 * The text the server puts into its JSON answer: JavaScript's conversion of an
 * integer, and of a number with one decimal, to a string (template literals
 * `${n}`), together with parsers that read those numbers back.  The parsers are
 * what the lemmas use to say which number a field of the response shows.
 */
module Text {
  import opened Wrappers

  predicate IsDigit(c: char) { '0' <= c <= '9' }

  predicate AllDigits(s: string) { forall i :: 0 <= i < |s| ==> IsDigit(s[i]) }

  function Digit(d: nat): (c: char)
    requires d < 10
    ensures IsDigit(c) && c as int - '0' as int == d
  {
    ('0' as int + d) as char
  }

  function DigitValue(c: char): (d: nat)
    requires IsDigit(c)
    ensures d < 10 && Digit(d) == c
  {
    c as int - '0' as int
  }

  /** Decimal digits of a natural number, most significant first, no leading zeros. */
  function NatToString(n: nat): (s: string)
    ensures |s| > 0 && AllDigits(s)
    ensures |s| > 1 ==> s[0] != '0'
    decreases n
  {
    if n < 10 then [Digit(n)] else NatToString(n / 10) + [Digit(n % 10)]
  }

  /** The value of a string of decimal digits. */
  function DigitsValue(s: string): nat
    requires AllDigits(s)
    decreases |s|
  {
    if s == [] then 0 else DigitsValue(s[..|s| - 1]) * 10 + DigitValue(s[|s| - 1])
  }

  function ParseNat(s: string): Option<nat>
  {
    if |s| > 0 && AllDigits(s) then Some(DigitsValue(s)) else None
  }

  /** `${i}` for an integer-valued JavaScript number. */
  function IntToString(i: int): (s: string)
    ensures |s| > 0
    ensures i >= 0 <==> AllDigits(s)
    ensures i < 0 <==> s[0] == '-'
  {
    if i < 0 then
      var s := "-" + NatToString(-i);
      assert !IsDigit(s[0]);
      s
    else
      NatToString(i)
  }

  /** Reads an optionally signed decimal integer. */
  function ParseInt(s: string): Option<int>
  {
    if |s| > 0 && s[0] == '-' then
      match ParseNat(s[1..])
      case Some(n) => Some(-(n as int))
      case None => None
    else
      match ParseNat(s)
      case Some(n) => Some(n)
      case None => None
  }

  lemma {:induction false} NatRoundTrip(n: nat)
    ensures DigitsValue(NatToString(n)) == n
    decreases n
  {
    if n >= 10 {
      var s := NatToString(n);
      assert s[..|s| - 1] == NatToString(n / 10);
      NatRoundTrip(n / 10);
    }
  }

  /** Reading back what IntToString wrote gives the same integer. */
  lemma IntRoundTrip(i: int)
    ensures ParseInt(IntToString(i)) == Some(i)
  {
    if i < 0 {
      var s := IntToString(i);
      assert s[1..] == NatToString(-i);
      NatRoundTrip(-i);
    } else {
      NatRoundTrip(i);
    }
  }

  /**
   * `${x}` for the JavaScript number x = t / 10, that is, a value with at most
   * one decimal: the integer part, then "." and the tenths digit unless that
   * digit is zero, with a "-" in front of a negative value ("8", "8.5", "-0.5").
   */
  function TenthsToString(t: int): (s: string)
    ensures |s| > 0
    ensures t < 0 <==> s[0] == '-'
    ensures '.' in s <==> t % 10 != 0
  {
    var a := if t < 0 then -t else t;
    var whole := NatToString(a / 10);
    assert '.' !in whole by {
      assert !IsDigit('.');
    }
    var body := whole + (if a % 10 == 0 then "" else "." + [Digit(a % 10)]);
    assert body[|whole|..] == (if a % 10 == 0 then "" else "." + [Digit(a % 10)]);
    if t < 0 then "-" + body else body
  }

  /** Reads an unsigned number with at most one decimal, in tenths. */
  function ParseUnsignedTenths(u: string): Option<nat>
  {
    if |u| >= 3 && u[|u| - 2] == '.' && IsDigit(u[|u| - 1]) then
      match ParseNat(u[..|u| - 2])
      case Some(w) => Some(w * 10 + DigitValue(u[|u| - 1]))
      case None => None
    else
      match ParseNat(u)
      case Some(w) => Some(w * 10)
      case None => None
  }

  /** Reads an optionally signed number with at most one decimal, in tenths. */
  function ParseTenths(s: string): Option<int>
  {
    if |s| > 0 && s[0] == '-' then
      match ParseUnsignedTenths(s[1..])
      case Some(m) => Some(-(m as int))
      case None => None
    else
      match ParseUnsignedTenths(s)
      case Some(m) => Some(m)
      case None => None
  }

  lemma UnsignedTenthsRoundTrip(a: nat)
    ensures ParseUnsignedTenths(TenthsToString(a)) == Some(a)
  {
    var w := NatToString(a / 10);
    NatRoundTrip(a / 10);
    if a % 10 == 0 {
      assert TenthsToString(a) == w;
      assert |w| >= 3 ==> w[|w| - 2] != '.';
    } else {
      var u := w + "." + [Digit(a % 10)];
      assert TenthsToString(a) == u;
      assert u[..|u| - 2] == w;
    }
  }

  lemma NegativeTenthsText(t: int)
    requires t < 0
    ensures TenthsToString(t) == "-" + TenthsToString(-t)
  {
  }

  /** Reading back what TenthsToString wrote gives the same number of tenths. */
  lemma TenthsRoundTrip(t: int)
    ensures ParseTenths(TenthsToString(t)) == Some(t)
  {
    if t < 0 {
      UnsignedTenthsRoundTrip(-t);
      var u := TenthsToString(-t);
      NegativeTenthsText(t);
      assert ("-" + u)[1..] == u;
    } else {
      UnsignedTenthsRoundTrip(t);
    }
  }

  /** The text between a fixed prefix and a fixed suffix, if `s` has both. */
  function Between(s: string, prefix: string, suffix: string): (r: Option<string>)
    ensures r.Some? ==> prefix + r.value + suffix == s
  {
    if |s| >= |prefix| + |suffix| && s[..|prefix|] == prefix && s[|s| - |suffix|..] == suffix then
      var mid := s[|prefix|..|s| - |suffix|];
      assert prefix + mid + suffix == s;
      Some(mid)
    else
      None
  }

  lemma BetweenOfConcat(prefix: string, mid: string, suffix: string)
    ensures Between(prefix + mid + suffix, prefix, suffix) == Some(mid)
  {
    var s := prefix + mid + suffix;
    assert s[..|prefix|] == prefix;
    assert s[|s| - |suffix|..] == suffix;
    assert s[|prefix|..|s| - |suffix|] == mid;
  }

  /** The integer a response field shows between `prefix` and `suffix`. */
  function ShownInt(s: string, prefix: string, suffix: string): Option<int>
  {
    match Between(s, prefix, suffix)
    case Some(mid) => ParseInt(mid)
    case None => None
  }

  /** The one-decimal number, in tenths, a response field shows between `prefix` and `suffix`. */
  function ShownTenths(s: string, prefix: string, suffix: string): Option<int>
  {
    match Between(s, prefix, suffix)
    case Some(mid) => ParseTenths(mid)
    case None => None
  }

  lemma ShownIntOf(prefix: string, i: int, suffix: string)
    ensures ShownInt(prefix + IntToString(i) + suffix, prefix, suffix) == Some(i)
  {
    BetweenOfConcat(prefix, IntToString(i), suffix);
    IntRoundTrip(i);
  }

  lemma ShownTenthsOf(prefix: string, t: int, suffix: string)
    ensures ShownTenths(prefix + TenthsToString(t) + suffix, prefix, suffix) == Some(t)
  {
    BetweenOfConcat(prefix, TenthsToString(t), suffix);
    TenthsRoundTrip(t);
  }
}
