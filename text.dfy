// String helpers standing for Python's '%d' formatting, str.join and str
// comparison.
module Text {

  function Digit(d: nat): (c: char)
    requires d < 10
    ensures '0' <= c <= '9'
  {
    "0123456789"[d]
  }

  function DigitValue(c: char): (d: nat)
    requires '0' <= c <= '9'
    ensures d < 10
  {
    c as int - '0' as int
  }

  predicate AllDigits(s: string) {
    forall i :: 0 <= i < |s| ==> '0' <= s[i] <= '9'
  }

  /** Decimal rendering of a natural number, most significant digit first. */
  function NatToString(n: nat): (s: string)
    ensures |s| > 0 && AllDigits(s)
  {
    if n < 10 then [Digit(n)] else NatToString(n / 10) + [Digit(n % 10)]
  }

  /** Reads a string of decimal digits back as a number. */
  function ParseNat(s: string): nat
    requires AllDigits(s)
  {
    if s == [] then 0 else ParseNat(s[..|s| - 1]) * 10 + DigitValue(s[|s| - 1])
  }

  lemma {:induction false} ParseNatToString(n: nat)
    ensures ParseNat(NatToString(n)) == n
  {
    var s := NatToString(n);
    if n >= 10 {
      ParseNatToString(n / 10);
      assert s[..|s| - 1] == NatToString(n / 10);
      assert DigitValue(Digit(n % 10)) == n % 10;
    } else {
      assert DigitValue(Digit(n)) == n;
    }
  }

  /** Python's '%d' % n: a minus sign for negative numbers, then the digits. */
  function IntToString(n: int): (s: string)
    ensures |s| > 0
    ensures forall i :: 0 <= i < |s| ==> s[i] == '-' || '0' <= s[i] <= '9'
    ensures n >= 0 ==> '0' <= s[0] <= '9'
  {
    if n < 0 then "-" + NatToString(-n) else NatToString(n)
  }

  predicate IsIntText(s: string) {
    if |s| > 0 && s[0] == '-' then AllDigits(s[1..]) else AllDigits(s)
  }

  function ParseInt(s: string): int
    requires IsIntText(s)
  {
    if |s| > 0 && s[0] == '-' then 0 - ParseNat(s[1..]) as int else ParseNat(s)
  }

  lemma IntToStringRoundTrip(n: int)
    ensures IsIntText(IntToString(n)) && ParseInt(IntToString(n)) == n
  {
    if n < 0 {
      NegativeRoundTrip(n);
    } else {
      var s := NatToString(n);
      assert IntToString(n) == s;
      assert |s| > 0 && s[0] != '-';
      ParseNatToString(n);
    }
  }

  lemma NegativeRoundTrip(n: int)
    requires n < 0
    ensures IsIntText(IntToString(n)) && ParseInt(IntToString(n)) == n
  {
    ParseNatToString(-n);
    ParseSigned(NatToString(-n), -n);
    assert IntToString(n) == "-" + NatToString(-n);
  }

  /** A minus sign before digits worth m reads as -m. */
  lemma ParseSigned(digits: string, m: nat)
    requires AllDigits(digits) && ParseNat(digits) == m
    ensures IsIntText("-" + digits) && ParseInt("-" + digits) == -(m as int)
  {
    assert ("-" + digits)[1..] == digits;
  }

  /** Two numbers written around a separator that is not a digit or a minus
      sign can be read back from either side of it. */
  lemma ReadBackAround(a: int, sep: string, b: int)
    requires |sep| > 0 && sep[0] != '-' && !('0' <= sep[0] <= '9')
    ensures var x, r := IntToString(a), IntToString(a) + sep + IntToString(b);
      var k := |x|;
      && k + |sep| <= |r| && r[k..k + |sep|] == sep && sep[0] !in r[..k]
      && IsIntText(r[..k]) && ParseInt(r[..k]) == a
      && IsIntText(r[k + |sep|..]) && ParseInt(r[k + |sep|..]) == b
  {
    var x, y := IntToString(a), IntToString(b);
    var r := x + sep + y;
    var k := |x|;
    assert r[..k] == x;
    assert r[k..k + |sep|] == sep;
    assert r[k + |sep|..] == y;
    IntToStringRoundTrip(a);
    IntToStringRoundTrip(b);
  }

  lemma IntToStringInjective(a: int, b: int)
    requires IntToString(a) == IntToString(b)
    ensures a == b
  {
    IntToStringRoundTrip(a);
    IntToStringRoundTrip(b);
  }

  /** Python's sep.join(parts). */
  function Join(sep: string, parts: seq<string>): string {
    if |parts| == 0 then ""
    else if |parts| == 1 then parts[0]
    else Join(sep, parts[..|parts| - 1]) + sep + parts[|parts| - 1]
  }

  /** Joining non-empty parts yields the empty string only for no parts. */
  lemma JoinEmptyIff(sep: string, parts: seq<string>)
    requires forall i :: 0 <= i < |parts| ==> parts[i] != ""
    ensures Join(sep, parts) == "" <==> parts == []
  {
    if |parts| >= 2 {
      assert parts[|parts| - 1] != "";
    }
  }

  /** Python's '<' on str: lexicographic by code point, a proper prefix first. */
  predicate StrLt(a: string, b: string) {
    if a == [] then b != []
    else if b == [] then false
    else if a[0] != b[0] then a[0] < b[0]
    else StrLt(a[1..], b[1..])
  }

  lemma {:induction false} StrLtTransitive(a: string, b: string, c: string)
    requires StrLt(a, b) && StrLt(b, c)
    ensures StrLt(a, c)
  {
    if a != [] && a[0] == b[0] && b[0] == c[0] {
      StrLtTransitive(a[1..], b[1..], c[1..]);
    }
  }

  lemma {:induction false} StrLtTotal(a: string, b: string)
    ensures a == b || StrLt(a, b) || StrLt(b, a)
  {
    if a != [] && b != [] && a[0] == b[0] {
      StrLtTotal(a[1..], b[1..]);
      if a[1..] == b[1..] {
        assert a == [a[0]] + a[1..] && b == [b[0]] + b[1..];
      }
    }
  }
}
