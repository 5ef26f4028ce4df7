/** Go's `%d` rendering of integers (used for sizes under 1024 bytes and for the port in the
    endpoint string), together with a parser that reads such a rendering back. */
module Decimal {
  import opened Results

  /** Go's int64 (also the width of Go's `int` on the 64-bit targets the tool is built for). */
  type Int64 = x: int | -0x8000_0000_0000_0000 <= x < 0x8000_0000_0000_0000

  predicate IsDigit(c: char) {
    '0' <= c <= '9'
  }

  predicate AllDigits(s: string) {
    forall k :: 0 <= k < |s| ==> IsDigit(s[k])
  }

  function DigitChar(d: nat): (c: char)
    requires d < 10
    ensures IsDigit(c)
  {
    (d + '0' as int) as char
  }

  function DigitValue(c: char): (d: nat)
    requires IsDigit(c)
    ensures d < 10 && DigitChar(d) == c
  {
    c as int - '0' as int
  }

  /** A non-empty digit string with no leading zero. */
  predicate IsCanonicalNat(s: string) {
    |s| >= 1 && AllDigits(s) && (s[0] == '0' ==> s == "0")
  }

  /** What `%d` can print: a canonical digit string, or a minus sign before a positive one. */
  predicate IsCanonicalInt(s: string) {
    IsCanonicalNat(s) || (|s| >= 2 && s[0] == '-' && IsCanonicalNat(s[1..]) && s[1] != '0')
  }

  /** The shortest decimal rendering of `n`: digits only, no leading zero. */
  function NatToString(n: nat): (s: string)
    ensures IsCanonicalNat(s)
    ensures s[0] == '0' <==> n == 0
    decreases n
  {
    if n < 10 then [DigitChar(n)] else NatToString(n / 10) + [DigitChar(n % 10)]
  }

  /** `%d` of an integer: a minus sign before the magnitude when negative. */
  function IntToString(i: int): (s: string)
    ensures |s| >= 1
    ensures s[0] == '-' <==> i < 0
    ensures forall k :: 1 <= k < |s| ==> IsDigit(s[k])
    ensures IsCanonicalInt(s)
  {
    if i < 0 then "-" + NatToString(-i) else NatToString(i)
  }

  /** Reads a non-empty string of decimal digits; None for anything else. */
  function ParseNat(s: string): (r: Option<nat>)
    ensures r.Some? <==> |s| >= 1 && AllDigits(s)
  {
    if s == [] || !IsDigit(s[|s| - 1]) then None
    else if |s| == 1 then Some(DigitValue(s[0]))
    else match ParseNat(s[..|s| - 1])
      case None => None
      case Some(m) => Some(10 * m + DigitValue(s[|s| - 1]))
  }

  /** Reads an optional minus sign followed by decimal digits. */
  function ParseInt(s: string): (r: Option<int>)
  {
    if |s| >= 1 && s[0] == '-' then
      match ParseNat(s[1..])
      case None => None
      case Some(n) => Some(-(n as int))
    else match ParseNat(s)
      case None => None
      case Some(n) => Some(n)
  }

  lemma {:induction false} ParseNatRoundTrip(n: nat)
    ensures ParseNat(NatToString(n)) == Some(n)
    decreases n
  {
    if n >= 10 {
      var s := NatToString(n);
      ParseNatRoundTrip(n / 10);
      assert s[..|s| - 1] == NatToString(n / 10);
    }
  }

  /** A digit string without a leading zero has a positive value. */
  lemma {:induction false} ParseNatPositive(s: string)
    requires ParseNat(s).Some? && s[0] != '0'
    ensures ParseNat(s).value >= 1
    decreases |s|
  {
    if |s| > 1 {
      ParseNatPositive(s[..|s| - 1]);
    }
  }

  /** The other direction: every canonical digit string is the rendering of the number it denotes. */
  lemma {:induction false} NatToStringOfParse(s: string)
    requires ParseNat(s).Some? && (s[0] != '0' || |s| == 1)
    ensures NatToString(ParseNat(s).value) == s
    decreases |s|
  {
    if |s| > 1 {
      var init := s[..|s| - 1];
      NatToStringOfParse(init);
      ParseNatPositive(init);
      var m := ParseNat(init).value;
      var d := DigitValue(s[|s| - 1]);
      assert ParseNat(s).value == 10 * m + d;
      assert (10 * m + d) / 10 == m && (10 * m + d) % 10 == d;
      assert s == init + [s[|s| - 1]];
    }
  }

  lemma IntToStringRoundTrip(i: int)
    ensures ParseInt(IntToString(i)) == Some(i)
  {
    if i < 0 {
      ParseNatRoundTrip(-i);
      assert IntToString(i)[1..] == NatToString(-i);
    } else {
      ParseNatRoundTrip(i);
    }
  }

  /** A canonical rendering is the only one: a canonical string that reads as `i` is `%d` of `i`. */
  lemma CanonicalIntUnique(s: string, i: int)
    requires IsCanonicalInt(s) && ParseInt(s) == Some(i)
    ensures s == IntToString(i)
  {
    if s[0] == '-' {
      var n := ParseNat(s[1..]).value;
      NatToStringOfParse(s[1..]);
      ParseNatPositive(s[1..]);
      assert i == -(n as int) && n >= 1;
      assert s == "-" + s[1..];
    } else {
      NatToStringOfParse(s);
    }
  }

  /** A rendered integer has no character other than a leading minus and digits. */
  lemma IntToStringHasNo(i: int, c: char)
    requires c != '-' && !IsDigit(c)
    ensures c !in IntToString(i)
  {
  }
}
