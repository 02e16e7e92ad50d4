/**
 * Decimal text of integers, as JavaScript writes an integral number when it
 * is concatenated to a string, and the reading back of a `low-high` range.
 */
module Decimal {
  import opened Collections

  predicate IsDigit(c: char) {
    '0' <= c <= '9'
  }

  function DigitChar(d: nat): (c: char)
    requires d < 10
    ensures IsDigit(c) && c as int - '0' as int == d
  {
    ('0' as int + d) as char
  }

  function DigitValue(c: char): (d: nat)
    requires IsDigit(c)
    ensures d < 10 && DigitChar(d) == c
  {
    (c as int - '0' as int) as nat
  }

  predicate AllDigits(s: string) {
    forall i :: 0 <= i < |s| ==> IsDigit(s[i])
  }

  /** Decimal digits of `n`, without leading zeros. */
  function NatToString(n: nat): (s: string)
    ensures |s| > 0 && AllDigits(s)
    ensures |s| > 1 ==> s[0] != '0'
  {
    if n < 10 then [DigitChar(n)] else NatToString(n / 10) + [DigitChar(n % 10)]
  }

  /** The number denoted by a string of decimal digits. */
  function ParseNat(s: string): nat
    requires AllDigits(s)
  {
    if |s| == 0 then 0 else 10 * ParseNat(s[..|s| - 1]) + DigitValue(s[|s| - 1])
  }

  /** `String(i)` for an integral number: a minus sign for negatives, then the digits. */
  function IntToString(i: int): (s: string)
    ensures |s| > 0
    ensures i >= 0 <==> s[0] != '-'
    ensures i >= 0 ==> IsDigit(s[0])
    ensures forall k :: 0 < k < |s| ==> IsDigit(s[k])
  {
    if i < 0 then "-" + NatToString(-i) else NatToString(i)
  }

  /** An optional minus sign followed by at least one digit; anything else is not a number. */
  function ParseInt(s: string): Option<int> {
    if |s| > 0 && s[0] == '-' then
      if |s| > 1 && AllDigits(s[1..]) then Some(0 - ParseNat(s[1..]) as int) else None
    else if |s| > 0 && AllDigits(s) then Some(ParseNat(s))
    else None
  }

  /** The text `low-high` a range slider submits. */
  function FormatRange(low: int, high: int): (s: string)
    ensures |s| >= 3
  {
    IntToString(low) + "-" + IntToString(high)
  }

  predicate IsMinus(c: char) {
    c == '-'
  }

  /** Reads a `low-high` text back: the separator is the first '-' after the first character. */
  function ParseRange(s: string): Option<(int, int)> {
    if |s| < 2 then None
    else
      var k := FindIndex(s[1..], IsMinus);
      if k < 0 then None
      else
        var low := ParseInt(s[..k + 1]);
        var high := ParseInt(s[k + 2..]);
        if low.Some? && high.Some? then Some((low.value, high.value)) else None
  }

  lemma {:induction false} ParseNatToString(n: nat)
    ensures ParseNat(NatToString(n)) == n
  {
    if n >= 10 {
      var s := NatToString(n);
      assert s[..|s| - 1] == NatToString(n / 10);
      ParseNatToString(n / 10);
    }
  }

  /** Every integer's text reads back as that integer. */
  lemma ParseIntToString(i: int)
    ensures ParseInt(IntToString(i)) == Some(i)
  {
    var s := IntToString(i);
    if i < 0 {
      var n := NatToString(-i);
      assert s == "-" + n;
      assert s[1..] == n;
      ParseNatToString(-i);
      assert ParseInt(s) == Some(0 - ParseNat(n) as int);
    } else {
      assert s == NatToString(i);
      assert IsDigit(s[0]);
      ParseNatToString(i);
      assert ParseInt(s) == Some(ParseNat(s));
    }
  }

  /** After a number's first character, the first '-' is the one that follows the number. */
  lemma SeparatorAfter(a: string, rest: string)
    requires |a| > 0 && forall k :: 0 < k < |a| ==> IsDigit(a[k])
    ensures FindIndex((a + "-" + rest)[1..], IsMinus) == |a| - 1
  {
    var t := (a + "-" + rest)[1..];
    var r := FindIndex(t, IsMinus);
    assert IsMinus(t[|a| - 1]);
    assert 0 <= r <= |a| - 1;
  }

  /** A submitted range reads back as the two bounds it was made from. */
  lemma ParseFormatRange(low: int, high: int)
    ensures ParseRange(FormatRange(low, high)) == Some((low, high))
  {
    var a := IntToString(low);
    var b := IntToString(high);
    var s := a + "-" + b;
    SeparatorAfter(a, b);
    assert s[..|a|] == a;
    assert s[|a| + 1..] == b;
    ParseIntToString(low);
    ParseIntToString(high);
  }
}
