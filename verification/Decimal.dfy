/** Decimal text for integers, as the pages use it: `String(n)` when a
    count is rendered, and `parseInt(s)` (radix 10) when a price literal
    is turned into a number. */
module Decimal {
  import opened Wrappers

  predicate IsDigit(c: char) {
    '0' <= c <= '9'
  }

  predicate AllDigits(s: string) {
    forall i :: 0 <= i < |s| ==> IsDigit(s[i])
  }

  function DigitChar(d: int): (c: char)
    requires 0 <= d < 10
    ensures IsDigit(c)
  {
    ('0' as int + d) as char
  }

  function DigitValue(c: char): (d: int)
    requires IsDigit(c)
    ensures 0 <= d < 10 && DigitChar(d) == c
  {
    c as int - '0' as int
  }

  /** `String(n)` for a non-negative integer: its digits, most significant
      first, with no leading zero. */
  function NatToString(n: nat): (r: string)
    ensures 1 <= |r| && AllDigits(r)
    ensures n < 10 <==> |r| == 1
    ensures n < 100 ==> |r| <= 2
    ensures |r| > 1 ==> r[0] != '0'
  {
    if n < 10 then [DigitChar(n)] else NatToString(n / 10) + [DigitChar(n % 10)]
  }

  /** `String(n)` for any integer. */
  function IntToString(n: int): string {
    if n < 0 then "-" + NatToString(-n) else NatToString(n)
  }

  /** The number a string of decimal digits denotes. */
  function DigitsValue(s: string): nat
    requires AllDigits(s)
  {
    if |s| == 0 then 0 else DigitsValue(s[..|s| - 1]) * 10 + DigitValue(s[|s| - 1])
  }

  lemma {:induction false} NatToStringRoundTrip(n: nat)
    ensures DigitsValue(NatToString(n)) == n
  {
    if n >= 10 {
      var r := NatToString(n);
      assert r[..|r| - 1] == NatToString(n / 10);
      NatToStringRoundTrip(n / 10);
    }
  }

  /** The longest prefix of `s` made of digits. */
  function LeadingDigits(s: string): (r: string)
    ensures |r| <= |s| && r == s[..|r|] && AllDigits(r)
    ensures |r| < |s| ==> !IsDigit(s[|r|])
  {
    if |s| == 0 || !IsDigit(s[0]) then [] else [s[0]] + LeadingDigits(s[1..])
  }

  /** `parseInt(s)` with radix 10: an optional sign, then the longest run
      of digits; `None` stands for `NaN` (no digit at all). */
  function ParseInt(s: string): (r: Option<int>)
    ensures r.Some? <==> |LeadingDigits(if |s| > 0 && (s[0] == '-' || s[0] == '+') then s[1..] else s)| > 0
  {
    var negative := |s| > 0 && s[0] == '-';
    var body := if |s| > 0 && (s[0] == '-' || s[0] == '+') then s[1..] else s;
    var digits := LeadingDigits(body);
    if |digits| == 0 then None
    else
      var magnitude: int := DigitsValue(digits);
      Some(if negative then -magnitude else magnitude)
  }

  lemma LeadingDigitsOfDigits(s: string)
    requires AllDigits(s)
    ensures LeadingDigits(s) == s
  {
  }

  /** The leading digits stop at the first character that is not a digit. */
  lemma {:induction false} LeadingDigitsStop(digits: string, rest: string)
    requires AllDigits(digits)
    requires |rest| == 0 || !IsDigit(rest[0])
    ensures LeadingDigits(digits + rest) == digits
    decreases |digits|
  {
    if |digits| > 0 {
      assert (digits + rest)[1..] == digits[1..] + rest;
      LeadingDigitsStop(digits[1..], rest);
    } else {
      assert digits + rest == rest;
    }
  }

  /** `parseInt` of a run of digits followed by anything that does not
      start with a digit reads the run and ignores the rest. */
  lemma ParseIntReadsLeadingRun(digits: string, rest: string)
    requires |digits| > 0 && AllDigits(digits)
    requires |rest| == 0 || !IsDigit(rest[0])
    ensures ParseInt(digits + rest) == Some(DigitsValue(digits))
  {
    LeadingDigitsStop(digits, rest);
  }

  lemma ParseIntReadsNatToString(m: nat)
    ensures ParseInt(NatToString(m)) == Some(m)
  {
    var s := NatToString(m);
    assert IsDigit(s[0]);
    LeadingDigitsOfDigits(s);
    NatToStringRoundTrip(m);
  }

  lemma ParseIntReadsMinus(m: nat)
    ensures ParseInt("-" + NatToString(m)) == Some(-(m as int))
  {
    var s := "-" + NatToString(m);
    assert s[1..] == NatToString(m);
    LeadingDigitsOfDigits(NatToString(m));
    NatToStringRoundTrip(m);
  }

  /** `parseInt` of `String(n)` followed by text that does not start with
      a digit reads `n`. */
  lemma ParseIntReadsIntToString(n: int, rest: string)
    requires |rest| == 0 || !IsDigit(rest[0])
    ensures ParseInt(IntToString(n) + rest) == Some(n)
  {
    if n < 0 {
      ParseIntReadsNegativeThen(n, rest);
    } else {
      ParseIntReadsNatThen(n, rest);
    }
  }

  lemma ParseIntReadsNegativeThen(n: int, rest: string)
    requires n < 0
    requires |rest| == 0 || !IsDigit(rest[0])
    ensures ParseInt(IntToString(n) + rest) == Some(n)
  {
    var digits := NatToString(-n);
    assert IntToString(n) == "-" + digits;
    ConcatAssoc("-", digits, rest);
    ParseIntReadsMinusThen(-n, rest);
  }

  lemma ConcatAssoc(a: string, b: string, c: string)
    ensures (a + b) + c == a + (b + c)
  {
  }

  lemma ParseIntReadsNatThen(m: nat, rest: string)
    requires |rest| == 0 || !IsDigit(rest[0])
    ensures ParseInt(NatToString(m) + rest) == Some(m as int)
  {
    ParseIntReadsLeadingRun(NatToString(m), rest);
    NatToStringRoundTrip(m);
  }

  lemma ParseIntReadsMinusThen(m: nat, rest: string)
    requires |rest| == 0 || !IsDigit(rest[0])
    ensures ParseInt("-" + (NatToString(m) + rest)) == Some(-(m as int))
  {
    var body := NatToString(m) + rest;
    assert ("-" + body)[1..] == body;
    LeadingDigitsStop(NatToString(m), rest);
    NatToStringRoundTrip(m);
  }

  /** Reading back what `String(n)` wrote gives `n` again. */
  lemma ParseIntRoundTrip(n: int)
    ensures ParseInt(IntToString(n)) == Some(n)
  {
    if n < 0 {
      ParseIntReadsMinus(-n);
    } else {
      ParseIntReadsNatToString(n);
    }
  }
}
