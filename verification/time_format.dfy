/**
 * `formatTime` (app.js): a number of seconds shown as minutes and seconds,
 * each zero-padded to two digits. Minutes are not capped, so 100 minutes
 * read "100:00".
 */
module TimeFormat {

  predicate IsDigit(c: char) {
    '0' <= c <= '9'
  }

  predicate AllDigits(s: string) {
    forall i :: 0 <= i < |s| ==> IsDigit(s[i])
  }

  function DigitChar(d: nat): (c: char)
    requires d < 10
    ensures IsDigit(c)
  {
    ('0' as int + d) as char
  }

  function DigitValue(c: char): (d: nat)
    requires IsDigit(c)
    ensures d < 10
  {
    c as int - '0' as int
  }

  /** JavaScript's `String(n)` for a non-negative integer: decimal digits, no leading zeros. */
  function DecimalString(n: nat): (r: string)
    ensures 1 <= |r|
    ensures AllDigits(r)
    ensures n < 10 ==> |r| == 1
    ensures n < 100 ==> |r| <= 2
    ensures |r| > 1 ==> r[0] != '0'
    ensures r[0] == '0' <==> n == 0
    decreases n
  {
    if n < 10 then [DigitChar(n)] else DecimalString(n / 10) + [DigitChar(n % 10)]
  }

  /** The value of a string of decimal digits; leading zeros are allowed. */
  function ParseDecimal(s: string): nat
    requires AllDigits(s)
  {
    if |s| == 0 then 0 else ParseDecimal(s[..|s| - 1]) * 10 + DigitValue(s[|s| - 1])
  }

  /** `s.padStart(2, "0")`: zeros in front until the length is at least two. */
  function PadStart2(s: string): (r: string)
    ensures |r| == if |s| < 2 then 2 else |s|
    ensures AllDigits(s) ==> AllDigits(r)
    decreases 2 - |s|
  {
    if |s| >= 2 then s else PadStart2(['0'] + s)
  }

  /** Padding only puts zeros in front: the original string is the suffix, and everything before it is '0'. */
  lemma {:induction false} PadStart2Shape(s: string)
    ensures |PadStart2(s)| - |s| <= 2
    ensures PadStart2(s)[|PadStart2(s)| - |s|..] == s
    ensures forall i :: 0 <= i < |PadStart2(s)| - |s| ==> PadStart2(s)[i] == '0'
    decreases 2 - |s|
  {
    if |s| < 2 {
      var z := ['0'] + s;
      PadStart2Shape(z);
      var r := PadStart2(z);
      assert r[|r| - |s|..] == r[|r| - |z|..][1..];
    }
  }

  function FormatTime(totalSeconds: nat): (r: string)
    ensures 5 <= |r|
    ensures r[|r| - 3] == ':'
    ensures AllDigits(r[..|r| - 3]) && AllDigits(r[|r| - 2..])
    ensures |r| == 5 || r[0] != '0'
  {
    var mm := PadStart2(DecimalString(totalSeconds / 60));
    var ss := PadStart2(DecimalString(totalSeconds % 60));
    assert (mm + ":" + ss)[..|mm|] == mm && (mm + ":" + ss)[|mm| + 1..] == ss;
    assert |mm| > 2 ==> mm[0] != '0' by {
      if |mm| > 2 {
        PadStart2Shape(DecimalString(totalSeconds / 60));
      }
    }
    mm + ":" + ss
  }

  /** Reads a displayed "mm:ss" back as a number of seconds. */
  function ParseTime(r: string): nat
    requires 3 <= |r| && AllDigits(r[..|r| - 3]) && AllDigits(r[|r| - 2..])
  {
    ParseDecimal(r[..|r| - 3]) * 60 + ParseDecimal(r[|r| - 2..])
  }

  lemma {:induction false} ParseDecimalString(n: nat)
    ensures ParseDecimal(DecimalString(n)) == n
    decreases n
  {
    if n >= 10 {
      var s := DecimalString(n);
      assert s[..|s| - 1] == DecimalString(n / 10);
      ParseDecimalString(n / 10);
    }
  }

  /** A leading zero does not change the value. */
  lemma {:induction false} ParseLeadingZero(s: string)
    requires AllDigits(s)
    ensures ParseDecimal(['0'] + s) == ParseDecimal(s)
    decreases |s|
  {
    if |s| > 0 {
      assert (['0'] + s)[..|s|] == ['0'] + s[..|s| - 1];
      ParseLeadingZero(s[..|s| - 1]);
    }
  }

  lemma {:induction false} ParsePadStart2(s: string)
    requires AllDigits(s)
    ensures ParseDecimal(PadStart2(s)) == ParseDecimal(s)
    decreases 2 - |s|
  {
    if |s| < 2 {
      ParseLeadingZero(s);
      ParsePadStart2(['0'] + s);
    }
  }

  /** Every displayed time reads back as the number of seconds it was made from, with a seconds field below 60. */
  lemma FormatTimeRoundTrip(t: nat)
    ensures ParseTime(FormatTime(t)) == t
    ensures ParseDecimal(FormatTime(t)[|FormatTime(t)| - 2..]) < 60
  {
    var mm := PadStart2(DecimalString(t / 60));
    var ss := PadStart2(DecimalString(t % 60));
    var r := FormatTime(t);
    assert r == mm + ":" + ss;
    assert r[..|r| - 3] == mm;
    assert r[|r| - 2..] == ss;
    ParseDecimalString(t / 60);
    ParseDecimalString(t % 60);
    ParsePadStart2(DecimalString(t / 60));
    ParsePadStart2(DecimalString(t % 60));
  }
}
