/**
 * The brewing guide's `formatTime`: elapsed seconds shown as minutes and
 * seconds, each zero-padded to two digits and joined by ':'. Minutes are not
 * capped, so 100 minutes or more give a longer string.
 */
module TimeFormat {
  import opened Types

  predicate IsDigit(c: char) {
    '0' <= c <= '9'
  }

  predicate AllDigits(s: string) {
    forall i :: 0 <= i < |s| ==> IsDigit(s[i])
  }

  function DigitChar(d: nat): (c: char)
    requires d < 10
    ensures IsDigit(c) && c as int - '0' as int == d
  {
    ('0' as int + d) as char
  }

  /** `n.toString()` for a non-negative integer: its decimal digits, no leading zero. */
  function Decimal(n: nat): (r: string)
    ensures |r| >= 1 && AllDigits(r)
    ensures n < 10 <==> |r| == 1
    ensures n < 100 ==> |r| <= 2
  {
    if n < 10 then [DigitChar(n)] else Decimal(n / 10) + [DigitChar(n % 10)]
  }

  /** `s.padStart(2, '0')`: zeros in front until the length is at least two. */
  function PadStart2(s: string): (r: string)
    ensures |r| == if |s| >= 2 then |s| else 2
    ensures AllDigits(s) ==> AllDigits(r)
  {
    if |s| >= 2 then s else Zeros(2 - |s|) + s
  }

  function Zeros(k: nat): (z: string)
    ensures |z| == k && AllDigits(z)
  {
    seq(k, _ => '0')
  }

  /** `formatTime(seconds)`, src/screens/BrewingGuide/index.tsx. */
  function FormatTime(seconds: nat): (r: string)
    ensures |r| >= 5 && r[|r| - 3] == ':'
    ensures seconds < 6000 ==> |r| == 5
  {
    PadStart2(Decimal(seconds / 60)) + ":" + PadStart2(Decimal(seconds % 60))
  }

  /** The number a string of decimal digits denotes (leading zeros allowed). */
  function DigitsValue(s: string): nat
    requires AllDigits(s)
  {
    if s == [] then 0
    else DigitsValue(s[..|s| - 1]) * 10 + (s[|s| - 1] as int - '0' as int)
  }

  /** Reads "mm:ss" (any number of minute digits, exactly two second digits, seconds
      below 60) back into a number of seconds. */
  function ParseTime(t: string): Option<nat>
  {
    if |t| >= 4 && t[|t| - 3] == ':' && AllDigits(t[..|t| - 3]) && AllDigits(t[|t| - 2..])
       && DigitsValue(t[|t| - 2..]) < 60
    then Some(DigitsValue(t[..|t| - 3]) * 60 + DigitsValue(t[|t| - 2..]))
    else None
  }

  lemma {:induction false} DecimalValue(n: nat)
    ensures DigitsValue(Decimal(n)) == n
  {
    if n >= 10 {
      var d := Decimal(n);
      assert d[..|d| - 1] == Decimal(n / 10);
      DecimalValue(n / 10);
    }
  }

  lemma {:induction false} ZerosValue(k: nat)
    ensures DigitsValue(Zeros(k)) == 0
  {
    if k > 0 {
      assert Zeros(k)[..k - 1] == Zeros(k - 1);
      ZerosValue(k - 1);
    }
  }

  /** Leading zeros do not change the value of a digit string. */
  lemma {:induction false} LeadingZerosValue(k: nat, s: string)
    requires AllDigits(s)
    ensures AllDigits(Zeros(k) + s) && DigitsValue(Zeros(k) + s) == DigitsValue(s)
  {
    var z := Zeros(k) + s;
    if s == [] {
      assert z == Zeros(k);
      ZerosValue(k);
    } else {
      assert z[..|z| - 1] == Zeros(k) + s[..|s| - 1];
      LeadingZerosValue(k, s[..|s| - 1]);
    }
  }

  lemma PadStart2Value(s: string)
    requires AllDigits(s)
    ensures DigitsValue(PadStart2(s)) == DigitsValue(s)
  {
    if |s| < 2 {
      LeadingZerosValue(2 - |s|, s);
    }
  }

  /** Reading back "m:s" with a two-digit seconds field below 60. */
  lemma ParseFields(m: string, s: string)
    requires |m| >= 1 && AllDigits(m) && |s| == 2 && AllDigits(s) && DigitsValue(s) < 60
    ensures ParseTime(m + ":" + s) == Some(DigitsValue(m) * 60 + DigitsValue(s))
  {
    var t := m + ":" + s;
    assert t[..|t| - 3] == m;
    assert t[|t| - 2..] == s;
  }

  /** The minutes field is `seconds / 60`, the seconds field is `seconds % 60`
      (always two digits), so the display reads back to the elapsed time. */
  lemma FormatTimeRoundTrip(seconds: nat)
    ensures ParseTime(FormatTime(seconds)) == Some(seconds)
  {
    var mins, secs := seconds / 60, seconds % 60;
    var m := PadStart2(Decimal(mins));
    var s := PadStart2(Decimal(secs));
    DecimalValue(mins);
    DecimalValue(secs);
    PadStart2Value(Decimal(mins));
    PadStart2Value(Decimal(secs));
    assert DigitsValue(m) == mins && DigitsValue(s) == secs;
    ParseFields(m, s);
    assert mins * 60 + secs == seconds;
  }
}
