/**
 * The countdown label of the test page: `formatTime` renders a number of
 * seconds as minutes and seconds, each padded to two digits with '0'
 * (src/pages/Test.tsx:63-67).
 *
 * `Decimal` is what `Number.prototype.toString()` yields for a non-negative
 * integer below 10^21 (from there on JavaScript switches to exponent
 * notation, which the countdown never reaches) and `PadStart` is `String.prototype.padStart` with a one-character
 * fill. `ParseClock` reads a label back; it is the partner against which the
 * rendering is proved.
 */
module Clock {
  import opened Wrappers

  predicate IsDigit(c: char) {
    '0' <= c <= '9'
  }

  predicate AllDigits(s: string) {
    forall i :: 0 <= i < |s| ==> IsDigit(s[i])
  }

  function DigitChar(d: nat): (c: char)
    requires d < 10
    ensures IsDigit(c) && DigitValue(c) == d
  {
    ('0' as int + d) as char
  }

  function DigitValue(c: char): nat
    requires IsDigit(c)
  {
    (c as int - '0' as int) as nat
  }

  /** Base-ten rendering of `n` without leading zeros. */
  function Decimal(n: nat): (s: string)
    ensures 1 <= |s| && AllDigits(s)
    ensures |s| == 1 <==> n < 10
    ensures s[0] == '0' ==> n == 0
    decreases n
  {
    if n < 10 then [DigitChar(n)] else Decimal(n / 10) + [DigitChar(n % 10)]
  }

  /** Value of a string of decimal digits; leading zeros are allowed. */
  function ParseDecimal(s: string): nat
    requires AllDigits(s)
    decreases |s|
  {
    if s == [] then 0 else ParseDecimal(s[..|s| - 1]) * 10 + DigitValue(s[|s| - 1])
  }

  /** `s.padStart(width, fill)`: `fill` is prepended until the length reaches `width`. */
  function PadStart(s: string, width: nat, fill: char): (r: string)
    ensures |r| == if |s| < width then width else |s|
    ensures r[|r| - |s|..] == s
    ensures forall i :: 0 <= i < |r| - |s| ==> r[i] == fill
    decreases width
  {
    if |s| >= width then s else [fill] + PadStart(s, width - 1, fill)
  }

  /** Minutes and seconds, each padded to two digits, around a colon. */
  function ClockLabel(mins: nat, secs: nat): string
  {
    PadStart(Decimal(mins), 2, '0') + ":" + PadStart(Decimal(secs), 2, '0')
  }

  /**
   * `formatTime`: the padded whole minutes `seconds / 60`, a colon and the
   * padded remaining seconds `seconds % 60`. The label reads back as those
   * two fields, the seconds field below 60, and so stands for `seconds`
   * again; it is exactly five characters long for every time below 100
   * minutes.
   */
  function FormatTime(seconds: nat): (text: string)
    ensures ParseClock(text) == Some((seconds / 60, seconds % 60))
    ensures ClockSeconds(text) == Some(seconds)
    ensures |text| >= 5 && text[|text| - 3] == ':'
    ensures |text| == 5 <==> seconds < 6000
  {
    MinutesAndSeconds(seconds);
    ClockFieldsRoundTrip(seconds / 60, seconds % 60);
    SecondsOfFields(ClockLabel(seconds / 60, seconds % 60), seconds / 60, seconds % 60, seconds);
    ClockLabelLength(seconds / 60, seconds % 60);
    ClockLabel(seconds / 60, seconds % 60)
  }

  /**
   * Reads a label `M…M:SS` back into its minute and second fields: at least
   * two minute digits, a colon and exactly two second digits whose value is
   * below 60.
   */
  function ParseClock(t: string): Option<(nat, nat)>
  {
    if |t| >= 5 && t[|t| - 3] == ':' && AllDigits(t[..|t| - 3]) && AllDigits(t[|t| - 2..])
       && ParseDecimal(t[|t| - 2..]) < 60
    then Some((ParseDecimal(t[..|t| - 3]), ParseDecimal(t[|t| - 2..])))
    else None
  }

  /** The number of seconds a label stands for. */
  function ClockSeconds(t: string): Option<nat>
  {
    match ParseClock(t)
    case None => None
    case Some((mins, secs)) => Some(mins * 60 + secs)
  }

  lemma {:induction false} DecimalRoundTrip(n: nat)
    ensures ParseDecimal(Decimal(n)) == n
    decreases n
  {
    if n >= 10 {
      var s := Decimal(n);
      assert s[..|s| - 1] == Decimal(n / 10);
      DecimalRoundTrip(n / 10);
    }
  }

  lemma {:induction false} ZerosParseToZero(z: string)
    requires forall i :: 0 <= i < |z| ==> z[i] == '0'
    ensures AllDigits(z) && ParseDecimal(z) == 0
    decreases |z|
  {
    if z != [] {
      ZerosParseToZero(z[..|z| - 1]);
    }
  }

  /** Leading zeros do not change the value of a digit string. */
  lemma {:induction false} ZeroPrefix(z: string, s: string)
    requires forall i :: 0 <= i < |z| ==> z[i] == '0'
    requires AllDigits(s)
    ensures AllDigits(z + s) && ParseDecimal(z + s) == ParseDecimal(s)
    decreases |s|
  {
    ZerosParseToZero(z);
    if s == [] {
      assert z + s == z;
    } else {
      var t := z + s;
      assert t[..|t| - 1] == z + s[..|s| - 1];
      ZeroPrefix(z, s[..|s| - 1]);
    }
  }

  /** A zero-padded rendering of `n` still reads back as `n`. */
  lemma PaddedRoundTrip(n: nat, width: nat)
    ensures AllDigits(PadStart(Decimal(n), width, '0'))
    ensures ParseDecimal(PadStart(Decimal(n), width, '0')) == n
  {
    var d := Decimal(n);
    var r := PadStart(d, width, '0');
    var z := r[..|r| - |d|];
    assert r == z + d;
    ZeroPrefix(z, d);
    DecimalRoundTrip(n);
  }

  lemma DecimalAtMostTwoDigits(n: nat)
    ensures |Decimal(n)| <= 2 <==> n < 100
  {
    if n >= 10 {
      assert |Decimal(n)| == |Decimal(n / 10)| + 1;
    }
  }

  /** `ParseClock` takes a label apart at its colon. */
  lemma ParseClockSplit(m: string, c: string)
    requires |m| >= 2 && AllDigits(m)
    requires |c| == 2 && AllDigits(c) && ParseDecimal(c) < 60
    ensures ParseClock(m + ":" + c) == Some((ParseDecimal(m), ParseDecimal(c)))
  {
    var t := m + ":" + c;
    assert t[..|t| - 3] == m;
    assert t[|t| - 2..] == c;
  }

  /** A label is its padded minutes, a colon and its padded seconds. */
  lemma LabelShape(m: string, c: string)
    requires |m| >= 2 && |c| == 2
    ensures |m + ":" + c| == |m| + 3 && (m + ":" + c)[|m|] == ':'
  {
  }

  /** Reading back a label assembled from two padded fields. */
  lemma ClockFieldsRoundTrip(mins: nat, secs: nat)
    requires secs < 60
    ensures ParseClock(ClockLabel(mins, secs)) == Some((mins, secs))
  {
    var m := PadStart(Decimal(mins), 2, '0');
    var c := PadStart(Decimal(secs), 2, '0');
    DecimalAtMostTwoDigits(secs);
    PaddedRoundTrip(mins, 2);
    PaddedRoundTrip(secs, 2);
    ParseClockSplit(m, c);
  }

  /** The seconds a label stands for, from its two fields. */
  lemma SecondsOfFields(t: string, mins: nat, secs: nat, total: nat)
    requires ParseClock(t) == Some((mins, secs)) && total == mins * 60 + secs
    ensures ClockSeconds(t) == Some(total)
  {
  }

  /** Whole minutes and remaining seconds recompose the count. */
  lemma MinutesAndSeconds(seconds: nat)
    ensures (seconds / 60) * 60 + seconds % 60 == seconds && seconds % 60 < 60
    ensures seconds / 60 < 100 <==> seconds < 6000
  {
  }

  /** A label has at least five characters, a colon third from the end, and exactly five below 100 minutes. */
  lemma ClockLabelLength(mins: nat, secs: nat)
    requires secs < 60
    ensures |ClockLabel(mins, secs)| >= 5
    ensures ClockLabel(mins, secs)[|ClockLabel(mins, secs)| - 3] == ':'
    ensures |ClockLabel(mins, secs)| == 5 <==> mins < 100
  {
    var m := PadStart(Decimal(mins), 2, '0');
    var c := PadStart(Decimal(secs), 2, '0');
    DecimalAtMostTwoDigits(mins);
    DecimalAtMostTwoDigits(secs);
    LabelShape(m, c);
  }

  /** The countdown's initial 21 minutes render as `21:00`. */
  lemma FormatTimeInitial()
    ensures FormatTime(21 * 60) == "21:00"
  {
    assert 21 * 60 / 60 == 21 && 21 * 60 % 60 == 0;
    InitialLabel();
  }

  lemma InitialLabel()
    ensures ClockLabel(21, 0) == "21:00"
  {
    assert Decimal(21) == Decimal(2) + ['1'] == "21";
    assert PadStart("21", 2, '0') == "21";
    assert PadStart("0", 2, '0') == ['0'] + PadStart("0", 1, '0') == "00";
  }
}
