/** The `HH:mm:ss.SSS` timestamp of a log line (Unicode Technical Standard #35,
    date field patterns: `HH` hour 00-23, `mm` minute, `ss` second, `SSS`
    fractional second truncated to milliseconds, each zero-padded). The wall
    clock is not modelled: the time of day is passed in as integers. */
module TimeFormat {
  import opened Wrappers

  datatype TimeOfDay = TimeOfDay(hour: nat, minute: nat, second: nat, millisecond: nat) {
    predicate Valid() {
      hour < 24 && minute < 60 && second < 60 && millisecond < 1000
    }
  }

  /** A time of day as a clock can report it. */
  type ClockTime = t: TimeOfDay | t.Valid() witness TimeOfDay(0, 0, 0, 0)

  /** Length of a rendered timestamp. */
  const TimestampLength: nat := 12

  predicate IsDigit(c: char) {
    '0' <= c <= '9'
  }

  function DigitChar(d: nat): (c: char)
    requires d < 10
    ensures IsDigit(c)
    ensures c == "0123456789"[d]
  {
    (48 + d) as char
  }

  function DigitValue(c: char): (d: nat)
    requires IsDigit(c)
    ensures d < 10
    ensures DigitChar(d) == c
  {
    (c as int - 48) as nat
  }

  lemma DigitValueOfChar(d: nat)
    requires d < 10
    ensures DigitValue(DigitChar(d)) == d
  {
  }

  /** `n` written with exactly `width` decimal digits, most significant first,
      left-padded with zeros. */
  function Pad(n: nat, width: nat): (s: string)
    ensures |s| == width
    ensures forall i :: 0 <= i < |s| ==> IsDigit(s[i])
  {
    if width == 0 then [] else Pad(n / 10, width - 1) + [DigitChar(n % 10)]
  }

  /** The number a string of decimal digits denotes. */
  function DigitsValue(s: string): (n: nat)
    requires forall i :: 0 <= i < |s| ==> IsDigit(s[i])
  {
    if |s| == 0 then 0 else 10 * DigitsValue(s[..|s| - 1]) + DigitValue(s[|s| - 1])
  }

  function Power10(k: nat): (p: nat)
    ensures p >= 1
  {
    if k == 0 then 1 else 10 * Power10(k - 1)
  }

  /** Reading back a padded number gives the number, provided it fits. */
  lemma {:induction false} PadRoundTrip(n: nat, width: nat)
    requires n < Power10(width)
    ensures DigitsValue(Pad(n, width)) == n
  {
    if width > 0 {
      var s := Pad(n, width);
      assert s[..|s| - 1] == Pad(n / 10, width - 1);
      assert n / 10 < Power10(width - 1);
      PadRoundTrip(n / 10, width - 1);
      DigitValueOfChar(n % 10);
    }
  }

  /** Padding the value of a digit string gives the string back. */
  lemma {:induction false} DigitsRoundTrip(s: string)
    requires forall i :: 0 <= i < |s| ==> IsDigit(s[i])
    ensures DigitsValue(s) < Power10(|s|)
    ensures Pad(DigitsValue(s), |s|) == s
  {
    if |s| > 0 {
      var init := s[..|s| - 1];
      DigitsRoundTrip(init);
      var n := DigitsValue(s);
      var d := DigitValue(s[|s| - 1]);
      assert n == 10 * DigitsValue(init) + d;
      assert n / 10 == DigitsValue(init) && n % 10 == d;
      assert s == init + [s[|s| - 1]];
    }
  }

  /** Renders `HH:mm:ss.SSS`. */
  function FormatTime(t: ClockTime): (r: string)
    ensures |r| == TimestampLength
    ensures r[2] == ':' && r[5] == ':' && r[8] == '.'
    ensures forall i :: 0 <= i < |r| && i != 2 && i != 5 && i != 8 ==> IsDigit(r[i])
  {
    Pad(t.hour, 2) + ":" + Pad(t.minute, 2) + ":" + Pad(t.second, 2) + "." + Pad(t.millisecond, 3)
  }

  /** Whether `s` has the shape of a rendered timestamp: twelve characters,
      separators at 2, 5 and 8, digits elsewhere. */
  predicate HasTimestampShape(s: string) {
    && |s| == TimestampLength
    && s[2] == ':' && s[5] == ':' && s[8] == '.'
    && forall i :: 0 <= i < |s| && i != 2 && i != 5 && i != 8 ==> IsDigit(s[i])
  }

  /** Reads a `HH:mm:ss.SSS` timestamp back; the inverse of `FormatTime`. */
  function ParseTime(s: string): (r: Option<ClockTime>)
    ensures r.Some? ==> HasTimestampShape(s)
  {
    if !HasTimestampShape(s) then None
    else
      var t := TimeOfDay(DigitsValue(s[0..2]), DigitsValue(s[3..5]), DigitsValue(s[6..8]), DigitsValue(s[9..12]));
      if t.Valid() then Some(t) else None
  }

  /** A worked example: single-digit fields are zero-padded on the left. */
  lemma FormatExample()
    ensures FormatTime(TimeOfDay(9, 5, 3, 7)) == "09:05:03.007"
    ensures FormatTime(TimeOfDay(23, 59, 59, 999)) == "23:59:59.999"
  {
  }

  /** Every rendered timestamp parses back to the time it was rendered from. */
  lemma FormatParse(t: ClockTime)
    ensures ParseTime(FormatTime(t)) == Some(t)
  {
    var r := FormatTime(t);
    assert r[0..2] == Pad(t.hour, 2);
    assert r[3..5] == Pad(t.minute, 2);
    assert r[6..8] == Pad(t.second, 2);
    assert r[9..12] == Pad(t.millisecond, 3);
    PadRoundTrip(t.hour, 2);
    PadRoundTrip(t.minute, 2);
    PadRoundTrip(t.second, 2);
    PadRoundTrip(t.millisecond, 3);
  }

  /** Every string that parses is the rendering of the time it parses to. */
  lemma ParseFormat(s: string, t: ClockTime)
    requires ParseTime(s) == Some(t)
    ensures FormatTime(t) == s
  {
    DigitsRoundTrip(s[0..2]);
    DigitsRoundTrip(s[3..5]);
    DigitsRoundTrip(s[6..8]);
    DigitsRoundTrip(s[9..12]);
    assert s == s[0..2] + ":" + s[3..5] + ":" + s[6..8] + "." + s[9..12];
  }

  /** Distinct times render to distinct timestamps. */
  lemma FormatInjective(t1: ClockTime, t2: ClockTime)
    requires FormatTime(t1) == FormatTime(t2)
    ensures t1 == t2
  {
    FormatParse(t1);
    FormatParse(t2);
  }
}
