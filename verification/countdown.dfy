/**
 The countdown shown by the sync loop: either a sentinel ("PARADO" while the
 robot is off, "SINC..." while it is on but cannot run) or the time left until
 the next trigger as `mm:ss`, each field left-padded with '0' to two digits.
 */
module Countdown {
  import opened Wrappers
  import opened Arith

  /** Shown while the robot is switched off. */
  const Stopped: string := "PARADO"

  /** Shown while the robot is switched on but has no screen or is paused. */
  const Syncing: string := "SINC..."

  predicate IsDigit(c: char)
  {
    '0' <= c <= '9'
  }

  function DigitChar(d: int): (c: char)
    requires 0 <= d < 10
    ensures IsDigit(c)
  {
    (('0' as int) + d) as char
  }

  function DigitValue(c: char): (d: int)
    requires IsDigit(c)
    ensures 0 <= d < 10 && DigitChar(d) == c
  {
    c as int - '0' as int
  }

  predicate AllDigits(s: string)
  {
    forall i :: 0 <= i < |s| ==> IsDigit(s[i])
  }

  /** Decimal rendering of a natural number, without leading zeros (the number's `toString`). */
  function Decimal(n: nat): (r: string)
    ensures 1 <= |r| && AllDigits(r)
    ensures n < 10 <==> |r| == 1
  {
    if n < 10 then [DigitChar(n)] else Decimal(n / 10) + [DigitChar(n % 10)]
  }

  /** The number a string of decimal digits denotes. */
  function DecimalValue(s: string): nat
    requires AllDigits(s)
  {
    if |s| == 0 then 0 else 10 * DecimalValue(s[..|s| - 1]) + DigitValue(s[|s| - 1])
  }

  /** Reading back the decimal rendering of a number gives the number. */
  lemma {:induction false} DecimalRoundTrip(n: nat)
    ensures DecimalValue(Decimal(n)) == n
  {
    var r := Decimal(n);
    if n >= 10 {
      DecimalRoundTrip(n / 10);
      assert r[..|r| - 1] == Decimal(n / 10);
      assert DigitValue(r[|r| - 1]) == n % 10;
    }
  }

  /** Left padding with '0' up to width two (`padStart(2, '0')`); longer strings are kept. */
  function PadStart2(s: string): (r: string)
    ensures |s| >= 2 ==> r == s
    ensures |s| < 2 ==> |r| == 2 && r[2 - |s|..] == s && forall i :: 0 <= i < 2 - |s| ==> r[i] == '0'
  {
    if |s| >= 2 then s else seq(2 - |s|, _ => '0') + s
  }

  /** Below one hundred, padding the decimal rendering gives exactly the tens digit and the units digit. */
  lemma TwoDigitRendering(n: nat)
    requires n < 100
    ensures PadStart2(Decimal(n)) == [DigitChar(n / 10), DigitChar(n % 10)]
  {
    if n >= 10 {
      assert Decimal(n / 10) == [DigitChar(n / 10)];
    }
  }

  /** The shape `dd:dd` with a seconds field below 60. */
  predicate IsClockString(c: string)
  {
    && |c| == 5
    && IsDigit(c[0]) && IsDigit(c[1]) && c[2] == ':' && IsDigit(c[3]) && IsDigit(c[4])
    && DigitValue(c[3]) < 6
  }

  /** The number of whole seconds a clock string reads as. */
  function ClockSeconds(c: string): nat
    requires IsClockString(c)
  {
    (10 * DigitValue(c[0]) + DigitValue(c[1])) * 60 + 10 * DigitValue(c[3]) + DigitValue(c[4])
  }

  /** The countdown values the display can hold. */
  predicate WellFormedCountdown(c: string)
  {
    c == Stopped || c == Syncing || IsClockString(c)
  }

  /** The `mm:ss` rendering of a delay in milliseconds: minutes and seconds of the whole seconds left, each padded to two digits. */
  function FormatCountdown(delay: nat): string
  {
    var totalSeconds := delay / 1000;
    var min := totalSeconds / 60;
    var sec := totalSeconds % 60;
    PadStart2(Decimal(min)) + ":" + PadStart2(Decimal(sec))
  }

  /** Below 100 minutes the rendering has the exact shape `dd:dd` and reads as the whole seconds left. */
  lemma FormattedIsClockString(delay: nat)
    requires delay < 6000000
    ensures IsClockString(FormatCountdown(delay))
    ensures ClockSeconds(FormatCountdown(delay)) == delay / 1000
    ensures (delay / 1000) / 60 < 100 && (delay / 1000) % 60 < 60
  {
    TwoDigitRendering(delay / 1000 / 60);
    TwoDigitRendering(delay / 1000 % 60);
  }

  /** Reads a countdown back; sentinels and malformed strings give None. */
  function ParseCountdown(c: string): Option<nat>
  {
    if IsClockString(c) then Some(ClockSeconds(c)) else None
  }

  /** The sentinels are never mistaken for a countdown. */
  lemma SentinelsAreNotClockStrings()
    ensures ParseCountdown(Stopped) == None && ParseCountdown(Syncing) == None
    ensures Stopped != Syncing
  {
  }

  /** Formatting then parsing recovers the whole seconds left (all delays below 100 minutes). */
  lemma ParseFormatted(delay: nat)
    requires delay < 6000000
    ensures ParseCountdown(FormatCountdown(delay)) == Some(delay / 1000)
  {
    FormattedIsClockString(delay);
  }

  /** Every clock string is the rendering of the number of seconds it reads as: the other direction of the round trip. */
  lemma FormatParsed(c: string)
    requires IsClockString(c)
    ensures FormatCountdown(ClockSeconds(c) * 1000) == c
  {
    var m := 10 * DigitValue(c[0]) + DigitValue(c[1]);
    var s := 10 * DigitValue(c[3]) + DigitValue(c[4]);
    var v := ClockSeconds(c);
    DivModUnique(v * 1000, 1000, v, 0);
    DivModUnique(v, 60, m, s);
    DivModUnique(m, 10, DigitValue(c[0]), DigitValue(c[1]));
    DivModUnique(s, 10, DigitValue(c[3]), DigitValue(c[4]));
    TwoDigitRendering(m);
    TwoDigitRendering(s);
  }
}
