/**
 The T-10s trigger scheduler: given the selected candle timeframe and the
 wall-clock reading, how many milliseconds remain until the point 10 seconds
 before the current candle closes, and whether a one-second tick fires the
 analysis. The clock is an input; nothing here reads a real timer.
 */
module Scheduler {
  import opened Arith

  /** The candle timeframes the operator can select ('1M', '5M', '15M'). */
  datatype Timeframe = M1 | M5 | M15

  /** Readings of the local wall clock, as the clock's getters return them. */
  type Minute = m: int | 0 <= m < 60
  type Second = s: int | 0 <= s < 60
  type Milli = ms: int | 0 <= ms < 1000

  /** The analysis is aimed this many milliseconds before the candle closes. */
  const PreAnalysisBuffer: int := 10000

  /** The sync loop is evaluated once per this many milliseconds. */
  const TickMs: int := 1000

  /** Length of one candle in minutes. */
  function CandleMinutes(tf: Timeframe): int
  {
    match tf
    case M1 => 1
    case M5 => 5
    case M15 => 15
  }

  /** Length of one candle in whole seconds (one tick each). */
  function PeriodTicks(tf: Timeframe): int
  {
    match tf
    case M1 => 60
    case M5 => 300
    case M15 => 900
  }

  /** Length of one candle in milliseconds (the source's `intervalMs`). */
  function Period(tf: Timeframe): int
  {
    TickMs * PeriodTicks(tf)
  }

  /**
   Milliseconds elapsed since the current candle opened. Candles are aligned
   to the hour, so this is the reference against which the source's
   per-timeframe arithmetic is stated.
   */
  function ElapsedInCandle(tf: Timeframe, m: Minute, s: Second, ms: Milli): int
  {
    (m % CandleMinutes(tf)) * 60000 + s * 1000 + ms
  }

  /** Milliseconds until the current candle closes (the source's `timeToNextTop`). */
  function TimeToNextTop(tf: Timeframe, m: Minute, s: Second, ms: Milli): (r: int)
    ensures 1 <= r <= Period(tf)
    ensures r == Period(tf) - ElapsedInCandle(tf, m, s, ms)
  {
    match tf
    case M1 => (60 - s) * 1000 - ms
    case M5 => ((5 - m % 5) * 60 - s) * 1000 - ms
    case M15 => ((15 - m % 15) * 60 - s) * 1000 - ms
  }

  /**
   Milliseconds until the next T-10s point (the source's `getNextTriggerTime`).
   Once the clock is inside the last 10 seconds of a candle, the target moves
   to the next candle by adding one period.
   */
  function NextTriggerDelay(tf: Timeframe, m: Minute, s: Second, ms: Milli): (r: int)
    ensures 0 <= r < Period(tf)
    ensures r == (Period(tf) - PreAnalysisBuffer - ElapsedInCandle(tf, m, s, ms)) % Period(tf)
  {
    var triggerDelay := TimeToNextTop(tf, m, s, ms) - PreAnalysisBuffer;
    if triggerDelay < 0 then
      DivModUnique(triggerDelay, Period(tf), -1, triggerDelay + Period(tf));
      triggerDelay + Period(tf)
    else
      DivModUnique(triggerDelay, Period(tf), 0, triggerDelay);
      triggerDelay
  }

  /** The whole seconds left before the trigger stay below one period's worth of ticks (under 15 minutes at most). */
  lemma DelaySecondsBelowPeriod(tf: Timeframe, m: Minute, s: Second, ms: Milli)
    ensures 0 <= NextTriggerDelay(tf, m, s, ms) / TickMs < PeriodTicks(tf) <= 900
  {
    var d := NextTriggerDelay(tf, m, s, ms);
    DivModUnique(d, TickMs, d / TickMs, d % TickMs);
  }

  /** A tick fires the analysis when the delay lies in (0, 1000]: the exact T-10s point is excluded. */
  predicate InTriggerWindow(delay: int)
  {
    0 < delay <= TickMs
  }

  /**
   One period is added to the time before the close minus 10 seconds exactly
   when the clock is already inside the candle's last 10 seconds, so the
   target moves on to the next candle.
   */
  lemma DelayFormula(tf: Timeframe, m: Minute, s: Second, ms: Milli)
    ensures NextTriggerDelay(tf, m, s, ms)
            == TimeToNextTop(tf, m, s, ms) - PreAnalysisBuffer
               + (if ElapsedInCandle(tf, m, s, ms) > Period(tf) - PreAnalysisBuffer then Period(tf) else 0)
  {
  }

  /** Ten seconds before a one-minute close the delay is zero; five seconds before, it wraps to 55 s. */
  lemma OneMinuteExamples()
    ensures NextTriggerDelay(M1, 0, 50, 0) == 0
    ensures NextTriggerDelay(M1, 0, 55, 0) == 55000
    ensures NextTriggerDelay(M5, 4, 50, 0) == 0
    ensures NextTriggerDelay(M15, 7, 30, 250) == 439750
  {
  }

  /** The trigger window is exactly the one second of the candle that precedes its last ten seconds. */
  lemma TriggerWindowInCandle(tf: Timeframe, m: Minute, s: Second, ms: Milli)
    ensures InTriggerWindow(NextTriggerDelay(tf, m, s, ms))
            <==> Period(tf) - PreAnalysisBuffer - TickMs <= ElapsedInCandle(tf, m, s, ms) < Period(tf) - PreAnalysisBuffer
  {
  }

  // ---------------------------------------------------------------------
  // The clock as a single number: milliseconds since local midnight.
  // ---------------------------------------------------------------------

  function MinuteOf(t: nat): Minute
  {
    (t / 1000 / 60) % 60
  }

  function SecondOf(t: nat): Second
  {
    (t / 1000) % 60
  }

  function MilliOf(t: nat): Milli
  {
    t % 1000
  }

  /** Whether the sync loop, evaluated at time `t`, invokes the analysis. */
  predicate FiresAt(tf: Timeframe, t: nat)
  {
    InTriggerWindow(NextTriggerDelay(tf, MinuteOf(t), SecondOf(t), MilliOf(t)))
  }

  /** The `k`-th tick of a loop whose first tick comes at `t0`. */
  function TickTime(t0: nat, k: nat): nat
  {
    t0 + TickMs * k
  }

  /** Since candles divide the hour, the time elapsed in a candle is the clock modulo the period. */
  lemma ElapsedIsClockModPeriod(tf: Timeframe, t: nat)
    ensures ElapsedInCandle(tf, MinuteOf(t), SecondOf(t), MilliOf(t)) == t % Period(tf)
  {
    var k := CandleMinutes(tf);
    var a := t / 1000;
    var b := a / 60;
    assert t == a * 1000 + MilliOf(t);
    assert a == b * 60 + SecondOf(t);
    ModOfModMultiple(b, k, 60 / k);
    assert MinuteOf(t) % k == b % k;
    assert b == (b / k) * k + b % k;
    var e := ElapsedInCandle(tf, MinuteOf(t), SecondOf(t), MilliOf(t));
    assert t == (b / k) * Period(tf) + e;
    DivModUnique(t, Period(tf), b / k, e);
  }

  /** A tick fires exactly when its whole-second count sits 11 seconds before the end of a period. */
  lemma FiresAtSecond(tf: Timeframe, t: nat)
    ensures FiresAt(tf, t) <==> (t / TickMs) % PeriodTicks(tf) == PeriodTicks(tf) - 11
  {
    var p := PeriodTicks(tf);
    ElapsedIsClockModPeriod(tf, t);
    TriggerWindowInCandle(tf, MinuteOf(t), SecondOf(t), MilliOf(t));
    ModSplitThousand(t, p);
  }

  /** The `k`-th tick fires exactly when the whole-second count of the first tick, plus `k`, sits 11 seconds before the end of a period. */
  lemma FiresAtTick(tf: Timeframe, t0: nat, k: nat)
    ensures FiresAt(tf, TickTime(t0, k)) <==> (t0 / TickMs + k) % PeriodTicks(tf) == PeriodTicks(tf) - 11
  {
    DivModUnique(TickTime(t0, k), TickMs, t0 / TickMs + k, t0 % TickMs);
    FiresAtSecond(tf, TickTime(t0, k));
  }

  /** Index, among the ticks of one period starting at `t0`, of the tick that fires. */
  function FiringTick(tf: Timeframe, t0: nat): nat
  {
    var p := PeriodTicks(tf);
    (p - 11 - t0 / TickMs) % p
  }

  /**
   Under uninterrupted one-second ticking, whatever the phase of the loop,
   exactly one tick in every stretch of one period fires the analysis: at
   most one trigger per candle, and never none.
   */
  lemma OneTriggerPerPeriod(tf: Timeframe, t0: nat)
    ensures FiringTick(tf, t0) < PeriodTicks(tf)
    ensures FiresAt(tf, TickTime(t0, FiringTick(tf, t0)))
    ensures forall k: nat :: k < PeriodTicks(tf) && FiresAt(tf, TickTime(t0, k)) ==> k == FiringTick(tf, t0)
  {
    var p := PeriodTicks(tf);
    var n0 := t0 / TickMs;
    ShiftHitsResidue(n0, p, p - 11);
    FiresAtTick(tf, t0, FiringTick(tf, t0));
    forall k: nat | k < p && FiresAt(tf, TickTime(t0, k))
      ensures k == FiringTick(tf, t0)
    {
      FiresAtTick(tf, t0, k);
      ShiftToResidueUnique(n0, p, p - 11, k);
    }
  }

  /** A tick that arrives late can miss a candle's window: these two ticks, 1001 ms apart, both leave the one-minute trigger unfired. */
  lemma LateTickSkipsWindow()
    ensures !FiresAt(M1, 48999) && !FiresAt(M1, 48999 + 1001)
  {
    assert MinuteOf(48999) == 0 && SecondOf(48999) == 48 && MilliOf(48999) == 999;
    assert NextTriggerDelay(M1, 0, 48, 999) == 1001;
    assert MinuteOf(50000) == 0 && SecondOf(50000) == 50 && MilliOf(50000) == 0;
    assert NextTriggerDelay(M1, 0, 50, 0) == 0;
  }
}
