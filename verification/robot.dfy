/**
 The robot's state machine: the once-per-second sync tick, the single-flight
 analysis cycle, trade settlement with the stop-loss breaker, and the
 operator's commands. Every timer callback of the component is an explicit
 event here; randomness, ids and timestamps arrive as event parameters.
 */
module Robot {
  import opened Wrappers
  import opened Scheduler
  import opened Countdown
  import opened Ledger

  /** The decision an analysis publishes: act on a side ('COMPRA'/'VENDA') or wait ('AGUARDAR'). */
  datatype Signal = Act(side: Side) | Aguardar

  /** A published analysis, reduced to the fields the robot's logic reads or records. */
  datatype Analysis = Analysis(signal: Signal, assertividade: int, timestamp: string)

  /** Losses in a row that trip the stop loss. */
  const StopLossThreshold: nat := 3

  /** The component's state; `streamAttached` stands for a live screen-capture stream. */
  datatype State = State(
    timeframe: Timeframe,
    streamAttached: bool,
    syncActive: bool,
    isAnalyzing: bool,
    isPaused: bool,
    consecutiveLosses: nat,
    countdown: string,
    currentAnalysis: Option<Analysis>,
    tradeHistory: seq<Trade>)

  /** An event's effect: the next state, and whether it started an analysis cycle. */
  datatype Transition = Transition(state: State, launched: bool)

  /** The state once the component is constructed and initialised: idle, with the seeded history. */
  function Boot(): (s: State)
    ensures s.timeframe == M1 && !s.streamAttached && s.currentAnalysis == None
    ensures !s.syncActive && !s.isAnalyzing && !s.isPaused && s.consecutiveLosses == 0
    ensures s.countdown == Stopped && WellFormedCountdown(s.countdown)
    ensures s.tradeHistory == SeedHistory && ComputeStats(s.tradeHistory) == Stats(2, 2, 0, 100.0)
  {
    StatsExamples();
    State(M1, false, false, false, false, 0, Stopped, None, SeedHistory)
  }

  // ---------------------------------------------------------------------
  // Analysis cycle
  // ---------------------------------------------------------------------

  /**
   Start of `executeAnalysisSequence`: a request while a cycle is in flight is
   dropped; otherwise the robot becomes busy and a cycle starts.
   */
  function StartAnalysis(s: State): (t: Transition)
    ensures t.state.isAnalyzing
    ensures t.launched <==> !s.isAnalyzing
    ensures t.state == s.(isAnalyzing := true)
  {
    if s.isAnalyzing then Transition(s, false) else Transition(s.(isAnalyzing := true), true)
  }

  /**
   Completion of the cycle: the analysis is published, an actionable signal
   opens a PENDING trade with the given id and timestamp, and the busy flag
   clears in every case.
   */
  function CompleteAnalysis(s: State, a: Analysis, id: string, timestamp: string): (r: State)
    ensures !r.isAnalyzing && r.currentAnalysis == Some(a)
    ensures a.signal == Aguardar ==> r.tradeHistory == s.tradeHistory
    ensures a.signal.Act? ==> (&& |r.tradeHistory| == |s.tradeHistory| + 1
                               && r.tradeHistory[0] == Trade(id, timestamp, a.signal.side, a.assertividade, Pending, 0)
                               && r.tradeHistory[1..] == s.tradeHistory)
    ensures r == s.(isAnalyzing := false, currentAnalysis := Some(a), tradeHistory := r.tradeHistory)
  {
    var history := match a.signal
      case Aguardar => s.tradeHistory
      case Act(side) => Open(s.tradeHistory, id, timestamp, side, a.assertividade);
    s.(currentAnalysis := Some(a), tradeHistory := history, isAnalyzing := false)
  }

  // ---------------------------------------------------------------------
  // Settlement and the stop loss
  // ---------------------------------------------------------------------

  /**
   The resolution callback: settles the records with the id, then counts a
   loss (tripping the breaker at three in a row, which pauses the robot and
   switches it off) or clears the count on a win.
   */
  function ResolveTrade(s: State, id: string, isWin: bool): (r: State)
    ensures r.tradeHistory == Resolve(s.tradeHistory, id, isWin)
    ensures isWin ==> r.consecutiveLosses == 0 && r.isPaused == s.isPaused && r.syncActive == s.syncActive
    ensures !isWin ==> r.consecutiveLosses == s.consecutiveLosses + 1
    ensures !isWin && r.consecutiveLosses >= StopLossThreshold ==> r.isPaused && !r.syncActive
    ensures !isWin && r.consecutiveLosses < StopLossThreshold ==> r.isPaused == s.isPaused && r.syncActive == s.syncActive
    ensures r == s.(tradeHistory := r.tradeHistory, consecutiveLosses := r.consecutiveLosses,
                    isPaused := r.isPaused, syncActive := r.syncActive)
  {
    var settled := s.(tradeHistory := Resolve(s.tradeHistory, id, isWin));
    if isWin then
      settled.(consecutiveLosses := 0)
    else
      var losses := s.consecutiveLosses + 1;
      if losses >= StopLossThreshold then
        settled.(consecutiveLosses := losses, isPaused := true, syncActive := false)
      else
        settled.(consecutiveLosses := losses)
  }

  // ---------------------------------------------------------------------
  // The sync tick
  // ---------------------------------------------------------------------

  /** The tick does not look at the clock when the robot is off, has no screen, or is paused. */
  predicate TickGated(s: State)
  {
    !s.syncActive || !s.streamAttached || s.isPaused
  }

  /** Whether a tick at the given clock reading calls the analysis sequence. */
  predicate TickTriggers(s: State, m: Minute, sec: Second, ms: Milli)
  {
    !TickGated(s) && InTriggerWindow(NextTriggerDelay(s.timeframe, m, sec, ms))
  }

  /**
   One evaluation of the sync loop. A gated tick only shows a sentinel. An
   ungated tick shows the time to the next T-10s point as `mm:ss` and calls
   the analysis sequence when that point is at most one second away (and not
   exactly now).
   */
  function Tick(s: State, m: Minute, sec: Second, ms: Milli): (t: Transition)
    ensures TickGated(s) ==> !t.launched && t.state == s.(countdown := if s.syncActive then Syncing else Stopped)
    ensures !TickGated(s) ==> ParseCountdown(t.state.countdown) == Some(NextTriggerDelay(s.timeframe, m, sec, ms) / 1000)
    ensures !TickGated(s) ==> IsClockString(t.state.countdown) && ClockSeconds(t.state.countdown) < PeriodTicks(s.timeframe)
    ensures t.launched <==> TickTriggers(s, m, sec, ms) && !s.isAnalyzing
    ensures t.state == s.(countdown := t.state.countdown, isAnalyzing := s.isAnalyzing || t.launched)
  {
    if TickGated(s) then
      Transition(s.(countdown := if s.syncActive then Syncing else Stopped), false)
    else
      var delay := NextTriggerDelay(s.timeframe, m, sec, ms);
      ParseFormatted(delay);
      FormattedIsClockString(delay);
      DelaySecondsBelowPeriod(s.timeframe, m, sec, ms);
      var shown := s.(countdown := FormatCountdown(delay));
      if InTriggerWindow(delay) then StartAnalysis(shown) else Transition(shown, false)
  }

  // ---------------------------------------------------------------------
  // Operator commands
  // ---------------------------------------------------------------------

  /** Screen sharing granted attaches a stream; refused, nothing changes. */
  function StartCapture(s: State, granted: bool): (r: State)
    ensures granted ==> r.streamAttached && r == s.(streamAttached := true)
    ensures !granted ==> r == s
  {
    if granted then s.(streamAttached := true) else s
  }

  /** Stopping the capture detaches the stream and switches the robot off; without a stream nothing changes. */
  function StopCapture(s: State): (r: State)
    ensures !r.streamAttached
    ensures s.streamAttached ==> (&& !r.syncActive && r.countdown == Stopped
                                  && r == s.(streamAttached := false, syncActive := false, countdown := Stopped))
    ensures !s.streamAttached ==> r == s
  {
    if s.streamAttached then s.(streamAttached := false, syncActive := false, countdown := Stopped) else s
  }

  /** The on/off switch flips the robot only when a screen is attached; it does not look at the pause. */
  function ToggleSync(s: State): (r: State)
    ensures !s.streamAttached ==> r == s
    ensures s.streamAttached ==> r.syncActive != s.syncActive && r == s.(syncActive := r.syncActive)
  {
    if !s.streamAttached then s else s.(syncActive := !s.syncActive)
  }

  /** A manual request runs the analysis sequence when a screen is attached, paused or not. */
  function ManualAnalysis(s: State): (t: Transition)
    ensures t.launched <==> s.streamAttached && !s.isAnalyzing
    ensures !s.streamAttached ==> t.state == s
    ensures s.streamAttached ==> t.state == s.(isAnalyzing := true)
  {
    if !s.streamAttached then Transition(s, false) else StartAnalysis(s)
  }

  /**
   Selecting a timeframe switches an active robot off; its re-activation 100 ms
   later is the separate event `ReactivateSync`.
   */
  function ToggleTimeframe(s: State, tf: Timeframe): (r: State)
    ensures r.timeframe == tf && !r.syncActive
    ensures r == s.(timeframe := tf, syncActive := false)
  {
    var chosen := s.(timeframe := tf);
    if s.syncActive then chosen.(syncActive := false) else chosen
  }

  /** The deferred re-activation after a timeframe change; it sets the robot on unconditionally. */
  function ReactivateSync(s: State): (r: State)
    ensures r.syncActive && r == s.(syncActive := true)
  {
    s.(syncActive := true)
  }

  /** The operator's reset clears the breaker and the loss count and leaves the robot off. */
  function ResetSystem(s: State): (r: State)
    ensures !r.isPaused && r.consecutiveLosses == 0 && !r.syncActive
    ensures r == s.(isPaused := false, consecutiveLosses := 0, syncActive := false)
  {
    s.(isPaused := false, consecutiveLosses := 0, syncActive := false)
  }

  // ---------------------------------------------------------------------
  // Events
  // ---------------------------------------------------------------------

  /** Everything that can happen to the component: timer callbacks and operator commands. */
  datatype Event =
    | ClockTick(minute: Minute, second: Second, milli: Milli)
    | CaptureStarted(granted: bool)
    | CaptureStopped
    | SyncToggled
    | ManualRequested
    | TimeframeSelected(tf: Timeframe)
    | SyncReactivated
    | AnalysisCompleted(analysis: Analysis, id: string, timestamp: string)
    | TradeResolved(tradeId: string, isWin: bool)
    | SystemReset

  /** Dispatches one event to the transition of the callback or command it stands for. */
  function Step(s: State, e: Event): Transition
  {
    match e
    case ClockTick(m, sec, ms) => Tick(s, m, sec, ms)
    case CaptureStarted(granted) => Transition(StartCapture(s, granted), false)
    case CaptureStopped => Transition(StopCapture(s), false)
    case SyncToggled => Transition(ToggleSync(s), false)
    case ManualRequested => ManualAnalysis(s)
    case TimeframeSelected(tf) => Transition(ToggleTimeframe(s, tf), false)
    case SyncReactivated => Transition(ReactivateSync(s), false)
    case AnalysisCompleted(a, id, timestamp) => Transition(CompleteAnalysis(s, a, id, timestamp), false)
    case TradeResolved(id, isWin) => Transition(ResolveTrade(s, id, isWin), false)
    case SystemReset => Transition(ResetSystem(s), false)
  }

  /** The countdown always shows a sentinel or a well-formed `mm:ss`. */
  lemma StepKeepsCountdownWellFormed(s: State, e: Event)
    ensures WellFormedCountdown(s.countdown) ==> WellFormedCountdown(Step(s, e).state.countdown)
  {
  }

  /** Only the stop loss pauses the robot, and it switches the robot off as it does. */
  lemma PauseOnlyByStopLoss(s: State, e: Event)
    requires !s.isPaused && Step(s, e).state.isPaused
    ensures e.TradeResolved? && !e.isWin
    ensures Step(s, e).state.consecutiveLosses >= StopLossThreshold && !Step(s, e).state.syncActive
  {
  }

  /** Only the operator's reset lifts a pause. */
  lemma PauseClearedOnlyByReset(s: State, e: Event)
    requires s.isPaused && !Step(s, e).state.isPaused
    ensures e.SystemReset?
  {
  }

  /** A cycle starts only from an idle robot, by a manual request or by an ungated tick; a paused robot's ticks never start one. */
  lemma LaunchOnlyWhenIdle(s: State, e: Event)
    requires Step(s, e).launched
    ensures !s.isAnalyzing && Step(s, e).state.isAnalyzing
    ensures e.ManualRequested? || (e.ClockTick? && !s.isPaused && s.syncActive && s.streamAttached)
  {
  }

  /** Only a completion clears the busy flag. */
  lemma BusyClearedOnlyByCompletion(s: State, e: Event)
    requires s.isAnalyzing && !Step(s, e).state.isAnalyzing
    ensures e.AnalysisCompleted?
  {
  }

  /** One event's effect on the busy flag: a start sets it, a completion of a busy cycle clears it, nothing else moves it. */
  lemma StepBusyAccounting(s: State, e: Event)
    ensures (if Step(s, e).launched then 1 else 0) + (if s.isAnalyzing then 1 else 0)
            == (if e.AnalysisCompleted? && s.isAnalyzing then 1 else 0) + (if Step(s, e).state.isAnalyzing then 1 else 0)
  {
  }

  /** The history grows by exactly one record per actionable completion and by nothing else; no event shrinks it. */
  lemma HistoryGrowth(s: State, e: Event)
    ensures |Step(s, e).state.tradeHistory|
            == |s.tradeHistory| + (if e.AnalysisCompleted? && e.analysis.signal.Act? then 1 else 0)
  {
  }

  /**
   After a timeframe change the re-activation restores an active robot with
   only its timeframe changed; a tick that falls in between is gated and
   starts nothing.
   */
  lemma TimeframeChangeRestoresSync(s: State, tf: Timeframe, m: Minute, sec: Second, ms: Milli)
    requires s.syncActive
    ensures ReactivateSync(ToggleTimeframe(s, tf)) == s.(timeframe := tf)
    ensures !Tick(ToggleTimeframe(s, tf), m, sec, ms).launched
  {
  }

  /**
   A reset within 100 ms of a timeframe change is undone by the pending
   re-activation: a robot that was paused and switched on ends switched on,
   unpaused and ungated, and fires at the next trigger point without the
   operator switching it on again.
   */
  lemma ResetUndoneByPendingReactivation(s: State, tf: Timeframe, m: Minute, sec: Second, ms: Milli)
    requires s.syncActive && s.isPaused && s.streamAttached && !s.isAnalyzing
    ensures var r := ReactivateSync(ResetSystem(ToggleTimeframe(s, tf)));
            && r.syncActive && !r.isPaused && !TickGated(r)
            && (InTriggerWindow(NextTriggerDelay(tf, m, sec, ms)) ==> Tick(r, m, sec, ms).launched)
  {
  }

  // ---------------------------------------------------------------------
  // Runs of events
  // ---------------------------------------------------------------------

  /** The final state of a run, how many cycles it started, and how many completions found the robot busy. */
  datatype RunResult = RunResult(final: State, launches: nat, busyCompletions: nat)

  /**
   Applies events in order. Single flight over the whole run: every started
   cycle is matched by a completion, except at most one still in flight, and
   the countdown stays well-formed throughout.
   */
  function Run(s: State, events: seq<Event>): (r: RunResult)
    ensures r.launches + (if s.isAnalyzing then 1 else 0) == r.busyCompletions + (if r.final.isAnalyzing then 1 else 0)
    ensures r.launches <= r.busyCompletions + 1
    ensures WellFormedCountdown(s.countdown) ==> WellFormedCountdown(r.final.countdown)
    decreases |events|
  {
    if |events| == 0 then RunResult(s, 0, 0)
    else
      var e := events[0];
      var t := Step(s, e);
      var rest := Run(t.state, events[1..]);
      var completedBusy := e.AnalysisCompleted? && s.isAnalyzing;
      StepBusyAccounting(s, e);
      StepKeepsCountdownWellFormed(s, e);
      RunResult(rest.final,
                rest.launches + (if t.launched then 1 else 0),
                rest.busyCompletions + (if completedBusy then 1 else 0))
  }

  /** Two requests in quick succession, with no completion between them, start exactly one cycle from an idle robot. */
  lemma RapidRequestsLaunchOnce(s: State)
    requires s.streamAttached && !s.isAnalyzing
    ensures Run(s, [ManualRequested, ManualRequested]).launches == 1
  {
    var t := Step(s, ManualRequested);
    assert [ManualRequested, ManualRequested][1..] == [ManualRequested];
    assert Run(t.state, [ManualRequested]).launches == 0;
  }

  // ---------------------------------------------------------------------
  // Runs of settlements and the stop loss
  // ---------------------------------------------------------------------

  /** One resolution callback: the trade id it captured and the drawn outcome. */
  datatype Settlement = Settlement(id: string, isWin: bool)

  function ApplySettlements(s: State, rs: seq<Settlement>): State
    decreases |rs|
  {
    if |rs| == 0 then s else ApplySettlements(ResolveTrade(s, rs[0].id, rs[0].isWin), rs[1..])
  }

  /** Three losses in a row somewhere in the run. */
  predicate HasLossRun(rs: seq<Settlement>)
  {
    exists i :: 0 <= i && i + 2 < |rs| && !rs[i].isWin && !rs[i + 1].isWin && !rs[i + 2].isWin
  }

  /** Losses before the first win of the run. */
  function LeadingLosses(rs: seq<Settlement>): nat
  {
    if |rs| == 0 || rs[0].isWin then 0 else 1 + LeadingLosses(rs[1..])
  }

  /** Losses after the last win of the run. */
  function TrailingLosses(rs: seq<Settlement>): nat
  {
    if |rs| == 0 || rs[|rs| - 1].isWin then 0 else 1 + TrailingLosses(rs[..|rs| - 1])
  }

  /** A run opening with at least two losses has losses at its first two positions, and conversely. */
  lemma LeadingTwo(rs: seq<Settlement>)
    ensures LeadingLosses(rs) >= 2 <==> |rs| >= 2 && !rs[0].isWin && !rs[1].isWin
  {
    if |rs| >= 1 && !rs[0].isWin {
      assert LeadingLosses(rs) == 1 + LeadingLosses(rs[1..]);
      if |rs| >= 2 {
        assert rs[1..][0] == rs[1];
      }
    }
  }

  /** A run of three losses in the tail is still one after prepending. */
  lemma LossRunShifts(r: Settlement, rs: seq<Settlement>)
    requires HasLossRun(rs)
    ensures HasLossRun([r] + rs)
  {
    var xs := [r] + rs;
    var i :| 0 <= i && i + 2 < |rs| && !rs[i].isWin && !rs[i + 1].isWin && !rs[i + 2].isWin;
    assert xs[i + 1] == rs[i] && xs[i + 2] == rs[i + 1] && xs[i + 3] == rs[i + 2];
  }

  /** A run of three losses after prepending lies in the tail or starts at the new head. */
  lemma LossRunOfConsSplits(r: Settlement, rs: seq<Settlement>)
    requires HasLossRun([r] + rs)
    ensures HasLossRun(rs) || (|rs| >= 2 && !r.isWin && !rs[0].isWin && !rs[1].isWin)
  {
    var xs := [r] + rs;
    var i :| 0 <= i && i + 2 < |xs| && !xs[i].isWin && !xs[i + 1].isWin && !xs[i + 2].isWin;
    if i == 0 {
      assert xs[0] == r && rs[0] == xs[1] && rs[1] == xs[2];
    } else {
      assert rs[i - 1] == xs[i] && rs[i] == xs[i + 1] && rs[i + 1] == xs[i + 2];
    }
  }

  /** Prepending one settlement adds a run of three losses only at the front. */
  lemma LossRunOfCons(r: Settlement, rs: seq<Settlement>)
    ensures HasLossRun([r] + rs) <==> HasLossRun(rs) || (!r.isWin && LeadingLosses(rs) >= 2)
  {
    var xs := [r] + rs;
    LeadingTwo(rs);
    if HasLossRun(rs) {
      LossRunShifts(r, rs);
    }
    if !r.isWin && LeadingLosses(rs) >= 2 {
      assert xs[0] == r && xs[1] == rs[0] && xs[2] == rs[1];
      assert HasLossRun(xs);
    }
    if HasLossRun(xs) {
      LossRunOfConsSplits(r, rs);
    }
  }

  /** A run that opens with three losses contains a run of three losses. */
  lemma LeadingThreeIsLossRun(rs: seq<Settlement>)
    requires LeadingLosses(rs) >= 3
    ensures HasLossRun(rs)
  {
    LeadingTwo(rs);
    assert LeadingLosses(rs) == 1 + LeadingLosses(rs[1..]);
    LeadingTwo(rs[1..]);
    assert rs[1..][1] == rs[2];
  }

  /**
   The breaker's verdict over a run of settlements: the robot ends paused
   exactly when it was paused already, or three losses came in a row, or the
   losses the run opens with complete a streak that was already under way.
   */
  lemma {:induction false} StopLossTrips(s: State, rs: seq<Settlement>)
    ensures ApplySettlements(s, rs).isPaused
            <==> (|| s.isPaused
                  || HasLossRun(rs)
                  || (LeadingLosses(rs) > 0 && s.consecutiveLosses + LeadingLosses(rs) >= StopLossThreshold))
    decreases |rs|
  {
    if |rs| > 0 {
      var r, tail := rs[0], rs[1..];
      assert [r] + tail == rs;
      var next := ResolveTrade(s, r.id, r.isWin);
      StopLossTrips(next, tail);
      LossRunOfCons(r, tail);
      LeadingTwo(tail);
      if r.isWin {
        if LeadingLosses(tail) >= 3 {
          LeadingThreeIsLossRun(tail);
        }
      } else {
        assert LeadingLosses(rs) == 1 + LeadingLosses(tail);
      }
    }
  }

  /** Prepending one settlement to a run leaves its trailing losses alone unless the run is all losses. */
  lemma {:induction false} TrailingOfCons(r: Settlement, rs: seq<Settlement>)
    ensures TrailingLosses(rs) <= |rs|
    ensures TrailingLosses([r] + rs)
            == if TrailingLosses(rs) < |rs| then TrailingLosses(rs)
               else if r.isWin then |rs| else 1 + |rs|
    decreases |rs|
  {
    var xs := [r] + rs;
    if |rs| > 0 {
      TrailingOfCons(r, rs[..|rs| - 1]);
      assert xs[..|xs| - 1] == [r] + rs[..|rs| - 1];
    } else {
      assert xs[..0] == [];
    }
  }

  /** The loss counter after a run: the losses since the last win, or the old count plus the run if it held no win. */
  lemma {:induction false} LossCounterAfterRun(s: State, rs: seq<Settlement>)
    ensures ApplySettlements(s, rs).consecutiveLosses
            == if TrailingLosses(rs) == |rs| then s.consecutiveLosses + |rs| else TrailingLosses(rs)
    decreases |rs|
  {
    if |rs| > 0 {
      var next := ResolveTrade(s, rs[0].id, rs[0].isWin);
      LossCounterAfterRun(next, rs[1..]);
      TrailingOfCons(rs[0], rs[1..]);
      assert [rs[0]] + rs[1..] == rs;
    } else {
      assert TrailingLosses(rs) == 0;
    }
  }

  /** Loss, loss, win, loss, loss from a fresh start never trips the breaker; three losses do. */
  lemma StopLossExamples(a: string, b: string, c: string, d: string, e: string)
    ensures !ApplySettlements(Boot(), [Settlement(a, false), Settlement(b, false), Settlement(c, true),
                                        Settlement(d, false), Settlement(e, false)]).isPaused
    ensures var tripped := ApplySettlements(Boot(), [Settlement(a, false), Settlement(b, false), Settlement(c, false)]);
            tripped.isPaused && !tripped.syncActive
  {
    var rs := [Settlement(a, false), Settlement(b, false), Settlement(c, true), Settlement(d, false), Settlement(e, false)];
    StopLossTrips(Boot(), rs);
    assert rs[1..][1..] == rs[2..] && rs[2..][0] == rs[2];
    assert LeadingLosses(rs[2..]) == 0;
    assert LeadingLosses(rs) == 2;
    assert !HasLossRun(rs) by {
      forall i | 0 <= i && i + 2 < |rs|
        ensures rs[i].isWin || rs[i + 1].isWin || rs[i + 2].isWin
      {
      }
    }
    var three := [Settlement(a, false), Settlement(b, false), Settlement(c, false)];
    StopLossTrips(Boot(), three);
    assert !three[0].isWin && !three[1].isWin && !three[2].isWin;
    SettlementsNeverSwitchOn(Boot(), three);
  }

  /** Settlements never switch the robot on, and a robot they pause is left switched off. */
  lemma {:induction false} SettlementsNeverSwitchOn(s: State, rs: seq<Settlement>)
    ensures ApplySettlements(s, rs).syncActive ==> s.syncActive
    ensures ApplySettlements(s, rs).isPaused && !s.isPaused ==> !ApplySettlements(s, rs).syncActive
    decreases |rs|
  {
    if |rs| > 0 {
      SettlementsNeverSwitchOn(ResolveTrade(s, rs[0].id, rs[0].isWin), rs[1..]);
    }
  }
}
