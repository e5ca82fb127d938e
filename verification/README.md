# Prisma IA robot core in Dafny

This project models the scheduling and bookkeeping logic of the Prisma IA
signal robot, an Angular component (`src/app.component.ts`). It covers:

- **The T-10s trigger.** A once-per-second sync loop works out how many
  milliseconds remain until 10 seconds before the current 1-, 5- or 15-minute
  candle closes. It shows that time as `mm:ss` and fires the analysis when the
  point is more than 0 and at most 1000 ms away.
- **The single-flight analysis cycle.** A request made while a cycle is in
  flight is dropped.
- **The trade history.** An actionable signal (`COMPRA`/`VENDA`, not
  `AGUARDAR`) opens a PENDING record at the head of the history. A later
  resolution settles it as WIN (+50) or LOSS (-50).
- **The derived statistics** over the settled records.
- **The stop loss.** Three losses in a row pause the robot and switch it off.
- **The operator's commands:** start/stop capture, robot on/off, manual
  analysis, timeframe selection and reset.

The component's state is an immutable `State` record, and each of its timer
callbacks and commands is a pure transition function. The clock reading, the
drawn signal, the drawn win/loss, trade ids and timestamps all arrive as event
parameters.

Files, one module each:

- `arith.dfy`: `Arith`. Uniqueness of Euclidean quotient and remainder, and a
  few facts that follow from it.
- `wrappers.dfy`: `Wrappers`. `Option`, standing in for `null`.
- `scheduler.dfy`: `Scheduler`. `getNextTriggerTime`, plus the firing window
  seen over a run of one-second ticks.
- `countdown.dfy`: `Countdown`. The `mm:ss` display and its read-back.
- `ledger.dfy`: `Ledger`. Trade records, opening, settlement and `stats`.
- `robot.dfy`: `Robot`. The state, the tick, the analysis cycle, settlement
  with the stop loss, the commands, the event step, and runs of events.

## Model

| member | source | states |
|---|---|---|
| Scheduler.TimeToNextTop | src/app.component.ts:236-252 | For every timeframe and clock reading, the time to the candle close is the period minus the time already elapsed in the hour-aligned candle, so it lies in [1, period] |
| Scheduler.NextTriggerDelay | src/app.component.ts:230-264 | The trigger delay always lies in [0, period): never negative and never a full period. It equals (period - 10000 - elapsed) taken modulo the period |
| Scheduler.DelayFormula | src/app.component.ts:254-263 | The delay is the time to the close less 10 seconds, and one period is added exactly when the clock is inside the candle's last 10 seconds, aiming at the next candle |
| Scheduler.OneMinuteExamples | src/app.component.ts:239-261 | 1M at :50.000 gives 0; 1M at :55.000 wraps to 55000; 5M at minute 4, :50 gives 0; a 15M reading gives the expected delay |
| Scheduler.DelaySecondsBelowPeriod | src/app.component.ts:213-217 | The whole seconds shown lie below one period's worth (60, 300 or 900), so the minutes field is under 15 |
| Scheduler.TriggerWindowInCandle | src/app.component.ts:221-222 | The window (0, 1000] is hit exactly when the clock is in the one second of the candle that comes just before its last 10 seconds. The exact T-10s instant is excluded |
| Scheduler.OneTriggerPerPeriod | src/app.component.ts:207-227 | Under uninterrupted one-second ticking with any phase, exactly one tick in each stretch of one period fires: never two for one candle, never none |
| Scheduler.LateTickSkipsWindow | src/app.component.ts:207-227 | Two ticks 1001 ms apart, at 48999 ms and 50000 ms past the hour, both miss the one-minute window: with late ticks a candle can go without a trigger |
| Countdown.Decimal | src/app.component.ts:219 | The `toString` of a natural number is a non-empty string of digits, one digit long exactly below 10; its value is stated by `DecimalRoundTrip` |
| Countdown.PadStart2 | src/app.component.ts:219 | `padStart(2, '0')` keeps a string of length 2 or more, and otherwise fills it with '0's on the left to length 2, keeping it as the suffix |
| Countdown.DecimalRoundTrip | src/app.component.ts:219 | Reading back the decimal rendering of a number gives the number |
| Countdown.TwoDigitRendering | src/app.component.ts:219 | Below 100, padStart(2, '0') of the decimal rendering is exactly the tens digit followed by the units digit |
| Countdown.FormatCountdown | src/app.component.ts:216-219 | The `mm:ss` display of a delay; it has no contract of its own, and its shape and value are stated by `FormattedIsClockString`, `ParseFormatted` and `FormatParsed` |
| Countdown.FormattedIsClockString | src/app.component.ts:216-219 | For delays below 100 minutes the display has the shape dd:dd. It reads as min*60 + sec == floor(delay/1000), with sec < 60 |
| Countdown.ParseFormatted | src/app.component.ts:216-219 | Parsing the formatted countdown recovers the whole seconds left |
| Countdown.FormatParsed | src/app.component.ts:216-219 | Every dd:dd string with a seconds field below 60 is the rendering of the seconds it reads as (the other direction of the round trip) |
| Countdown.SentinelsAreNotClockStrings | src/app.component.ts:209 | 'PARADO' and 'SINC...' differ from each other and never parse as a countdown |
| Ledger.Open | src/app.component.ts:324-332 | Opening puts a PENDING record with profit 0 at index 0 and keeps the old history, unchanged, as the tail |
| Ledger.Settle | src/app.component.ts:341 | A settled record keeps its id, timestamp, side and assertividade, is WIN exactly for a win and never PENDING, and carries +50 for a WIN and -50 for a LOSS |
| Ledger.Resolve | src/app.component.ts:339-344 | Settlement keeps length and order. Every record with the id becomes WIN/+50 or LOSS/-50 with its other fields kept; every other record is unchanged |
| Ledger.ResolveAbsent | src/app.component.ts:339-344 | Settling an id that no record carries leaves the history unchanged |
| Ledger.ResolveIdempotent | src/app.component.ts:339-344 | Settling the same id twice with the same draw equals settling it once |
| Ledger.ResolveCommutes | src/app.component.ts:335-344 | Settlements of different ids commute, so overlapping resolution timers give the same history in either order |
| Ledger.ResolveOpened | src/app.component.ts:324-358 | Settling the id of a freshly opened record, when no older record shares the id, settles only the head |
| Ledger.Completed | src/app.component.ts:82 | The completed records are records of the history, none of them PENDING, and every non-PENDING record of the history is among them; their counts are stated by `CompletedCounts` |
| Ledger.CompletedCounts | src/app.component.ts:82-84 | The non-PENDING records are exactly the WIN records plus the LOSS records, and with the PENDING ones they make up the history |
| Ledger.ComputeStats | src/app.component.ts:80-93 | total == wins + losses. winRate is 0 when total is 0, otherwise winRate * total == wins * 100. winRate stays in [0, 100] |
| Ledger.StatsCountRecords | src/app.component.ts:82-88 | PENDING records never count: total is the history length less its PENDING records, wins counts WIN records and losses counts LOSS records |
| Ledger.WinRate | src/app.component.ts:85 | The percentage is 0 with nothing settled, and otherwise scales back to the win count |
| Ledger.StatsIgnoreOrder | src/app.component.ts:80-93 | The statistics depend only on the multiset of results, not on the order of records |
| Ledger.StatsOfOpen | src/app.component.ts:80-93 | Opening a PENDING record changes no statistic |
| Ledger.StatsOfSettlement | src/app.component.ts:339-344 | Settling the one PENDING record with a given id adds one to total, and one to wins or to losses according to the draw |
| Ledger.StatsExamples | src/app.component.ts:361-366 | The seeded history of two WIN records gives total 2, wins 2, losses 0, rate 100; an empty history gives all zeros |
| Ledger.StatsTwoWinsOneLoss | src/app.component.ts:80-93 | Records WIN, WIN, LOSS give total 3, wins 2, losses 1, and a rate of two thirds of 100 |
| Robot.Boot | src/app.component.ts:62-77 | The start state is on the 1M timeframe, without a stream or an analysis, off, idle, unpaused, with zero losses, the 'PARADO' display and the two seeded trades (two wins, 100%) |
| Robot.StartAnalysis | src/app.component.ts:268-270 | A start while busy changes nothing and starts no cycle. From idle it starts exactly one cycle and only sets the busy flag |
| Robot.CompleteAnalysis | src/app.component.ts:279-288 | Completion always clears busy and publishes the analysis. AGUARDAR leaves the history as it was; COMPRA/VENDA prepends exactly one PENDING record. Nothing else changes |
| Robot.ResolveTrade | src/app.component.ts:335-356 | A WIN zeroes the loss count. A LOSS adds one; at 3 or more the robot is paused and switched off. Below that, pause and on/off are untouched. The history is settled by id |
| Robot.Tick | src/app.component.ts:207-225 | A gated tick (off, no stream or paused) shows 'SINC...' if on, otherwise 'PARADO', and starts nothing. Otherwise the display is a well-formed mm:ss reading floor(delay/1000) seconds, below one period. A cycle starts iff the tick is ungated, 0 < delay <= 1000 and the robot is idle |
| Robot.StartCapture | src/app.component.ts:142-166 | A granted screen share attaches the stream; a refusal changes nothing |
| Robot.StopCapture | src/app.component.ts:169-177 | With a stream, stopping detaches it, switches the robot off and shows 'PARADO'. Without a stream nothing changes |
| Robot.ToggleSync | src/app.component.ts:291-297 | Without a stream nothing changes; with one, only the on/off flag flips |
| Robot.ManualAnalysis | src/app.component.ts:299-305 | A manual request starts a cycle iff a stream is attached and the robot is idle, whether or not it is paused |
| Robot.ToggleTimeframe | src/app.component.ts:309-316 | Selecting a timeframe records it and leaves the robot off; nothing else changes |
| Robot.ReactivateSync | src/app.component.ts:314 | The deferred callback switches the robot on and changes nothing else |
| Robot.ResetSystem | src/app.component.ts:318-322 | Reset always yields unpaused, zero losses and robot off, whatever the prior state |
| Robot.Step | src/app.component.ts:142-356 | Dispatches each timer callback and operator command to its transition; it has no contract of its own, and its properties over all events are stated by `StepKeepsCountdownWellFormed`, `PauseOnlyByStopLoss`, `PauseClearedOnlyByReset`, `LaunchOnlyWhenIdle`, `BusyClearedOnlyByCompletion`, `StepBusyAccounting` and `HistoryGrowth` |
| Robot.StepKeepsCountdownWellFormed | src/app.component.ts:207-219 | Every event keeps the display one of 'PARADO', 'SINC...' or a well-formed mm:ss |
| Robot.PauseOnlyByStopLoss | src/app.component.ts:346-352 | Only a LOSS settlement that takes the count to 3 or more pauses the robot, and that settlement also switches it off |
| Robot.PauseClearedOnlyByReset | src/app.component.ts:318-322 | Only the operator's reset lifts a pause |
| Robot.LaunchOnlyWhenIdle | src/app.component.ts:268-270 | A cycle starts only from idle, and only by a manual request or by a tick of an active, unpaused robot with a stream |
| Robot.BusyClearedOnlyByCompletion | src/app.component.ts:279-288 | Only a completion clears the busy flag |
| Robot.StepBusyAccounting | src/app.component.ts:268-289 | For each event, a started cycle sets the busy flag and a completion of a busy cycle clears it; nothing else moves it |
| Robot.HistoryGrowth | src/app.component.ts:283-285 | Each event grows the history by exactly one record for an actionable completion and by nothing otherwise; no event shrinks it |
| Robot.TimeframeChangeRestoresSync | src/app.component.ts:309-316 | For an active robot, a timeframe change followed by the re-activation changes only the timeframe. A tick between the two starts nothing |
| Robot.ResetUndoneByPendingReactivation | src/app.component.ts:309-322 | A paused, switched-on robot with a stream whose timeframe changes and which is then reset before the 100 ms re-activation ends switched on, unpaused and ungated, and its next tick in the trigger window starts a cycle |
| Robot.Run | src/app.component.ts:268-289 | Over any run of events, cycles started equal busy completions, give or take the one in flight at either end. So at most one more start than completions, and the display stays well-formed |
| Robot.RapidRequestsLaunchOnce | src/app.component.ts:299-305 | Two back-to-back requests from an idle robot with a stream start exactly one cycle |
| Robot.StopLossTrips | src/app.component.ts:346-355 | After a run of settlements the robot is paused iff it was paused already, the run holds three losses in a row, or its opening losses complete a streak already under way |
| Robot.LossCounterAfterRun | src/app.component.ts:346-355 | After a run the loss count equals the losses since the run's last win, or the old count plus the run's length if every settlement was a loss |
| Robot.SettlementsNeverSwitchOn | src/app.component.ts:346-355 | Settlements never switch the robot on, and a robot they newly pause ends switched off |
| Robot.StopLossExamples | src/app.component.ts:346-355 | From the start state, LOSS, LOSS, WIN, LOSS, LOSS never pauses; LOSS, LOSS, LOSS pauses and switches off |

### Behaviour of the code worth knowing

- The trigger delay lies in [0, period) and is 0 exactly at the T-10s instant; a tick at that instant does not fire.
- `executeAnalysisSequence` never checks the stream, and it ignores the captured frame. There is no "no capture source" error. Before an analysis starts, the stream is checked only by `manualAnalysis` and by the tick's gate.
- The simulated decision never fails, so there is no decision-failure path. The busy flag is cleared on the one completion path there is.
- A pause lasts until reset, but `toggleSync` ignores `isPaused`, so a paused robot can be switched on again; its ticks stay gated and show 'SINC...'. `manualAnalysis` also ignores `isPaused`, so a paused robot can still run a manual cycle.
- Settlement rewrites every record whose id matches, whatever that record's current status. Nothing guarantees ids are unique (`Date.now()` strings), so a record is not guaranteed to settle only once.
- The loss count keeps growing past 3. Later losses re-trip the breaker; a later WIN zeroes the count but does not lift the pause.
- `toggleTimeframe` switches the robot off for 100 ms. A tick in that gap is gated, so the firing tick of a candle can be lost (`TimeframeChangeRestoresSync`).
- A reset within 100 ms of a timeframe change is undone by the pending re-activation: the robot ends switched on and unpaused, and fires again without the operator switching it on (`ResetUndoneByPendingReactivation`).
- Seeded trades carry profit 45, while settled trades carry +/-50.

## Left out

- Screen capture (`getDisplayMedia`, `captureFrame`'s canvas scaling and JPEG encoding, stopping media tracks). This is browser I/O. The stream is the boolean `streamAttached`, and a refused share is the `granted = false` case of `StartCapture`.
- `setInterval`/`setTimeout` and clearing them on destroy. The tick, the 1.5 s analysis completion, the 3 s trade resolution and the 100 ms re-activation are explicit events. Their delays are not modelled, so the model also allows events in orders the real timers would not produce. The one exception is the sync loop's one-second spacing, which `Scheduler.TickTime` fixes at exactly 1000 ms.
- Scheduler.OneTriggerPerPeriod: assumes ticks exactly 1000 ms apart; a tick arriving late can skip a candle's window (`Scheduler.LateTickSkipsWindow`: ticks at 48999 ms and 50000 ms past the hour both miss the one-minute window), and throttled background ticks are not modelled.
- `Math.random`. The signal kind and `assertividade` (`generateRandomScenario`) and the 80% win draw are event parameters.
- `Date.now()` ids, `toLocaleTimeString` timestamps and the `currentTime` clock display. Ids and timestamps are event parameters; the clock display is not modelled.
- Ledger.WinRate: states the rate as an exact rational, not as the one-decimal string from `toFixed(1)`, because that string comes from floating-point formatting.
- The fixed prompt text, the analysis's `reason`, `filters_status`, `next_candle_prediction`, `risk_level` and `notes` fields, `alert`/`console` output, Angular decorators, signals/`computed` plumbing, and CSS. None of them feeds the robot's logic.
- The local time zone and daylight saving behind the clock's minute, second and millisecond readings. These readings are inputs to the model.
