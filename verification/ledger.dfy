/**
 The trade history: acted-upon signals recorded most-recent-first, each opened
 PENDING and later settled as WIN (+50) or LOSS (-50), and the statistics
 derived from the settled records.
 */
module Ledger {

  /** The direction of an acted-upon signal. */
  datatype Side = Compra | Venda

  /** A record's status: open, or settled one way or the other. */
  datatype Outcome = Win | Loss | Pending

  /**
   One history record. The id and the timestamp come from the clock when the
   record is opened; nothing makes ids unique, so the model does not assume it.
   */
  datatype Trade = Trade(id: string, timestamp: string, side: Side, assertividade: int, result: Outcome, profit: int)

  /** Fixed profit of a settled trade, positive for a win and negative for a loss. */
  const TradeStake: int := 50

  /** The record a settlement turns `t` into. */
  function Settle(t: Trade, isWin: bool): (r: Trade)
    ensures r.id == t.id && r.timestamp == t.timestamp && r.side == t.side && r.assertividade == t.assertividade
    ensures (r.result == Win <==> isWin) && r.result != Pending
    ensures r.profit == (if r.result == Win then TradeStake else -TradeStake)
  {
    t.(result := if isWin then Win else Loss, profit := if isWin then TradeStake else -TradeStake)
  }

  /** Opens a PENDING record at the head of the history (`addTradeToHistory`). */
  function Open(history: seq<Trade>, id: string, timestamp: string, side: Side, assertividade: int): (r: seq<Trade>)
    ensures |r| == |history| + 1
    ensures r[0] == Trade(id, timestamp, side, assertividade, Pending, 0)
    ensures r[1..] == history
  {
    [Trade(id, timestamp, side, assertividade, Pending, 0)] + history
  }

  /**
   Settles every record whose id is `id` (the resolution callback's `map`),
   keeping the length, the order and every other record.
   */
  function Resolve(history: seq<Trade>, id: string, isWin: bool): (r: seq<Trade>)
    ensures |r| == |history|
    ensures forall i :: 0 <= i < |history| && history[i].id != id ==> r[i] == history[i]
    ensures forall i :: 0 <= i < |history| && history[i].id == id ==> r[i] == Settle(history[i], isWin)
  {
    if |history| == 0 then []
    else
      var head := if history[0].id == id then Settle(history[0], isWin) else history[0];
      [head] + Resolve(history[1..], id, isWin)
  }

  /** Settling an id twice with the same draw is the same as settling it once. */
  lemma ResolveIdempotent(history: seq<Trade>, id: string, isWin: bool)
    ensures Resolve(Resolve(history, id, isWin), id, isWin) == Resolve(history, id, isWin)
  {
  }

  /** Settling an id that no record carries changes nothing. */
  lemma ResolveAbsent(history: seq<Trade>, id: string, isWin: bool)
    requires forall i :: 0 <= i < |history| ==> history[i].id != id
    ensures Resolve(history, id, isWin) == history
  {
  }

  /** Settlements of different ids commute, so overlapping resolution timers may fire in either order. */
  lemma ResolveCommutes(history: seq<Trade>, a: string, b: string, winA: bool, winB: bool)
    requires a != b
    ensures Resolve(Resolve(history, a, winA), b, winB) == Resolve(Resolve(history, b, winB), a, winA)
  {
  }

  /** Settling the id of a freshly opened record settles that record and leaves an id-disjoint tail alone. */
  lemma ResolveOpened(history: seq<Trade>, id: string, timestamp: string, side: Side, assertividade: int, isWin: bool)
    requires forall i :: 0 <= i < |history| ==> history[i].id != id
    ensures Resolve(Open(history, id, timestamp, side, assertividade), id, isWin)
            == [Settle(Trade(id, timestamp, side, assertividade, Pending, 0), isWin)] + history
  {
    var r := Resolve(Open(history, id, timestamp, side, assertividade), id, isWin);
    assert r[1..] == history;
  }

  // ---------------------------------------------------------------------
  // Statistics
  // ---------------------------------------------------------------------

  /** The derived statistics; `winRate` is the percentage before its one-decimal formatting. */
  datatype Stats = Stats(total: nat, wins: nat, losses: nat, winRate: real)

  /** The records whose result is not PENDING, in order. */
  function Completed(history: seq<Trade>): (r: seq<Trade>)
    ensures |r| <= |history|
    ensures forall i :: 0 <= i < |r| ==> r[i].result != Pending && r[i] in history
    ensures forall t :: t in history && t.result != Pending ==> t in r
  {
    if |history| == 0 then []
    else if history[0].result == Pending then Completed(history[1..])
    else [history[0]] + Completed(history[1..])
  }

  /** How many records have result `o`. */
  function CountOutcome(history: seq<Trade>, o: Outcome): nat
  {
    if |history| == 0 then 0
    else (if history[0].result == o then 1 else 0) + CountOutcome(history[1..], o)
  }

  /** The results of the records, in order. */
  function Outcomes(history: seq<Trade>): seq<Outcome>
  {
    seq(|history|, i requires 0 <= i < |history| => history[i].result)
  }

  /** The completed records are exactly the settled ones, split into wins and losses. */
  lemma {:induction false} CompletedCounts(history: seq<Trade>)
    ensures |Completed(history)| == CountOutcome(history, Win) + CountOutcome(history, Loss)
    ensures |Completed(history)| + CountOutcome(history, Pending) == |history|
    ensures CountOutcome(Completed(history), Win) == CountOutcome(history, Win)
    ensures CountOutcome(Completed(history), Loss) == CountOutcome(history, Loss)
  {
    if |history| > 0 {
      CompletedCounts(history[1..]);
    }
  }

  /** The completed records split into wins and losses. */
  lemma SettledSplit(history: seq<Trade>)
    ensures |Completed(history)| == CountOutcome(Completed(history), Win) + CountOutcome(Completed(history), Loss)
  {
    CompletedCounts(history);
  }

  /** The statistics over the history (the `stats` computed value). */
  function ComputeStats(history: seq<Trade>): (st: Stats)
    ensures st.total == st.wins + st.losses
    ensures IsWinPercentage(st.winRate, st.wins, st.total)
  {
    var completed := Completed(history);
    var wins := CountOutcome(completed, Win);
    var losses := CountOutcome(completed, Loss);
    SettledSplit(history);
    Stats(|completed|, wins, losses, WinRate(wins, |completed|))
  }

  /** PENDING records never count: the settled total is the history less its PENDING records, split into WIN and LOSS records. */
  lemma StatsCountRecords(history: seq<Trade>)
    ensures ComputeStats(history).total + CountOutcome(history, Pending) == |history|
    ensures ComputeStats(history).wins == CountOutcome(history, Win)
    ensures ComputeStats(history).losses == CountOutcome(history, Loss)
  {
    CompletedCounts(history);
  }

  /** `rate` is the percentage of `wins` in `total`, and 0 when `total` is 0. */
  predicate IsWinPercentage(rate: real, wins: nat, total: nat)
  {
    && (total == 0 ==> rate == 0.0)
    && (total > 0 ==> rate * (total as real) == (wins as real) * 100.0)
    && 0.0 <= rate <= 100.0
  }

  /** The win percentage, 0 when nothing has settled. */
  function WinRate(wins: nat, total: nat): (rate: real)
    requires wins <= total
    ensures IsWinPercentage(rate, wins, total)
  {
    if total > 0 then
      WinRateBounds(wins, total);
      (wins as real / total as real) * 100.0
    else
      0.0
  }

  /** The percentage `wins / total * 100` scales back to the win count and lies between 0 and 100. */
  lemma WinRateBounds(wins: nat, total: nat)
    requires 0 < total && wins <= total
    ensures (wins as real / total as real) * 100.0 * (total as real) == (wins as real) * 100.0
    ensures 0.0 <= (wins as real / total as real) * 100.0 <= 100.0
  {
    var t := total as real;
    var q := wins as real / t;
    assert q * t == wins as real;
    assert q >= 0.0;
    if q > 1.0 {
      ScaleAbove(q, t);
    }
  }

  /** Scaling a positive number by a factor above one makes it larger. */
  lemma ScaleAbove(q: real, t: real)
    requires q > 1.0 && t > 0.0
    ensures q * t > t
  {
    assert q * t == t + (q - 1.0) * t;
  }

  /** A count by outcome is the multiplicity of that outcome in the multiset of results. */
  lemma {:induction false} CountIsMultiplicity(history: seq<Trade>, o: Outcome)
    ensures CountOutcome(history, o) == multiset(Outcomes(history))[o]
  {
    if |history| > 0 {
      CountIsMultiplicity(history[1..], o);
      assert Outcomes(history) == [history[0].result] + Outcomes(history[1..]);
    }
  }

  /** The statistics are an order-independent fold: they depend only on the multiset of results. */
  lemma StatsIgnoreOrder(h1: seq<Trade>, h2: seq<Trade>)
    requires multiset(Outcomes(h1)) == multiset(Outcomes(h2))
    ensures ComputeStats(h1) == ComputeStats(h2)
  {
    StatsCountRecords(h1);
    StatsCountRecords(h2);
    CountIsMultiplicity(h1, Win);
    CountIsMultiplicity(h2, Win);
    CountIsMultiplicity(h1, Loss);
    CountIsMultiplicity(h2, Loss);
  }

  /** Opening a PENDING record changes no statistic. */
  lemma StatsOfOpen(history: seq<Trade>, id: string, timestamp: string, side: Side, assertividade: int)
    ensures ComputeStats(Open(history, id, timestamp, side, assertividade)) == ComputeStats(history)
  {
    var h := Open(history, id, timestamp, side, assertividade);
    assert h[1..] == history;
  }

  /** Settling the one PENDING record that carries `id` moves one record from PENDING to WIN or LOSS. */
  lemma {:induction false} CountsOfSettlement(history: seq<Trade>, id: string, isWin: bool, k: nat)
    requires k < |history| && history[k].id == id && history[k].result == Pending
    requires forall i :: 0 <= i < |history| && i != k ==> history[i].id != id
    ensures var r := Resolve(history, id, isWin);
            && CountOutcome(r, Pending) + 1 == CountOutcome(history, Pending)
            && CountOutcome(r, Win) == CountOutcome(history, Win) + (if isWin then 1 else 0)
            && CountOutcome(r, Loss) == CountOutcome(history, Loss) + (if isWin then 0 else 1)
  {
    var r := Resolve(history, id, isWin);
    var tail := history[1..];
    assert r[1..] == Resolve(tail, id, isWin);
    if k == 0 {
      ResolveAbsent(tail, id, isWin);
    } else {
      CountsOfSettlement(tail, id, isWin, k - 1);
    }
  }

  /**
   Settling the one PENDING record that carries `id` adds it to the settled
   total, as a win or as a loss according to the draw.
   */
  lemma StatsOfSettlement(history: seq<Trade>, id: string, isWin: bool, k: nat)
    requires k < |history| && history[k].id == id && history[k].result == Pending
    requires forall i :: 0 <= i < |history| && i != k ==> history[i].id != id
    ensures var before, after := ComputeStats(history), ComputeStats(Resolve(history, id, isWin));
            && after.total == before.total + 1
            && after.wins == before.wins + (if isWin then 1 else 0)
            && after.losses == before.losses + (if isWin then 0 else 1)
  {
    CountsOfSettlement(history, id, isWin, k);
    StatsCountRecords(history);
    StatsCountRecords(Resolve(history, id, isWin));
  }

  /** The history present at start-up: two winning trades. */
  const SeedHistory: seq<Trade> := [
    Trade("1", "10:00:00", Compra, 92, Win, 45),
    Trade("2", "10:05:00", Venda, 88, Win, 45)
  ]

  /** Statistics of the start-up history and of an empty one. */
  lemma StatsExamples()
    ensures ComputeStats(SeedHistory) == Stats(2, 2, 0, 100.0)
    ensures ComputeStats([]) == Stats(0, 0, 0, 0.0)
  {
  }

  /** Two wins and a loss: three settled trades with a win rate of two thirds. */
  lemma StatsTwoWinsOneLoss(a: Trade, b: Trade, c: Trade)
    requires a.result == Win && b.result == Win && c.result == Loss
    ensures var st := ComputeStats([a, b, c]);
            st.total == 3 && st.wins == 2 && st.losses == 1 && st.winRate * 3.0 == 200.0
  {
    var h := [a, b, c];
    assert h[1..] == [b, c] && h[1..][1..] == [c];
    assert Completed([c]) == [c];
    assert Completed([b, c]) == [b, c];
    assert Completed(h) == h;
    assert CountOutcome([c], Loss) == 1 && CountOutcome([b, c], Loss) == 1;
  }
}
