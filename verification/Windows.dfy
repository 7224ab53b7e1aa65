/** Window statistics of backtest results (scripts/run_htf_fib_backtest.py,
    scripts/run_smc_backtest.py). */
module Windows {
  import opened Wrappers
  import opened Seqs
  import opened Brackets

  datatype PairResult = PairResult(pair: string, initial: pos, ending: real, trades: seq<Trade>)

  datatype WindowStats = WindowStats(
    trades: nat, winRate: real, grossProfitFactor: real, netProfitFactor: real,
    totalNetPct: real, maxDrawdownPct: real, profitablePairs: nat, testedPairs: nat)

  const MIN_WINDOW_TRADES := 30

  /** Sum of the positive values, and of the negated negative ones. */
  function Gains(values: seq<real>): real
  {
    if values == [] then 0.0 else Gains(values[..|values| - 1]) + Max(values[|values| - 1], 0.0)
  }

  function Losses(values: seq<real>): real
  {
    if values == [] then 0.0 else Losses(values[..|values| - 1]) + Max(-values[|values| - 1], 0.0)
  }

  function ProfitFactor(values: seq<real>): real
  {
    if Losses(values) == 0.0 then (if Gains(values) > 0.0 then 99.0 else 0.0)
    else Gains(values) / Losses(values)
  }

  function NetRs(trades: seq<Trade>): (r: seq<real>)
    ensures |r| == |trades|
  {
    seq(|trades|, i requires 0 <= i < |trades| => trades[i].netR)
  }

  function GrossRs(trades: seq<Trade>): (r: seq<real>)
    ensures |r| == |trades|
  {
    seq(|trades|, i requires 0 <= i < |trades| => trades[i].grossR)
  }

  function Wins(values: seq<real>): (n: nat)
    ensures n <= |values|
  {
    if values == [] then 0 else Wins(values[..|values| - 1]) + if values[|values| - 1] > 0.0 then 1 else 0
  }

  /** Entries after the cutoff when `oos`, at or before it otherwise. */
  function OnSide(cutoff: int, oos: bool): Trade -> bool
  {
    (t: Trade) => (t.bracket.entryTime > cutoff) == oos
  }

  function ByExitTime(): (Trade, Trade) -> bool
  {
    (a: Trade, b: Trade) => a.exitTime <= b.exitTime
  }

  /** The selected trades of the first `n` results, one after another. */
  function Pooled(results: seq<PairResult>, cutoffs: map<string, int>, oos: bool, n: nat): seq<Trade>
    requires n <= |results| && forall r :: r in results ==> r.pair in cutoffs
  {
    if n == 0 then []
    else Pooled(results, cutoffs, oos, n - 1) + Filter(results[n - 1].trades, OnSide(cutoffs[results[n - 1].pair], oos))
  }

  function ProfitablePairs(results: seq<PairResult>, cutoffs: map<string, int>, oos: bool, n: nat): nat
    requires n <= |results| && forall r :: r in results ==> r.pair in cutoffs
  {
    if n == 0 then 0
    else
      ProfitablePairs(results, cutoffs, oos, n - 1) +
      if TotalPnl(Filter(results[n - 1].trades, OnSide(cutoffs[results[n - 1].pair], oos))) > 0.0 then 1 else 0
  }

  /** Equity, its running peak and the worst relative drop from the peak. */
  datatype Curve = Curve(equity: real, peak: pos, drawdown: real)

  function CurveAfter(start: pos, trades: seq<Trade>): Curve
  {
    if trades == [] then Curve(start, start, 0.0)
    else
      var c := CurveAfter(start, trades[..|trades| - 1]);
      var equity := c.equity + trades[|trades| - 1].netPnl;
      var peak: pos := Max(c.peak, equity);
      Curve(equity, peak, Max(c.drawdown, (peak - equity) / peak * 100.0))
  }

  function InitialCapital(results: seq<PairResult>): pos
  {
    if results == [] then 100000.0 else results[0].initial
  }

  function StatsOf(initial: pos, trades: seq<Trade>, profitable: nat, tested: nat): WindowStats
  {
    var curve := CurveAfter(initial, StableSort(trades, ByExitTime()));
    WindowStats(
      |trades|, if trades == [] then 0.0 else Wins(NetRs(trades)) as real / |trades| as real,
      ProfitFactor(GrossRs(trades)), ProfitFactor(NetRs(trades)),
      (curve.equity - initial) / initial * 100.0, curve.drawdown, profitable, tested)
  }

  function Aggregate(results: seq<PairResult>, cutoffs: map<string, int>, oos: bool): WindowStats
    requires forall r :: r in results ==> r.pair in cutoffs
  {
    StatsOf(InitialCapital(results), Pooled(results, cutoffs, oos, |results|),
            ProfitablePairs(results, cutoffs, oos, |results|), |results|)
  }

  /** The drawdown loop of `aggregate_window`. */
  method TraceCurve(start: pos, trades: seq<Trade>) returns (equity: real, drawdown: real)
    ensures equity == CurveAfter(start, trades).equity && drawdown == CurveAfter(start, trades).drawdown
  {
    equity, drawdown := start, 0.0;
    var peak: pos := start;
    assert trades[..0] == [];
    for i := 0 to |trades|
      invariant Curve(equity, peak, drawdown) == CurveAfter(start, trades[..i])
    {
      assert trades[..i + 1][..i] == trades[..i];
      equity := equity + trades[i].netPnl;
      peak := Max(peak, equity);
      drawdown := Max(drawdown, (peak - equity) / peak * 100.0);
    }
    assert trades[..|trades|] == trades;
  }

  method Summarise(initial: pos, trades: seq<Trade>, profitable: nat, tested: nat) returns (stats: WindowStats)
    ensures stats == StatsOf(initial, trades, profitable, tested)
  {
    var equity, drawdown := TraceCurve(initial, StableSort(trades, ByExitTime()));
    stats := WindowStats(
      |trades|, if trades == [] then 0.0 else Wins(NetRs(trades)) as real / |trades| as real,
      ProfitFactor(GrossRs(trades)), ProfitFactor(NetRs(trades)),
      (equity - initial) / initial * 100.0, drawdown, profitable, tested);
  }

  /** `aggregate_window`. */
  method AggregateWindow(results: seq<PairResult>, cutoffs: map<string, int>, oos: bool) returns (stats: WindowStats)
    requires forall r :: r in results ==> r.pair in cutoffs
    ensures stats == Aggregate(results, cutoffs, oos)
  {
    var trades: seq<Trade> := [];
    var profitable, tested := 0, 0;
    for i := 0 to |results|
      invariant tested == i
      invariant trades == Pooled(results, cutoffs, oos, i)
      invariant profitable == ProfitablePairs(results, cutoffs, oos, i)
    {
      var selected := Filter(results[i].trades, OnSide(cutoffs[results[i].pair], oos));
      tested := tested + 1;
      if TotalPnl(selected) > 0.0 {
        profitable := profitable + 1;
      }
      trades := trades + selected;
    }
    stats := Summarise(InitialCapital(results), trades, profitable, tested);
  }

  lemma {:induction false} EquityIsStartPlusPnl(start: pos, trades: seq<Trade>)
    ensures CurveAfter(start, trades).equity == start + TotalPnl(trades)
  {
    if trades != [] {
      EquityIsStartPlusPnl(start, trades[..|trades| - 1]);
    }
  }

  lemma {:induction false} TotalPnlConcat(a: seq<Trade>, b: seq<Trade>)
    ensures TotalPnl(a + b) == TotalPnl(a) + TotalPnl(b)
  {
    if b == [] {
      assert a + b == a;
    } else {
      assert (a + b)[..|a + b| - 1] == a + b[..|b| - 1];
      TotalPnlConcat(a, b[..|b| - 1]);
    }
  }

  lemma {:induction false} TotalPnlInsert(t: Trade, s: seq<Trade>, leq: (Trade, Trade) -> bool)
    ensures TotalPnl(Insert(t, s, leq)) == TotalPnl(s) + t.netPnl
  {
    TotalPnlConcat([t], s);
    if s != [] {
      assert s == [s[0]] + s[1..];
      TotalPnlConcat([s[0]], s[1..]);
      TotalPnlInsert(t, s[1..], leq);
      TotalPnlConcat([s[0]], Insert(t, s[1..], leq));
    }
  }

  lemma {:induction false} TotalPnlSorted(s: seq<Trade>, leq: (Trade, Trade) -> bool)
    ensures TotalPnl(StableSort(s, leq)) == TotalPnl(s)
  {
    if s != [] {
      TotalPnlSorted(s[1..], leq);
      TotalPnlInsert(s[0], StableSort(s[1..], leq), leq);
      assert s == [s[0]] + s[1..];
      TotalPnlConcat([s[0]], s[1..]);
    }
  }

  /** Sorting by exit time orders the equity curve and leaves its end where the plain sum is. */
  lemma NetPctIsPooledPnl(results: seq<PairResult>, cutoffs: map<string, int>, oos: bool)
    requires forall r :: r in results ==> r.pair in cutoffs
    ensures Aggregate(results, cutoffs, oos).totalNetPct
         == TotalPnl(Pooled(results, cutoffs, oos, |results|)) / InitialCapital(results) * 100.0
  {
    var trades := Pooled(results, cutoffs, oos, |results|);
    TotalPnlSorted(trades, ByExitTime());
    EquityIsStartPlusPnl(InitialCapital(results), StableSort(trades, ByExitTime()));
  }

  function Drop(c: Curve): real
  {
    (c.peak - c.equity) / c.peak * 100.0
  }

  /** No point of the curve is above the peak or drops further below its own peak than the
      reported drawdown. */
  lemma {:induction false} CurveBounds(start: pos, trades: seq<Trade>, j: nat)
    requires j <= |trades|
    ensures CurveAfter(start, trades[..j]).equity <= CurveAfter(start, trades).peak
    ensures Drop(CurveAfter(start, trades[..j])) <= CurveAfter(start, trades).drawdown
  {
    if j == |trades| {
      assert trades[..j] == trades;
    } else {
      var rest := trades[..|trades| - 1];
      assert trades[..j] == rest[..j];
      CurveBounds(start, rest, j);
    }
  }

  /** Both are attained. */
  lemma {:induction false} CurveAttains(start: pos, trades: seq<Trade>) returns (top: nat, worst: nat)
    ensures top <= |trades| && worst <= |trades|
    ensures CurveAfter(start, trades[..top]).equity == CurveAfter(start, trades).peak
    ensures Drop(CurveAfter(start, trades[..worst])) == CurveAfter(start, trades).drawdown
  {
    var n := |trades|;
    assert trades[..n] == trades;
    if n == 0 {
      top, worst := 0, 0;
    } else {
      var rest := trades[..n - 1];
      top, worst := CurveAttains(start, rest);
      assert trades[..top] == rest[..top] && trades[..worst] == rest[..worst];
      var before, after := CurveAfter(start, rest), CurveAfter(start, trades);
      if after.peak != before.peak {
        top := n;
      }
      if after.drawdown != before.drawdown {
        worst := n;
      }
    }
  }

  datatype Score = NegInfinity | Score(value: real)

  /** The autosearch score: a validation result, less the overfit gap and a penalty for few trades. */
  function ScoreWindow(inSample: WindowStats, validation: WindowStats): Score
  {
    if validation.trades < 1 then NegInfinity
    else
      var gap := Max(0.0, inSample.totalNetPct - validation.totalNetPct);
      var missing := if MIN_WINDOW_TRADES > validation.trades then MIN_WINDOW_TRADES - validation.trades else 0;
      Score(validation.totalNetPct - 0.5 * gap - 0.25 * missing as real)
  }
}
