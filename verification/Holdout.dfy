/** The final evaluation on the untouched holdout (research/smc_autosearch.py). */
module Holdout {
  import opened Wrappers
  import opened Seqs
  import opened Brackets
  import opened SmcModel
  import opened Windows
  import opened Autosearch

  datatype HoldoutEvaluation = HoldoutEvaluation(preHoldout: WindowStats, holdout: WindowStats)

  /** `evaluate_holdout`, without the verdict. */
  function EvaluateHoldout(ctx: Context, cfg: Config): HoldoutEvaluation
    requires ValidContext(ctx)
  {
    var results := Backtests(ctx.pairs, cfg);
    HoldoutEvaluation(
      Aggregate(FilterResults(results, map[], ctx.holdoutStarts), ctx.holdoutStarts, false),
      Aggregate(FilterResults(results, ctx.holdoutStarts, map[]), ctx.holdoutStarts, true))
  }

  ghost predicate AllTimed(results: seq<PairResult>, cutoffs: map<string, int>)
  {
    forall r :: r in results ==> r.pair in cutoffs
  }

  function PreHoldout(results: seq<PairResult>, cutoffs: map<string, int>): (f: seq<PairResult>)
    requires AllTimed(results, cutoffs)
    ensures |f| == |results| && AllTimed(f, cutoffs)
  {
    FilterResults(results, map[], cutoffs)
  }

  function AfterHoldout(results: seq<PairResult>, cutoffs: map<string, int>): (f: seq<PairResult>)
    requires AllTimed(results, cutoffs)
    ensures |f| == |results| && AllTimed(f, cutoffs)
  {
    FilterResults(results, cutoffs, map[])
  }

  /** The filter has already selected what the aggregation selects again. */
  lemma FilterIsSide(trades: seq<Trade>, cutoff: int)
    ensures Filter(Filter(trades, Within(None, Some(cutoff))), OnSide(cutoff, false))
         == Filter(trades, OnSide(cutoff, false))
    ensures Filter(Filter(trades, Within(Some(cutoff), None)), OnSide(cutoff, true))
         == Filter(trades, OnSide(cutoff, true))
  {
    FilterTwice(trades, Within(None, Some(cutoff)), OnSide(cutoff, false), OnSide(cutoff, false));
    FilterTwice(trades, Within(Some(cutoff), None), OnSide(cutoff, true), OnSide(cutoff, true));
  }

  lemma {:induction false} PoolsAreSides(results: seq<PairResult>, cutoffs: map<string, int>, n: nat)
    requires AllTimed(results, cutoffs) && cutoffs != map[] && n <= |results|
    ensures Pooled(PreHoldout(results, cutoffs), cutoffs, false, n) == Pooled(results, cutoffs, false, n)
    ensures Pooled(AfterHoldout(results, cutoffs), cutoffs, true, n) == Pooled(results, cutoffs, true, n)
    ensures ProfitablePairs(PreHoldout(results, cutoffs), cutoffs, false, n)
         == ProfitablePairs(results, cutoffs, false, n)
    ensures ProfitablePairs(AfterHoldout(results, cutoffs), cutoffs, true, n)
         == ProfitablePairs(results, cutoffs, true, n)
  {
    hide Within, OnSide, Filter;
    if n > 0 {
      PoolsAreSides(results, cutoffs, n - 1);
      FilterIsSide(results[n - 1].trades, cutoffs[results[n - 1].pair]);
    }
  }

  /** The filters before the two aggregations of the final evaluation change nothing. */
  lemma FiltersAreRedundant(results: seq<PairResult>, cutoffs: map<string, int>)
    requires AllTimed(results, cutoffs)
    ensures Aggregate(PreHoldout(results, cutoffs), cutoffs, false) == Aggregate(results, cutoffs, false)
    ensures Aggregate(AfterHoldout(results, cutoffs), cutoffs, true) == Aggregate(results, cutoffs, true)
  {
    hide StatsOf, Pooled, ProfitablePairs;
    if results != [] {
      assert results[0].pair in cutoffs;
      PoolsAreSides(results, cutoffs, |results|);
    } else {
      assert PreHoldout(results, cutoffs) == results && AfterHoldout(results, cutoffs) == results;
    }
  }

  function AllTrades(results: seq<PairResult>, n: nat): seq<Trade>
    requires n <= |results|
  {
    if n == 0 then [] else AllTrades(results, n - 1) + results[n - 1].trades
  }

  lemma OneShare(t: Trade, p: Trade -> bool, q: Trade -> bool)
    requires p(t) != q(t)
    ensures |Filter([t], p)| + |Filter([t], q)| == 1
    ensures TotalPnl(Filter([t], p)) + TotalPnl(Filter([t], q)) == t.netPnl
  {
    assert [t][1..] == [] && [t][..0] == [];
    assert Filter([t], p) == (if p(t) then [t] else []) && Filter([t], q) == if q(t) then [t] else [];
  }

  /** A filter and its complement share out the trades and their results. */
  lemma {:induction false} ComplementsShare(trades: seq<Trade>, p: Trade -> bool, q: Trade -> bool)
    requires forall t :: t in trades ==> p(t) != q(t)
    ensures |Filter(trades, p)| + |Filter(trades, q)| == |trades|
    ensures TotalPnl(Filter(trades, p)) + TotalPnl(Filter(trades, q)) == TotalPnl(trades)
  {
    hide Filter, TotalPnl;
    if trades == [] {
      NothingShared(p, q);
    } else {
      var init, last := trades[..|trades| - 1], trades[|trades| - 1];
      ComplementsShare(init, p, q);
      OneShare(last, p, q);
      assert trades == init + [last];
      FilterConcat(init, [last], p);
      FilterConcat(init, [last], q);
      TotalPnlConcat(Filter(init, p), Filter([last], p));
      TotalPnlConcat(Filter(init, q), Filter([last], q));
      TotalPnlSnoc(init, last);
    }
  }

  lemma NothingShared(p: Trade -> bool, q: Trade -> bool)
    ensures Filter([], p) == [] && Filter([], q) == [] && TotalPnl([]) == 0.0
  {
  }

  lemma SidesShareTrades(trades: seq<Trade>, cutoff: int)
    ensures |Filter(trades, OnSide(cutoff, false))| + |Filter(trades, OnSide(cutoff, true))| == |trades|
    ensures TotalPnl(Filter(trades, OnSide(cutoff, false))) + TotalPnl(Filter(trades, OnSide(cutoff, true)))
         == TotalPnl(trades)
  {
    ComplementsShare(trades, OnSide(cutoff, false), OnSide(cutoff, true));
  }

  lemma {:induction false} PoolsShareTrades(results: seq<PairResult>, cutoffs: map<string, int>, n: nat)
    requires AllTimed(results, cutoffs) && n <= |results|
    ensures |Pooled(results, cutoffs, false, n)| + |Pooled(results, cutoffs, true, n)| == |AllTrades(results, n)|
    ensures TotalPnl(Pooled(results, cutoffs, false, n)) + TotalPnl(Pooled(results, cutoffs, true, n))
         == TotalPnl(AllTrades(results, n))
  {
    hide Filter, OnSide;
    if n > 0 {
      PoolsShareTrades(results, cutoffs, n - 1);
      var trades, cutoff := results[n - 1].trades, cutoffs[results[n - 1].pair];
      SidesShareTrades(trades, cutoff);
      TotalPnlConcat(Pooled(results, cutoffs, false, n - 1), Filter(trades, OnSide(cutoff, false)));
      TotalPnlConcat(Pooled(results, cutoffs, true, n - 1), Filter(trades, OnSide(cutoff, true)));
      TotalPnlConcat(AllTrades(results, n - 1), trades);
    }
  }

  /** The final evaluation counts every trade of the backtests once, before or inside the holdout,
      and its two net percentages add up to that of all trades. */
  lemma HoldoutCountsEveryTradeOnce(ctx: Context, cfg: Config)
    requires ValidContext(ctx)
    ensures
      var e, results := EvaluateHoldout(ctx, cfg), Backtests(ctx.pairs, cfg);
      var all := AllTrades(results, |results|);
      && e.preHoldout.trades + e.holdout.trades == |all|
      && e.preHoldout.totalNetPct + e.holdout.totalNetPct == TotalPnl(all) / InitialCapital(results) * 100.0
  {
    hide Backtest, Pooled, AllTrades, ProfitablePairs, CurveAfter, StableSort;
    var results := Backtests(ctx.pairs, cfg);
    assert AllTimed(results, ctx.holdoutStarts) by {
      BacktestsAreTimed(ctx, cfg);
    }
    FiltersAreRedundant(results, ctx.holdoutStarts);
    PoolsShareTrades(results, ctx.holdoutStarts, |results|);
    NetPctIsPooledPnl(results, ctx.holdoutStarts, false);
    NetPctIsPooledPnl(results, ctx.holdoutStarts, true);
    ShareAdds(TotalPnl(Pooled(results, ctx.holdoutStarts, false, |results|)),
              TotalPnl(Pooled(results, ctx.holdoutStarts, true, |results|)), InitialCapital(results));
  }

  lemma BacktestsAreTimed(ctx: Context, cfg: Config)
    requires ValidContext(ctx)
    ensures AllTimed(Backtests(ctx.pairs, cfg), ctx.holdoutStarts)
  {
    var results := Backtests(ctx.pairs, cfg);
    forall r | r in results ensures r.pair in ctx.holdoutStarts {
      var i :| 0 <= i < |results| && results[i] == r;
      assert results[i] == Backtest(ctx.pairs[i], cfg);
    }
  }

  lemma ShareAdds(x: real, y: real, d: pos)
    ensures x / d * 100.0 + y / d * 100.0 == (x + y) / d * 100.0
  {
    assert (x / d + y / d) * d == x + y;
  }

  /** What lies before the holdout is evaluated the same whatever follows once its trades are settled. */
  lemma {:induction false} PreHoldoutAgrees(ctx: Context, other: Context, cfg: Config)
    requires ValidContext(ctx) && ValidContext(other) && SameUntilSettled(ctx, other, cfg)
    ensures EvaluateHoldout(ctx, cfg).preHoldout == EvaluateHoldout(other, cfg).preHoldout
  {
    hide Backtest, Aggregate;
    FilteredAgree(ctx, other, cfg, map[], ctx.holdoutStarts);
    StatsIgnoreEnding(FilterResults(Backtests(ctx.pairs, cfg), map[], ctx.holdoutStarts),
                      FilterResults(Backtests(other.pairs, cfg), map[], ctx.holdoutStarts),
                      ctx.holdoutStarts, false);
  }
}
