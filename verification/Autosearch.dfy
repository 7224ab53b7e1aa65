/** Window selection of the SMC autosearch (research/smc_autosearch.py). */
module Autosearch {
  import opened Wrappers
  import opened Seqs
  import opened Market
  import opened Costs
  import opened Brackets
  import opened SmcModel
  import opened SmcWalk
  import opened SmcRuns
  import opened SmcCausality
  import opened SmcSettled
  import opened Windows

  /** One pair as loaded: its bars and the USD value of its quote currency. */
  datatype PairData = PairData(pair: string, bars: seq<Bar>, usd: seq<pos>)

  datatype Context = Context(
    pairs: seq<PairData>, validationStarts: map<string, int>, holdoutStarts: map<string, int>)

  /** Entries after `start`, if any, and at or before `end`, if any. */
  function Within(start: Option<int>, end: Option<int>): Trade -> bool
  {
    (t: Trade) =>
      && (start.Some? ==> t.bracket.entryTime > start.value)
      && (end.Some? ==> t.bracket.entryTime <= end.value)
  }

  /** An empty table of times means no bound. */
  function BoundFor(times: map<string, int>, pair: string): Option<int>
    requires times == map[] || pair in times
  {
    if times == map[] then None else Some(times[pair])
  }

  predicate Covers(times: map<string, int>, results: seq<PairResult>)
  {
    times == map[] || forall r :: r in results ==> r.pair in times
  }

  function FilterResult(r: PairResult, starts: map<string, int>, ends: map<string, int>): PairResult
    requires (starts == map[] || r.pair in starts) && (ends == map[] || r.pair in ends)
  {
    r.(trades := Filter(r.trades, Within(BoundFor(starts, r.pair), BoundFor(ends, r.pair))))
  }

  function FilterResults(results: seq<PairResult>, starts: map<string, int>, ends: map<string, int>)
    : (f: seq<PairResult>)
    requires Covers(starts, results) && Covers(ends, results)
    ensures |f| == |results|
    ensures forall i :: 0 <= i < |results| ==> f[i] == FilterResult(results[i], starts, ends)
  {
    if results == [] then []
    else FilterResults(results[..|results| - 1], starts, ends) + [FilterResult(results[|results| - 1], starts, ends)]
  }

  /** `_filter_results`. */
  method SelectWindow(results: seq<PairResult>, starts: map<string, int>, ends: map<string, int>)
    returns (filtered: seq<PairResult>)
    requires Covers(starts, results) && Covers(ends, results)
    ensures filtered == FilterResults(results, starts, ends)
  {
    hide Filter, Within;
    filtered := [];
    assert results[..0] == [];
    for i := 0 to |results|
      invariant filtered == FilterResults(results[..i], starts, ends)
    {
      assert results[..i + 1][..i] == results[..i];
      var r := results[i];
      var trades := Filter(r.trades, Within(BoundFor(starts, r.pair), BoundFor(ends, r.pair)));
      filtered := filtered + [PairResult(r.pair, r.initial, r.ending, trades)];
    }
    assert results[..|results|] == results;
  }

  /** The runner's default account for a pair. */
  function DefaultAccount(pair: string): Account
  {
    Account(CostBook(2.0, 2.0, 3.0, 1.0), PipSize(pair), 100000.0, 0.01)
  }

  predicate Loaded(d: PairData)
  {
    |d.usd| == |d.bars|
  }

  function Backtest(d: PairData, cfg: Config): PairResult
    requires Loaded(d)
  {
    var acct := DefaultAccount(d.pair);
    PrepareIsReady(d.bars, d.usd, cfg);
    var s := Run(Prepare(d.bars, d.usd, cfg), cfg, acct, |d.bars|);
    PairResult(d.pair, acct.initial, s.balance, s.trades)
  }

  function Backtests(pairs: seq<PairData>, cfg: Config): (r: seq<PairResult>)
    requires AllLoaded(pairs)
    ensures |r| == |pairs|
  {
    seq(|pairs|, i requires 0 <= i < |pairs| => Backtest(pairs[i], cfg))
  }

  ghost predicate AllLoaded(pairs: seq<PairData>)
  {
    forall i :: 0 <= i < |pairs| ==> Loaded(pairs[i])
  }

  ghost predicate ValidContext(ctx: Context)
  {
    && AllLoaded(ctx.pairs)
    && forall i :: 0 <= i < |ctx.pairs| ==>
         ctx.pairs[i].pair in ctx.validationStarts && ctx.pairs[i].pair in ctx.holdoutStarts
  }

  datatype Evaluation = Evaluation(score: Score, inSample: WindowStats, validation: WindowStats)

  function InSampleStats(ctx: Context, cfg: Config): WindowStats
    requires ValidContext(ctx)
  {
    Aggregate(FilterResults(Backtests(ctx.pairs, cfg), map[], ctx.validationStarts), ctx.validationStarts, false)
  }

  function ValidationStats(ctx: Context, cfg: Config): WindowStats
    requires ValidContext(ctx)
  {
    Aggregate(
      FilterResults(Backtests(ctx.pairs, cfg), ctx.validationStarts, ctx.holdoutStarts), ctx.holdoutStarts, false)
  }

  /** `evaluate_smc_config`: all the search ever sees of a configuration. */
  function Evaluate(ctx: Context, cfg: Config): Evaluation
    requires ValidContext(ctx)
  {
    var isStats, valStats := InSampleStats(ctx, cfg), ValidationStats(ctx, cfg);
    Evaluation(ScoreWindow(isStats, valStats), isStats, valStats)
  }

  // ---------------------------------------------------------------- partition

  function NotAfter(cut: int): Trade -> bool
  {
    (t: Trade) => t.bracket.entryTime <= cut
  }

  function After(cut: int): Trade -> bool
  {
    (t: Trade) => t.bracket.entryTime > cut
  }

  ghost predicate InEntryOrder(trades: seq<Trade>)
  {
    forall i, j :: 0 <= i < j < |trades| ==> trades[i].bracket.entryTime <= trades[j].bracket.entryTime
  }

  lemma {:induction false} CutInTwo(trades: seq<Trade>, cut: int)
    requires InEntryOrder(trades)
    ensures Filter(trades, NotAfter(cut)) + Filter(trades, After(cut)) == trades
  {
    if trades != [] {
      if trades[0].bracket.entryTime <= cut {
        CutInTwo(trades[1..], cut);
      } else {
        FilterNone(trades, NotAfter(cut));
        FilterAll(trades, After(cut));
      }
    }
  }

  lemma {:induction false} FilterTwice<T>(s: seq<T>, p: T -> bool, q: T -> bool, both: T -> bool)
    requires forall x :: x in s ==> both(x) == (p(x) && q(x))
    ensures Filter(Filter(s, p), q) == Filter(s, both)
  {
    if s != [] {
      FilterTwice(s[1..], p, q, both);
      if p(s[0]) {
        assert Filter(s, p)[1..] == Filter(s[1..], p);
      }
    }
  }

  lemma {:induction false} FilterKeepsOrder(trades: seq<Trade>, keep: Trade -> bool)
    requires InEntryOrder(trades)
    ensures InEntryOrder(Filter(trades, keep))
  {
    if trades != [] {
      FilterKeepsOrder(trades[1..], keep);
      var rest := Filter(trades[1..], keep);
      forall j | 0 <= j < |rest| ensures trades[0].bracket.entryTime <= rest[j].bracket.entryTime {
        assert rest[j] in trades[1..];
      }
    }
  }

  /** The in-sample, validation and holdout windows, in this order, are the whole trade list:
      nothing is lost, doubled or moved. */
  lemma {:induction false} WindowsPartitionTrades(trades: seq<Trade>, validationStart: int, holdoutStart: int)
    requires InEntryOrder(trades) && validationStart <= holdoutStart
    ensures Filter(trades, Within(None, Some(validationStart)))
          + Filter(trades, Within(Some(validationStart), Some(holdoutStart)))
          + Filter(trades, Within(Some(holdoutStart), None)) == trades
  {
    var late := Filter(trades, After(validationStart));
    CutInTwo(trades, validationStart);
    FilterKeepsOrder(trades, After(validationStart));
    CutInTwo(late, holdoutStart);
    FilterCongruent(trades, NotAfter(validationStart), Within(None, Some(validationStart)));
    FilterTwice(trades, After(validationStart), NotAfter(holdoutStart),
                Within(Some(validationStart), Some(holdoutStart)));
    FilterTwice(trades, After(validationStart), After(holdoutStart), Within(Some(holdoutStart), None));
  }

  /** Trades of a run are in entry order, so the partition applies to them. */
  lemma RunsAreInEntryOrder(p: Prepared, cfg: Config, acct: Account, k: nat)
    requires Ready(p, cfg) && k <= |p.bars| && Chronological(p.bars)
    ensures InEntryOrder(Run(p, cfg, acct, k).trades)
  {
    var trades := Run(p, cfg, acct, k).trades;
    PositionsNeverOverlap(p, cfg, acct, k);
    forall i, j | 0 <= i < j < |trades| ensures trades[i].bracket.entryTime <= trades[j].bracket.entryTime {
      TradesLeaveAtFirstTouch(p, cfg, acct, k, i);
      TradesLeaveAtFirstTouch(p, cfg, acct, k, j);
    }
  }

  // ------------------------------------------------------------ how much of the holdout the search reads

  /** After `k` bars no trade of the pair is open that was entered by bar `c`. */
  ghost predicate SettledBy(d: PairData, cfg: Config, c: nat, k: nat)
    requires Loaded(d) && k <= |d.bars|
  {
    PrepareIsReady(d.bars, d.usd, cfg);
    EntrantsGone(Prepare(d.bars, d.usd, cfg), cfg, DefaultAccount(d.pair), c, k)
  }

  /** Two loads of the same pair that agree until all trades entered by the bar where the holdout starts
      are settled. */
  ghost predicate AgreeUntilSettled(d: PairData, e: PairData, holdoutStart: int, cfg: Config)
  {
    && d.pair == e.pair && Loaded(d) && Loaded(e)
    && Chronological(d.bars) && Chronological(e.bars)
    && exists c: nat, k: nat ::
         && c < k && c < |d.bars| && d.bars[c].ts == holdoutStart
         && SameStart(d.bars, e.bars, k) && SameRates(d.usd, e.usd, k)
         && SettledBy(d, cfg, c, k)
  }

  ghost predicate SameRates(u: seq<pos>, v: seq<pos>, k: nat)
  {
    k <= |u| && k <= |v| && forall i :: 0 <= i < k ==> u[i] == v[i]
  }

  /** Entered by the bar at the holdout start means entered by its time. */
  lemma EntersByTime(d: PairData, cfg: Config, c: nat)
    requires Loaded(d) && Chronological(d.bars) && c < |d.bars|
    ensures Filter(Backtest(d, cfg).trades, EntersBy(c)) == Filter(Backtest(d, cfg).trades, NotAfter(d.bars[c].ts))
  {
    PrepareIsReady(d.bars, d.usd, cfg);
    var p, acct := Prepare(d.bars, d.usd, cfg), DefaultAccount(d.pair);
    var trades := Backtest(d, cfg).trades;
    forall t | t in trades ensures EntersBy(c)(t) == NotAfter(d.bars[c].ts)(t) {
      var j :| 0 <= j < |trades| && trades[j] == t;
      TradesLeaveAtFirstTouch(p, cfg, acct, |d.bars|, j);
      assert t.bracket.entryTime == d.bars[t.bracket.entryIndex].ts;
    }
    FilterCongruent(trades, EntersBy(c), NotAfter(d.bars[c].ts));
  }

  lemma {:induction false} PreHoldoutTradesAgree(d: PairData, e: PairData, holdoutStart: int, cfg: Config)
    requires AgreeUntilSettled(d, e, holdoutStart, cfg)
    ensures Filter(Backtest(d, cfg).trades, NotAfter(holdoutStart))
         == Filter(Backtest(e, cfg).trades, NotAfter(holdoutStart))
  {
    hide Run, EntrantsGone, Prepare;
    var c: nat, k: nat :| c < k && c < |d.bars| && d.bars[c].ts == holdoutStart
      && SameStart(d.bars, e.bars, k) && SameRates(d.usd, e.usd, k) && SettledBy(d, cfg, c, k);
    SameStartAt(d.bars, e.bars, k, c);
    PrepareAgrees(d.bars, e.bars, d.usd, e.usd, cfg, k);
    var p, q := Prepare(d.bars, d.usd, cfg), Prepare(e.bars, e.usd, cfg);
    SettledTradesAgree(p, q, cfg, DefaultAccount(d.pair), c, k);
    assert p.bars == d.bars && q.bars == e.bars by {
      PreparedBars(d, cfg);
      PreparedBars(e, cfg);
    }
    EntersByTime(d, cfg, c);
    EntersByTime(e, cfg, c);
  }

  lemma PreparedBars(d: PairData, cfg: Config)
    ensures Prepare(d.bars, d.usd, cfg).bars == d.bars
  {
  }

  /** A window that ends by the holdout start selects the same trades from both loads. */
  lemma {:induction false} WindowAgrees(d: PairData, e: PairData, holdoutStart: int, cfg: Config,
                                        start: Option<int>, end: int)
    requires AgreeUntilSettled(d, e, holdoutStart, cfg) && end <= holdoutStart
    ensures Filter(Backtest(d, cfg).trades, Within(start, Some(end)))
         == Filter(Backtest(e, cfg).trades, Within(start, Some(end)))
  {
    var keep := Within(start, Some(end));
    PreHoldoutTradesAgree(d, e, holdoutStart, cfg);
    FilterTwice(Backtest(d, cfg).trades, NotAfter(holdoutStart), keep, keep);
    FilterTwice(Backtest(e, cfg).trades, NotAfter(holdoutStart), keep, keep);
  }

  /** Results that differ at most in the ending balance. */
  predicate SameButEnding(r: PairResult, s: PairResult)
  {
    r.pair == s.pair && r.initial == s.initial && r.trades == s.trades
  }

  ghost predicate AllSameButEnding(r: seq<PairResult>, s: seq<PairResult>)
  {
    |r| == |s| && forall i :: 0 <= i < |r| ==> SameButEnding(r[i], s[i])
  }

  lemma {:induction false} PoolsAgree(r: seq<PairResult>, s: seq<PairResult>, cutoffs: map<string, int>,
                                      oos: bool, n: nat)
    requires AllSameButEnding(r, s) && n <= |r|
    requires (forall x :: x in r ==> x.pair in cutoffs) && (forall x :: x in s ==> x.pair in cutoffs)
    ensures Pooled(r, cutoffs, oos, n) == Pooled(s, cutoffs, oos, n)
    ensures ProfitablePairs(r, cutoffs, oos, n) == ProfitablePairs(s, cutoffs, oos, n)
  {
    if n > 0 {
      PoolsAgree(r, s, cutoffs, oos, n - 1);
      assert SameButEnding(r[n - 1], s[n - 1]);
    }
  }

  /** Window statistics do not look at the ending balance, which the tail does move. */
  lemma StatsIgnoreEnding(r: seq<PairResult>, s: seq<PairResult>, cutoffs: map<string, int>, oos: bool)
    requires AllSameButEnding(r, s)
    requires (forall x :: x in r ==> x.pair in cutoffs) && (forall x :: x in s ==> x.pair in cutoffs)
    ensures Aggregate(r, cutoffs, oos) == Aggregate(s, cutoffs, oos)
  {
    PoolsAgree(r, s, cutoffs, oos, |r|);
    if r != [] {
      assert SameButEnding(r[0], s[0]);
    }
  }

  /** Two search contexts with the same windows whose data agree until the trades before the holdout are
      settled. */
  ghost predicate SameUntilSettled(ctx: Context, other: Context, cfg: Config)
    requires ValidContext(ctx)
  {
    && ctx.validationStarts == other.validationStarts && ctx.holdoutStarts == other.holdoutStarts
    && |ctx.pairs| == |other.pairs|
    && forall i :: 0 <= i < |ctx.pairs| ==>
         AgreeUntilSettled(ctx.pairs[i], other.pairs[i], ctx.holdoutStarts[ctx.pairs[i].pair], cfg)
  }

  /** Every window of the search ends by the start of the holdout. */
  ghost predicate WindowsInOrder(ctx: Context)
    requires ValidContext(ctx)
  {
    forall i :: 0 <= i < |ctx.pairs| ==>
      ctx.validationStarts[ctx.pairs[i].pair] <= ctx.holdoutStarts[ctx.pairs[i].pair]
  }

  lemma FilteredPairAgrees(d: PairData, e: PairData, holdoutStart: int, cfg: Config,
                           starts: map<string, int>, ends: map<string, int>)
    requires AgreeUntilSettled(d, e, holdoutStart, cfg)
    requires (starts == map[] || d.pair in starts) && d.pair in ends && ends[d.pair] <= holdoutStart
    ensures SameButEnding(FilterResult(Backtest(d, cfg), starts, ends), FilterResult(Backtest(e, cfg), starts, ends))
  {
    WindowAgrees(d, e, holdoutStart, cfg, BoundFor(starts, d.pair), ends[d.pair]);
  }

  lemma BacktestsKeepPairs(ctx: Context, other: Context, cfg: Config)
    requires ValidContext(ctx) && ValidContext(other) && SameUntilSettled(ctx, other, cfg)
    ensures forall i :: 0 <= i < |ctx.pairs| ==>
      Backtests(ctx.pairs, cfg)[i].pair == Backtests(other.pairs, cfg)[i].pair == ctx.pairs[i].pair
  {
    hide Run, Prepare;
    forall i | 0 <= i < |ctx.pairs|
      ensures Backtests(ctx.pairs, cfg)[i].pair == Backtests(other.pairs, cfg)[i].pair == ctx.pairs[i].pair
    {
      assert AgreeUntilSettled(ctx.pairs[i], other.pairs[i], ctx.holdoutStarts[ctx.pairs[i].pair], cfg);
    }
  }

  lemma {:induction false} FilteredAgree(ctx: Context, other: Context, cfg: Config, starts: map<string, int>,
                                         ends: map<string, int>)
    requires ValidContext(ctx) && ValidContext(other) && SameUntilSettled(ctx, other, cfg)
    requires forall i :: 0 <= i < |ctx.pairs| ==>
               && (starts == map[] || ctx.pairs[i].pair in starts)
               && ctx.pairs[i].pair in ends && ends[ctx.pairs[i].pair] <= ctx.holdoutStarts[ctx.pairs[i].pair]
    ensures Covers(starts, Backtests(ctx.pairs, cfg)) && Covers(ends, Backtests(ctx.pairs, cfg))
    ensures Covers(starts, Backtests(other.pairs, cfg)) && Covers(ends, Backtests(other.pairs, cfg))
    ensures AllSameButEnding(FilterResults(Backtests(ctx.pairs, cfg), starts, ends),
                             FilterResults(Backtests(other.pairs, cfg), starts, ends))
  {
    hide Backtest, AgreeUntilSettled, SameButEnding, FilterResult;
    var r, s := Backtests(ctx.pairs, cfg), Backtests(other.pairs, cfg);
    BacktestsKeepPairs(ctx, other, cfg);
    forall i | 0 <= i < |r|
      ensures SameButEnding(FilterResult(r[i], starts, ends), FilterResult(s[i], starts, ends))
    {
      FilteredPairAgrees(ctx.pairs[i], other.pairs[i], ctx.holdoutStarts[ctx.pairs[i].pair], cfg, starts, ends);
    }
  }

  lemma {:induction false} InSampleAgrees(ctx: Context, other: Context, cfg: Config)
    requires ValidContext(ctx) && ValidContext(other)
    requires SameUntilSettled(ctx, other, cfg) && WindowsInOrder(ctx)
    ensures InSampleStats(ctx, cfg) == InSampleStats(other, cfg)
  {
    FilteredAgree(ctx, other, cfg, map[], ctx.validationStarts);
    StatsIgnoreEnding(FilterResults(Backtests(ctx.pairs, cfg), map[], ctx.validationStarts),
                      FilterResults(Backtests(other.pairs, cfg), map[], ctx.validationStarts),
                      ctx.validationStarts, false);
  }

  lemma {:induction false} ValidationAgrees(ctx: Context, other: Context, cfg: Config)
    requires ValidContext(ctx) && ValidContext(other)
    requires SameUntilSettled(ctx, other, cfg)
    ensures ValidationStats(ctx, cfg) == ValidationStats(other, cfg)
  {
    FilteredAgree(ctx, other, cfg, ctx.validationStarts, ctx.holdoutStarts);
    StatsIgnoreEnding(FilterResults(Backtests(ctx.pairs, cfg), ctx.validationStarts, ctx.holdoutStarts),
                      FilterResults(Backtests(other.pairs, cfg), ctx.validationStarts, ctx.holdoutStarts),
                      ctx.holdoutStarts, false);
  }

  /** Beyond the bars on which the trades entered by the holdout start are settled, nothing can change the
      statistics or the score by which the search chooses a configuration. */
  lemma {:induction false} SearchReadsUntilSettled(ctx: Context, other: Context, cfg: Config)
    requires ValidContext(ctx) && ValidContext(other)
    requires SameUntilSettled(ctx, other, cfg) && WindowsInOrder(ctx)
    ensures Evaluate(ctx, cfg) == Evaluate(other, cfg)
  {
    InSampleAgrees(ctx, other, cfg);
    ValidationAgrees(ctx, other, cfg);
  }

  /** Two loads of the same pair that agree on all bars up to `extra` past the one where the holdout starts. */
  ghost predicate AgreePastStart(d: PairData, e: PairData, holdoutStart: int, c: nat, extra: nat)
  {
    && d.pair == e.pair && Loaded(d) && Loaded(e) && Chronological(d.bars) && Chronological(e.bars)
    && c < |d.bars| && d.bars[c].ts == holdoutStart
    && SameStart(d.bars, e.bars, c + extra + 1) && SameRates(d.usd, e.usd, c + extra + 1)
  }

  /** In every case `maxHold + 1` bars past the holdout start are enough. */
  lemma HoldingWindowSettles(d: PairData, e: PairData, holdoutStart: int, c: nat, cfg: Config)
    requires AgreePastStart(d, e, holdoutStart, c, cfg.maxHold + 1)
    ensures AgreeUntilSettled(d, e, holdoutStart, cfg)
  {
    PrepareIsReady(d.bars, d.usd, cfg);
    WindowClears(Prepare(d.bars, d.usd, cfg), cfg, DefaultAccount(d.pair), c, c + cfg.maxHold + 2);
    assert SettledBy(d, cfg, c, c + cfg.maxHold + 2);
  }

  /** No position of the pair is open after `k` bars. */
  ghost predicate FlatAfter(d: PairData, cfg: Config, k: nat)
    requires Loaded(d) && k <= |d.bars|
  {
    PrepareIsReady(d.bars, d.usd, cfg);
    Run(Prepare(d.bars, d.usd, cfg), cfg, DefaultAccount(d.pair), k).position.None?
  }

  /** When no position is open after the bar of the holdout start, no bar past it is read; a pending entry
      does not matter. */
  lemma FlatStartSettles(d: PairData, e: PairData, holdoutStart: int, c: nat, cfg: Config)
    requires AgreePastStart(d, e, holdoutStart, c, 0) && FlatAfter(d, cfg, c + 1)
    ensures AgreeUntilSettled(d, e, holdoutStart, cfg)
  {
    hide Run;
    assert SettledBy(d, cfg, c, c + 1);
  }
}
