/** The SMC pipeline never reads ahead, and what lies beyond a cutoff has bounded influence. */
module SmcCausality {
  import opened Wrappers
  import opened Seqs
  import opened Market
  import opened Brackets
  import opened Structure
  import opened StructureRuns
  import opened Htf
  import opened HtfCausality
  import opened SmcModel
  import opened SmcWalk
  import opened SmcRuns
  import opened SmcSolvency

  predicate SameFeatures(p: Prepared, q: Prepared, i: nat)
    requires |p.parsedHighs| == |p.parsedLows| == |p.usd| == |p.atr| == |p.bars|
    requires |q.parsedHighs| == |q.parsedLows| == |q.usd| == |q.atr| == |q.bars|
    requires i < |p.bars| && i < |q.bars|
  {
    && p.parsedHighs[i] == q.parsedHighs[i] && p.parsedLows[i] == q.parsedLows[i]
    && p.usd[i] == q.usd[i] && p.atr[i] == q.atr[i]
    && SameEntry(p.breaks, q.breaks, i)
  }

  /** Two inputs that coincide on their first `k` bars. */
  ghost predicate Agree(p: Prepared, q: Prepared, k: nat)
    requires WellFormed(p) && WellFormed(q)
  {
    SameStart(p.bars, q.bars, k) && forall i :: 0 <= i < k ==> SameFeatures(p, q, i)
  }

  lemma {:induction false} ArgExtremesAgree(s: seq<real>, t: seq<real>, lo: nat, hi: nat)
    requires lo < hi <= |s| && hi <= |t|
    requires forall j :: 0 <= j < hi ==> s[j] == t[j]
    ensures ArgMin(s, lo, hi) == ArgMin(t, lo, hi) && ArgMax(s, lo, hi) == ArgMax(t, lo, hi)
  {
    if hi > lo + 1 {
      ArgExtremesAgree(s, t, lo, hi - 1);
    }
  }

  lemma SettleAgrees(p: Prepared, q: Prepared, cfg: Config, acct: Account, k: nat, i: nat, s: WalkState)
    requires WellFormed(p) && WellFormed(q) && Agree(p, q, k) && i < k
    ensures Settle(p, cfg, acct, i, s) == Settle(q, cfg, acct, i, s)
  {
    SameStartAt(p.bars, q.bars, k, i);
    assert SameFeatures(p, q, i);
  }

  lemma ParsedAgree(p: Prepared, q: Prepared, k: nat, i: nat)
    requires WellFormed(p) && WellFormed(q) && Agree(p, q, k) && i < k
    ensures forall j :: 0 <= j < i + 1 ==> p.parsedHighs[j] == q.parsedHighs[j] && p.parsedLows[j] == q.parsedLows[j]
  {
    forall j | 0 <= j < i + 1
      ensures p.parsedHighs[j] == q.parsedHighs[j] && p.parsedLows[j] == q.parsedLows[j]
    {
      assert SameFeatures(p, q, j);
    }
  }

  lemma BlockAgrees(p: Prepared, q: Prepared, cfg: Config, k: nat, i: nat)
    requires Ready(p, cfg) && Ready(q, cfg) && Agree(p, q, k) && i < k
    requires cfg.mode == ObRetest && i in p.breaks && p.atr[i].Some?
    ensures i in q.breaks && q.atr[i].Some? && BlockAt(p, cfg, i) == BlockAt(q, cfg, i)
  {
    hide ArgMin, ArgMax;
    assert SameFeatures(p, q, i);
    var b := p.breaks[i];
    ParsedAgree(p, q, k, i);
    ArgExtremesAgree(p.parsedHighs, q.parsedHighs, b.pivotBar, i + 1);
    ArgExtremesAgree(p.parsedLows, q.parsedLows, b.pivotBar, i + 1);
  }

  /** On a bar that has a successor in both inputs the same thing is armed. */
  lemma OnBreakAgrees(p: Prepared, q: Prepared, cfg: Config, acct: Account, k: nat, i: nat, s: WalkState)
    requires Ready(p, cfg) && Ready(q, cfg) && Agree(p, q, k) && i + 1 < k
    ensures OnBreak(p, cfg, acct, i, s) == OnBreak(q, cfg, acct, i, s)
  {
    SameStartAt(p.bars, q.bars, k, i);
    assert SameFeatures(p, q, i);
    if cfg.mode == ObRetest && i in p.breaks && p.atr[i].Some? {
      BlockAgrees(p, q, cfg, k, i);
    }
  }

  lemma ArmAgrees(p: Prepared, q: Prepared, cfg: Config, acct: Account, k: nat, i: nat, s: WalkState)
    requires Ready(p, cfg) && Ready(q, cfg) && Agree(p, q, k) && i + 1 < k
    ensures Arm(p, cfg, acct, i, s) == Arm(q, cfg, acct, i, s)
  {
    SameStartAt(p.bars, q.bars, k, i);
    OnBreakAgrees(p, q, cfg, acct, k, i, s);
    OnBreakAgrees(p, q, cfg, acct, k, i, s.(block := None));
  }

  lemma {:induction false} RunAgrees(p: Prepared, q: Prepared, cfg: Config, acct: Account, k: nat, j: nat)
    requires Ready(p, cfg) && Ready(q, cfg) && Agree(p, q, k) && (j < k || j == 0)
    ensures Run(p, cfg, acct, j) == Run(q, cfg, acct, j)
  {
    hide Settle, Arm, SameFeatures;
    if j > 0 {
      RunAgrees(p, q, cfg, acct, k, j - 1);
      var s := Run(p, cfg, acct, j - 1);
      SettleAgrees(p, q, cfg, acct, k, j - 1, s);
      ArmAgrees(p, q, cfg, acct, k, j - 1, Settle(p, cfg, acct, j - 1, s));
      assert Run(p, cfg, acct, j) == StepBar(p, cfg, acct, j - 1, s);
      assert Run(q, cfg, acct, j) == StepBar(q, cfg, acct, j - 1, s);
    }
  }

  lemma StepTradesAreSettled(p: Prepared, cfg: Config, acct: Account, i: nat, s: WalkState)
    requires Ready(p, cfg) && i < |p.bars|
    ensures StepBar(p, cfg, acct, i, s).trades == Settle(p, cfg, acct, i, s).trades
  {
  }

  /** After `k` common bars the trade lists coincide, even when one of the series ends there. */
  lemma TradesAgree(p: Prepared, q: Prepared, cfg: Config, acct: Account, k: nat)
    requires Ready(p, cfg) && Ready(q, cfg) && Agree(p, q, k)
    ensures Run(p, cfg, acct, k).trades == Run(q, cfg, acct, k).trades
  {
    hide Settle, Arm, SameFeatures;
    if k > 0 {
      RunAgrees(p, q, cfg, acct, k, k - 1);
      var s := Run(p, cfg, acct, k - 1);
      SettleAgrees(p, q, cfg, acct, k, k - 1, s);
      StepTradesAreSettled(p, cfg, acct, k - 1, s);
      StepTradesAreSettled(q, cfg, acct, k - 1, s);
      assert Run(p, cfg, acct, k) == StepBar(p, cfg, acct, k - 1, s);
      assert Run(q, cfg, acct, k) == StepBar(q, cfg, acct, k - 1, s);
    }
  }

  /** The trades of the first `k` bars are exactly those that exit before bar `k`. */
  lemma {:induction false} TradesBeforeBar(p: Prepared, cfg: Config, acct: Account, k: nat, n: nat)
    requires Ready(p, cfg) && k <= n <= |p.bars|
    ensures Run(p, cfg, acct, k).trades <= Run(p, cfg, acct, n).trades
    ensures forall j :: |Run(p, cfg, acct, k).trades| <= j < |Run(p, cfg, acct, n).trades| ==>
                          Run(p, cfg, acct, n).trades[j].exitIndex >= k
  {
    hide Run, Ready;
    if k < n {
      TradesBeforeBar(p, cfg, acct, k, n - 1);
      RunExtends(p, cfg, acct, n);
      NewTradeExitsNow(p, cfg, acct, n);
    }
  }

  lemma NewTradeExitsNow(p: Prepared, cfg: Config, acct: Account, n: nat)
    requires Ready(p, cfg) && 0 < n <= |p.bars|
    ensures
      var s, r := Run(p, cfg, acct, n - 1), Run(p, cfg, acct, n);
      |r.trades| == |s.trades| + 1 ==> r.trades[|s.trades|].exitIndex == n - 1
  {
    var s := Run(p, cfg, acct, n - 1);
    var r := StepBar(p, cfg, acct, n - 1, s);
    StepTradesAreSettled(p, cfg, acct, n - 1, s);
    assert Run(p, cfg, acct, n) == r;
  }

  lemma {:induction false} ExitedTradesAreSettled(p: Prepared, cfg: Config, acct: Account, k: nat, n: nat)
    requires Ready(p, cfg) && k <= n <= |p.bars|
    ensures Filter(Run(p, cfg, acct, n).trades, ExitsBefore(k)) == Run(p, cfg, acct, k).trades
  {
    var all, early := Run(p, cfg, acct, n).trades, Run(p, cfg, acct, k).trades;
    TradesBeforeBar(p, cfg, acct, k, n);
    forall j | 0 <= j < |early| ensures ExitsBefore(k)(all[j]) {
      TradesLeaveAtFirstTouch(p, cfg, acct, k, j);
      assert all[j] == early[j];
    }
    FilterSplit(all, |early|, ExitsBefore(k));
  }

  /** Causality of the walk: inputs that agree on their first `k` bars yield the same trades
      with an exit before bar `k`. */
  lemma WalkIsCausal(p: Prepared, q: Prepared, cfg: Config, acct: Account, k: nat)
    requires Ready(p, cfg) && Ready(q, cfg) && Agree(p, q, k)
    ensures Filter(Run(p, cfg, acct, |p.bars|).trades, ExitsBefore(k))
         == Filter(Run(q, cfg, acct, |q.bars|).trades, ExitsBefore(k))
  {
    ExitedTradesAreSettled(p, cfg, acct, k, |p.bars|);
    ExitedTradesAreSettled(q, cfg, acct, k, |q.bars|);
    TradesAgree(p, q, cfg, acct, k);
  }

  /** Trades entered by bar `c` are settled by bar c + maxHold + 1. */
  lemma {:induction false} EntrantsAreSettled(p: Prepared, cfg: Config, acct: Account, c: nat, k: nat)
    requires Ready(p, cfg) && c + cfg.maxHold + 2 == k <= |p.bars|
    ensures Filter(Run(p, cfg, acct, |p.bars|).trades, EntersBy(c)) == Filter(Run(p, cfg, acct, k).trades, EntersBy(c))
  {
    hide Run;
    var all, early := Run(p, cfg, acct, |p.bars|).trades, Run(p, cfg, acct, k).trades;
    TradesBeforeBar(p, cfg, acct, k, |p.bars|);
    assert all == early + all[|early|..];
    FilterConcat(early, all[|early|..], EntersBy(c));
    forall t | t in all[|early|..] ensures !EntersBy(c)(t) {
      var j :| |early| <= j < |all| && all[j] == t;
      TradesLeaveAtFirstTouch(p, cfg, acct, |p.bars|, j);
    }
    FilterNone(all[|early|..], EntersBy(c));
  }

  /** Bounded influence: inputs that agree through bar c + maxHold + 1 yield the same trades
      entered at or before bar `c`, whatever follows. */
  lemma TailHasBoundedInfluence(p: Prepared, q: Prepared, cfg: Config, acct: Account, c: nat)
    requires Ready(p, cfg) && Ready(q, cfg) && Agree(p, q, c + cfg.maxHold + 2)
    ensures Filter(Run(p, cfg, acct, |p.bars|).trades, EntersBy(c))
         == Filter(Run(q, cfg, acct, |q.bars|).trades, EntersBy(c))
  {
    var k := c + cfg.maxHold + 2;
    assert Run(p, cfg, acct, k).trades == Run(q, cfg, acct, k).trades by {
      TradesAgree(p, q, cfg, acct, k);
    }
    EntrantsAreSettled(p, cfg, acct, c, k);
    EntrantsAreSettled(q, cfg, acct, c, k);
  }

  lemma BreaksAreIndexed(bars: seq<Bar>, cfg: Config, i: nat)
    requires i in BreakSchedule(bars, cfg)
    ensures BreakSchedule(bars, cfg)[i].barIndex == i < |bars|
  {
    if cfg.mode == HtfSwingMap && cfg.timeframe != M15 {
      var period := TimeframeSeconds(cfg.timeframe);
      var htf := HtfBars(bars, period);
      MappedEntry(htf, HtfBreaks(bars, cfg.swingLength, period), bars, period, |htf|, i);
      SourceFeeds(htf, HtfBreaks(bars, cfg.swingLength, period), bars, period, |htf|, i);
    } else {
      BreakCarriesItsBar(bars, cfg.swingLength, i);
    }
  }

  lemma BreakCarriesItsBar(bars: seq<Bar>, size: posint, i: nat)
    requires i < |bars| && BreakAt(bars, size, i).Some?
    ensures BreakAt(bars, size, i).value.barIndex == i && BreakAt(bars, size, i).value.pivotBar <= i
  {
    LevelsAreConfirmed(bars, size, i, Long);
    LevelsAreConfirmed(bars, size, i, Short);
  }

  /** What `Prepare` builds is a valid input of the walk. */
  lemma PrepareIsReady(bars: seq<Bar>, usd: seq<pos>, cfg: Config)
    requires |usd| == |bars|
    ensures Ready(Prepare(bars, usd, cfg), cfg)
  {
    var breaks := BreakSchedule(bars, cfg);
    forall i | i in breaks ensures breaks[i].barIndex == i < |bars| {
      BreaksAreIndexed(bars, cfg, i);
    }
    if cfg.mode == ObRetest {
      forall i | i in breaks ensures breaks[i].pivotBar <= breaks[i].barIndex {
        BreakCarriesItsBar(bars, cfg.swingLength, i);
      }
    }
  }

  /** Preparation is causal: ATR, parsed prices and breaks of a bar use no later bar, in every
      entry mode and timeframe. */
  lemma {:induction false} PrepareAgrees(a: seq<Bar>, b: seq<Bar>, usdA: seq<pos>, usdB: seq<pos>, cfg: Config, k: nat)
    requires |usdA| == |a| && |usdB| == |b|
    requires Chronological(a) && Chronological(b)
    requires SameStart(a, b, k) && forall i :: 0 <= i < k ==> usdA[i] == usdB[i]
    ensures Ready(Prepare(a, usdA, cfg), cfg) && Ready(Prepare(b, usdB, cfg), cfg)
    ensures Agree(Prepare(a, usdA, cfg), Prepare(b, usdB, cfg), k)
  {
    PrepareIsReady(a, usdA, cfg);
    PrepareIsReady(b, usdB, cfg);
    forall i | 0 <= i < k ensures SameFeatures(Prepare(a, usdA, cfg), Prepare(b, usdB, cfg), i) {
      SameStartAt(a, b, k, i);
      WilderAtrSameStart(a, b, k, 200, i);
      WilderAtrSameStart(a, b, k, cfg.atrPeriod, i);
      ScheduleAgrees(a, b, cfg, k, i);
    }
  }

  lemma {:induction false} ScheduleAgrees(a: seq<Bar>, b: seq<Bar>, cfg: Config, k: nat, i: nat)
    requires Chronological(a) && Chronological(b) && SameStart(a, b, k) && i < k
    ensures SameEntry(BreakSchedule(a, cfg), BreakSchedule(b, cfg), i)
  {
    if cfg.mode == HtfSwingMap && cfg.timeframe != M15 {
      HtfScheduleSameStart(a, b, cfg.swingLength, TimeframeSeconds(cfg.timeframe), k, i);
    } else {
      BreakSameStart(a, b, cfg.swingLength, k, i);
    }
  }

  /** The trades of one pair, from raw bars and conversion rates. */
  function SmcTrades(bars: seq<Bar>, usd: seq<pos>, cfg: Config, acct: Account): seq<Trade>
    requires |usd| == |bars|
  {
    PrepareIsReady(bars, usd, cfg);
    Run(Prepare(bars, usd, cfg), cfg, acct, |bars|).trades
  }

  /** End-to-end causality, from raw bars to trades. */
  lemma PipelineIsCausal(a: seq<Bar>, b: seq<Bar>, usdA: seq<pos>, usdB: seq<pos>, cfg: Config, acct: Account, k: nat)
    requires |usdA| == |a| && |usdB| == |b|
    requires Chronological(a) && Chronological(b)
    requires SameStart(a, b, k) && forall i :: 0 <= i < k ==> usdA[i] == usdB[i]
    ensures Filter(SmcTrades(a, usdA, cfg, acct), ExitsBefore(k))
         == Filter(SmcTrades(b, usdB, cfg, acct), ExitsBefore(k))
  {
    PrepareAgrees(a, b, usdA, usdB, cfg, k);
    WalkIsCausal(Prepare(a, usdA, cfg), Prepare(b, usdB, cfg), cfg, acct, k);
  }

  /** Bounded influence of the tail, from raw bars to trades. */
  lemma PipelineTailIsBounded(a: seq<Bar>, b: seq<Bar>, usdA: seq<pos>, usdB: seq<pos>, cfg: Config,
                              acct: Account, c: nat)
    requires |usdA| == |a| && |usdB| == |b|
    requires Chronological(a) && Chronological(b)
    requires SameStart(a, b, c + cfg.maxHold + 2)
    requires forall i :: 0 <= i < c + cfg.maxHold + 2 ==> usdA[i] == usdB[i]
    ensures Filter(SmcTrades(a, usdA, cfg, acct), EntersBy(c)) == Filter(SmcTrades(b, usdB, cfg, acct), EntersBy(c))
  {
    PrepareAgrees(a, b, usdA, usdB, cfg, c + cfg.maxHold + 2);
    TailHasBoundedInfluence(Prepare(a, usdA, cfg), Prepare(b, usdB, cfg), cfg, acct, c);
  }
}
