/** A search whose score is moved by a bar of the holdout: a validation trade is still open when the holdout
    starts. */
module HoldoutPeek {
  import opened Wrappers
  import opened Seqs
  import opened Market
  import opened Brackets
  import opened SmcModel
  import opened SmcWalk
  import opened SmcSolvency
  import opened SmcGap
  import opened SmcCausality
  import opened SmcSettled
  import opened Windows
  import opened Autosearch

  const PAIR := "EUR/USD"

  /** The bars of the gap series, with a last bar that stands still at `price`. */
  function LoadEndingAt(price: real): (bars: seq<Bar>)
    ensures |bars| == 5 && SameStart(GAP_BARS, bars, 4) && Chronological(bars)
  {
    GAP_BARS[..4] + [Bar(3600, price, price, price, price)]
  }

  function DataEndingAt(price: real): PairData
  {
    PairData(PAIR, LoadEndingAt(price), GAP_RATES)
  }

  /** Validation from the first bar on, holdout from bar 3 on. */
  function ContextEndingAt(price: real): Context
  {
    Context([DataEndingAt(price)], map[PAIR := 0], map[PAIR := 2700])
  }

  lemma GapAccountIsDefault()
    ensures DefaultAccount(PAIR) == GAP_ACCOUNT
  {
    forall i | 0 <= i <= |PAIR| ensures !("JPY" <= PAIR[i..]) {
      assert i < |PAIR| ==> PAIR[i..][0] == PAIR[i] != "JPY"[0];
    }
  }

  /** Every such load has the short of bar 3 open when bar 4 comes. */
  lemma ShortIsOpen(price: real) returns (b: Bracket)
    ensures b.side == Short && b.entryIndex == 3 && b.entryPrice == 7.9996 && b.risk == 1.5 && b.entryTime == 2700
    ensures
      var q := Prepare(LoadEndingAt(price), GAP_RATES, GAP_CONFIG);
      && Ready(q, GAP_CONFIG)
      && var s := Run(q, GAP_CONFIG, GAP_ACCOUNT, 4);
      s.position == Some(b) && s.trades == []
  {
    hide LoadEndingAt, Prepare, GapInput, Run, Agree, Ready, EntryBracket;
    b := GapPosition();
    LoadsPrepareAlike(price);
    LedgersAgree(GapInput(), Prepare(LoadEndingAt(price), GAP_RATES, GAP_CONFIG), GAP_CONFIG, GAP_ACCOUNT, 4);
  }

  lemma LoadsPrepareAlike(price: real)
    ensures
      var p, q := GapInput(), Prepare(LoadEndingAt(price), GAP_RATES, GAP_CONFIG);
      Ready(p, GAP_CONFIG) && Ready(q, GAP_CONFIG) && Agree(p, q, 4) && |q.bars| == 5
  {
    hide LoadEndingAt, Agree, Ready, BreakSchedule, ParsedHigh, ParsedLow, WilderAtr;
    assert |GAP_BARS| == 5 && |GAP_RATES| == 5;
    PrepareAgrees(GAP_BARS, LoadEndingAt(price), GAP_RATES, GAP_RATES, GAP_CONFIG, 4);
  }

  /** Time closes it at the open of bar 4. */
  lemma ClosedAt(p: Prepared, s: WalkState, b: Bracket, price: real) returns (t: Trade)
    requires Ready(p, GAP_CONFIG) && |p.bars| == 5 && p.usd == GAP_RATES
    requires p.bars[4] == Bar(3600, price, price, price, price)
    requires s.position == Some(b) && s.trades == []
    requires b.side == Short && b.entryIndex == 3 && b.risk == 1.5 && b.entryPrice == 7.9996
    ensures StepBar(p, GAP_CONFIG, GAP_ACCOUNT, 4, s).trades == [t]
    ensures t.bracket == b && t.netPnl == 1000.0 * (7.9994 - price) / 1.5 - 6.0
  {
    assert ExitNow(p, GAP_CONFIG, 4, s) == Some(Time);
    t := CloseTrade(GAP_CONFIG, GAP_ACCOUNT, b, p.bars[4], 4, 1.0, Time);
    assert t.exitPrice == price + 0.0002;
    NetCashInRisk(GAP_ACCOUNT, 1.5, 1.0, 7.9994 - price);
  }

  lemma OneTrade(price: real) returns (t: Trade)
    ensures Backtest(DataEndingAt(price), GAP_CONFIG).trades == [t] && t.bracket.entryTime == 2700
    ensures t.netPnl == 1000.0 * (7.9994 - price) / 1.5 - 6.0
  {
    hide Prepare, StepBar;
    var b := ShortIsOpen(price);
    var q := Prepare(LoadEndingAt(price), GAP_RATES, GAP_CONFIG);
    PreparedBars(DataEndingAt(price), GAP_CONFIG);
    PreparedRates(price);
    var s := Run(q, GAP_CONFIG, GAP_ACCOUNT, 4);
    t := ClosedAt(q, s, b, price);
    assert Run(q, GAP_CONFIG, GAP_ACCOUNT, 5) == StepBar(q, GAP_CONFIG, GAP_ACCOUNT, 4, s);
    GapAccountIsDefault();
  }

  lemma PreparedRates(price: real)
    ensures Prepare(LoadEndingAt(price), GAP_RATES, GAP_CONFIG).usd == GAP_RATES
  {
  }

  /** The score of a search with one validation trade and none before. */
  function ScoreOfOne(pnl: real): real
  {
    var pct := pnl / 100000.0 * 100.0;
    pct - 0.5 * Max(0.0, -pct) - 7.25
  }

  lemma PooledOne(r: PairResult, cutoffs: map<string, int>)
    requires r.pair in cutoffs && |r.trades| <= 1
    requires r.trades != [] ==> r.trades[0].bracket.entryTime <= cutoffs[r.pair]
    ensures Pooled([r], cutoffs, false, 1) == r.trades
  {
    assert Pooled([r], cutoffs, false, 0) == [];
    FilterAll(r.trades, OnSide(cutoffs[r.pair], false));
  }

  lemma OneTradeStats(r: PairResult, cutoffs: map<string, int>)
    requires r.pair in cutoffs && |r.trades| <= 1 && r.initial == 100000.0
    requires r.trades != [] ==> r.trades[0].bracket.entryTime <= cutoffs[r.pair]
    ensures
      var w := Aggregate([r], cutoffs, false);
      && w.trades == |r.trades|
      && w.totalNetPct == (if r.trades == [] then 0.0 else r.trades[0].netPnl) / 100000.0 * 100.0
  {
    hide Pooled, ProfitablePairs, CurveAfter, ProfitFactor, Wins;
    PooledOne(r, cutoffs);
    NetPctIsPooledPnl([r], cutoffs, false);
    if r.trades != [] {
      assert r.trades == [r.trades[0]] && r.trades[..0] == [];
    }
  }

  lemma ContextIsValid(price: real)
    ensures ValidContext(ContextEndingAt(price))
  {
  }

  lemma ScoreEndingAt(price: real)
    ensures ValidContext(ContextEndingAt(price))
    ensures Evaluate(ContextEndingAt(price), GAP_CONFIG).score
         == Score(ScoreOfOne(1000.0 * (7.9994 - price) / 1.5 - 6.0))
  {
    hide Backtest, Aggregate;
    ContextIsValid(price);
    var ctx := ContextEndingAt(price);
    var t := OneTrade(price);
    var all := Backtests(ctx.pairs, GAP_CONFIG);
    var r := Backtest(DataEndingAt(price), GAP_CONFIG);
    BacktestOf(price);
    assert all == [r];
    var early := FilterResult(r, map[], ctx.validationStarts);
    var late := FilterResult(r, ctx.validationStarts, ctx.holdoutStarts);
    FilterNone([t], Within(None, Some(0)));
    FilterAll([t], Within(Some(0), Some(2700)));
    assert FilterResults(all, map[], ctx.validationStarts) == [early];
    assert FilterResults(all, ctx.validationStarts, ctx.holdoutStarts) == [late];
    assert early.trades == [] && late.trades == [t];
    OneTradeStats(early, ctx.validationStarts);
    OneTradeStats(late, ctx.holdoutStarts);
  }

  lemma BacktestOf(price: real)
    ensures
      var r := Backtest(DataEndingAt(price), GAP_CONFIG);
      r.pair == PAIR && r.initial == 100000.0
  {
    hide Run, Prepare;
  }

  /** Two searches on loads that agree through the bar on which the holdout starts: in one the first holdout
      bar opens at 8, in the other at 300. It closes the validation trade, and moves the score. */
  lemma HoldoutBarMovesScore()
    ensures ValidContext(ContextEndingAt(8.0)) && ValidContext(ContextEndingAt(300.0))
    ensures AgreePastStart(DataEndingAt(8.0), DataEndingAt(300.0), 2700, 3, 0)
    ensures Evaluate(ContextEndingAt(8.0), GAP_CONFIG).score != Evaluate(ContextEndingAt(300.0), GAP_CONFIG).score
  {
    hide Evaluate, ValidContext;
    ScoreEndingAt(8.0);
    ScoreEndingAt(300.0);
    assert ScoreOfOne(1000.0 * (7.9994 - 8.0) / 1.5 - 6.0) > ScoreOfOne(1000.0 * (7.9994 - 300.0) / 1.5 - 6.0);
  }
}
