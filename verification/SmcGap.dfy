/** A series on which a gap takes the balance of the SMC walk below its floor. */
module SmcGap {
  import opened Wrappers
  import opened Market
  import opened Costs
  import opened Brackets
  import opened Structure
  import opened SmcModel
  import opened SmcWalk
  import opened SmcSolvency
  import opened SmcCausality

  /** A low, a high, a close below the low, a quiet bar, and a gap up. */
  const GAP_BARS := [
    Bar(0, 10.0, 10.0, 9.0, 10.0), Bar(900, 10.0, 11.0, 10.0, 10.0), Bar(1800, 10.0, 10.0, 8.0, 8.0),
    Bar(2700, 8.0, 8.0, 8.0, 8.0), Bar(3600, 300.0, 300.0, 300.0, 300.0)]

  const GAP_RATES: seq<pos> := [1.0, 1.0, 1.0, 1.0, 1.0]

  const GAP_CONFIG := Config(Immediate, AllTags, false, false, 1, M15, 16, 2, 1.0, 1.0, 0)

  const GAP_ACCOUNT := Account(CostBook(2.0, 2.0, 3.0, 1.0), 0.0001, 100000.0, 0.01)

  function GapInput(): (p: Prepared)
    ensures p.bars == GAP_BARS && p.usd == GAP_RATES
  {
    Prepare(GAP_BARS, GAP_RATES, GAP_CONFIG)
  }

  /** The tracker takes bar 0 for a swing low, and the close of bar 2 breaks it. */
  lemma GapBreaks()
    ensures BreakAt(GAP_BARS, 1, 0).None? && BreakAt(GAP_BARS, 1, 1).None?
    ensures BreakAt(GAP_BARS, 1, 2).Some? && BreakAt(GAP_BARS, 1, 2).value.side == Short
  {
    var bars := GAP_BARS;
    var t1 := RunTracker(bars, 1, 1);
    assert t1 == NEW_TRACKER;
    assert MaxHigh(bars, 1, 2) == 11.0 && MinLow(bars, 1, 2) == 10.0;
    var t2 := RunTracker(bars, 1, 2);
    assert t2.leg == BullishLeg && t2.swingLow.currentLevel == Some(9.0) && !t2.swingLow.crossed;
    assert t2.swingHigh == NEW_PIVOT;
    assert MaxHigh(bars, 2, 3) == 10.0 && MinLow(bars, 2, 3) == 8.0;
  }

  lemma GapAtr()
    ensures WilderAtr(GAP_BARS, 2, 2) == Some(1.5)
  {
    var bars := GAP_BARS;
    assert TrueRange(bars, 0) == 1.0 && TrueRange(bars, 1) == 1.0 && TrueRange(bars, 2) == 2.0;
    assert RangeSum(bars, 1) == 1.0 && RangeSum(bars, 2) == 2.0;
    assert WilderAtr(bars, 2, 1) == Some(1.0);
  }

  /** The run until the short entered at bar 3 is open. */
  lemma GapPosition() returns (b: Bracket)
    ensures Ready(GapInput(), GAP_CONFIG)
    ensures b.side == Short && b.entryIndex == 3 && b.entryTime == 2700 && b.entryMid == 8.0
    ensures b.stop == 9.4996 && b.risk == 1.5
    ensures b.entryPrice == 7.9996
    ensures
      var s := Run(GapInput(), GAP_CONFIG, GAP_ACCOUNT, 4);
      s.position == Some(b) && s.pending.None? && s.trades == [] && s.balance == 100000.0
  {
    hide RunTracker, WilderAtr, TrackBar, ParsedHigh, ParsedLow;
    var p, cfg, acct := GapInput(), GAP_CONFIG, GAP_ACCOUNT;
    PrepareIsReady(GAP_BARS, GAP_RATES, cfg);
    GapBreaks();
    GapAtr();
    assert 0 !in p.breaks && 1 !in p.breaks && 2 in p.breaks && p.breaks[2].side == Short;
    assert p.atr[2] == Some(1.5);
    var s := Start(acct);
    assert Run(p, cfg, acct, 0) == s;
    assert StepBar(p, cfg, acct, 0, s) == s;
    assert Run(p, cfg, acct, 1) == s;
    assert StepBar(p, cfg, acct, 1, s) == s;
    assert Run(p, cfg, acct, 2) == s;
    var armed := StepBar(p, cfg, acct, 2, s);
    assert armed.pending == Some(Pending(Short, 1.5)) && armed.position.None? && armed.block.None?;
    assert armed.trades == [] && armed.balance == 100000.0;
    assert Run(p, cfg, acct, 3) == armed;
    b := EntryBracket(p, cfg, acct, 3, Short, 1.5);
    var held := StepBar(p, cfg, acct, 3, armed);
    assert held.position == Some(b) && held.pending.None? && held.trades == [] && held.balance == 100000.0;
    assert Run(p, cfg, acct, 4) == held;
  }

  /** Without the condition on the bars the floor fails: the short is closed by time at the open
      of bar 4, far above its stop, and the balance falls below zero. */
  lemma GapBreachesFloor()
    ensures Ready(GapInput(), GAP_CONFIG) && ValidBook(GAP_ACCOUNT.costs) && !OpensInPreviousRange(GAP_BARS)
    ensures
      var s := Run(GapInput(), GAP_CONFIG, GAP_ACCOUNT, 5);
      !NoGaps(GapInput(), s.trades) && s.balance < 0.0 < BalanceFloor(GAP_ACCOUNT)
  {
    var p, cfg, acct := GapInput(), GAP_CONFIG, GAP_ACCOUNT;
    var b := GapPosition();
    hide GapInput, StepBar, BreakAt, TrackBar;
    var s := Run(p, cfg, acct, 4);
    GapExit(p, s, b);
    assert Run(p, cfg, acct, 5) == StepBar(p, cfg, acct, 4, s);
    assert GAP_BARS[4].open > GAP_BARS[3].high;
  }

  lemma GapExit(p: Prepared, s: WalkState, b: Bracket)
    requires Ready(p, GAP_CONFIG) && p.bars == GAP_BARS && p.usd == GAP_RATES
    requires s.position == Some(b) && s.trades == [] && s.balance == 100000.0
    requires b.side == Short && b.entryIndex == 3 && b.stop == 9.4996 && b.risk == 1.5 && b.entryPrice == 7.9996
    ensures
      var r := StepBar(p, GAP_CONFIG, GAP_ACCOUNT, 4, s);
      !NoGaps(p, r.trades) && r.balance < 0.0
  {
    var cfg, acct := GAP_CONFIG, GAP_ACCOUNT;
    assert ExitNow(p, cfg, 4, s) == Some(Time);
    var t := CloseTrade(cfg, acct, b, p.bars[4], 4, 1.0, Time);
    assert t.exitPrice == 300.0002;
    NetCashInRisk(acct, 1.5, 1.0, -292.0006);
    var r := StepBar(p, cfg, acct, 4, s);
    assert r.trades == [t];
    assert t in r.trades;
  }
}
