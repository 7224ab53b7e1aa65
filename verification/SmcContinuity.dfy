/** The bars on which no SMC trade can gap through its stop: exactly those that open inside the range of the
    bar before. */
module SmcContinuity {
  import opened Wrappers
  import opened Reals
  import opened Market
  import opened Costs
  import opened Brackets
  import opened Structure
  import opened SmcModel
  import opened SmcWalk
  import opened SmcSolvency

  // ------------------------------------------------------------ one gap, one trade through it

  const FREE := CostBook(0.0, 0.0, 0.0, 1.0)

  /** Bar `j` opens outside the range of the bar before it. */
  predicate GapsAt(bars: seq<Bar>, j: nat)
    requires 0 < j < |bars|
  {
    bars[j].open < bars[j - 1].low || bars[j - 1].high < bars[j].open
  }

  /** The side that the gap runs against. */
  function GapSide(bars: seq<Bar>, j: nat): Direction
    requires 0 < j < |bars|
  {
    if bars[j].open > bars[j - 1].high then Short else Long
  }

  /** From the open of bar j - 1 to a stop half way into the gap. */
  function GapDistance(bars: seq<Bar>, j: nat): (distance: pos)
    requires 0 < j < |bars| && ValidBar(bars[j - 1]) && GapsAt(bars, j)
  {
    if GapSide(bars, j) == Short then (bars[j - 1].high + bars[j].open) / 2.0 - bars[j - 1].open
    else bars[j - 1].open - (bars[j - 1].low + bars[j].open) / 2.0
  }

  /** A target beyond the range of bar j - 1. */
  function TargetFactor(bars: seq<Bar>, j: nat): (factor: pos)
    requires 0 < j < |bars| && ValidBar(bars[j - 1]) && GapsAt(bars, j)
  {
    var range := bars[j - 1].high - bars[j - 1].low + 1.0;
    QuotientNonNegative(range, GapDistance(bars, j));
    range / GapDistance(bars, j)
  }

  function GapTraderConfig(bars: seq<Bar>, j: nat): Config
    requires 0 < j < |bars| && ValidBar(bars[j - 1]) && GapsAt(bars, j)
  {
    Config(Immediate, AllTags, false, false, 1, M15, 16, 14, TargetFactor(bars, j), 1.0, 0)
  }

  function GapTraderAccount(bars: seq<Bar>, j: nat): Account
    requires 0 < j < |bars| && ValidBar(bars[j - 1]) && GapsAt(bars, j)
  {
    Account(FREE, GapDistance(bars, j) / 5.0, 100000.0, 0.01)
  }

  /** A single break, two bars before the gap. */
  function GapTrader(bars: seq<Bar>, j: nat): (p: Prepared)
    requires 2 <= j < |bars| && ValidBar(bars[j - 1]) && GapsAt(bars, j)
    ensures p.bars == bars && WellFormed(p)
  {
    var n, distance := |bars|, GapDistance(bars, j);
    Prepared(bars, seq(n, _ => 0.0), seq(n, _ => 0.0), seq(n, _ => 1.0), seq(n, _ => Some(distance)),
             map[j - 2 := Break(j - 2, GapSide(bars, j), BOS, 0.0, 0, None, None)])
  }

  /** Before the break nothing happens. */
  lemma {:induction false} IdleBefore(bars: seq<Bar>, j: nat, k: nat)
    requires 2 <= j < |bars| && ValidBar(bars[j - 1]) && GapsAt(bars, j) && k <= j - 2
    ensures Run(GapTrader(bars, j), GapTraderConfig(bars, j), GapTraderAccount(bars, j), k)
         == Start(GapTraderAccount(bars, j))
  {
    if k > 0 {
      IdleBefore(bars, j, k - 1);
    }
  }

  /** The bracket opened at bar j - 1, and that this bar does not touch it. */
  lemma BracketSpansBar(bars: seq<Bar>, j: nat) returns (b: Bracket)
    requires 2 <= j < |bars| && ValidBar(bars[j - 1]) && GapsAt(bars, j)
    ensures
      var p, cfg, acct := GapTrader(bars, j), GapTraderConfig(bars, j), GapTraderAccount(bars, j);
      b == EntryBracket(p, cfg, acct, j - 1, GapSide(bars, j), GapDistance(bars, j))
    ensures b.entryIndex == j - 1 && b.risk > 0.0 && !Touches(b, bars[j - 1])
    ensures if b.side == Long then bars[j].open < b.stop else b.stop < bars[j].open
  {
    hide GapDistance;
    var p, cfg, acct := GapTrader(bars, j), GapTraderConfig(bars, j), GapTraderAccount(bars, j);
    var d := GapDistance(bars, j);
    b := EntryBracket(p, cfg, acct, j - 1, GapSide(bars, j), d);
    assert StopDistance(cfg, acct, d) == d;
    assert d * TargetFactor(bars, j) == bars[j - 1].high - bars[j - 1].low + 1.0;
    GapStop(bars, j);
  }

  /** The stop lies beyond the range of bar j - 1 and before the open of bar `j`. */
  lemma GapStop(bars: seq<Bar>, j: nat)
    requires 2 <= j < |bars| && ValidBar(bars[j - 1]) && GapsAt(bars, j)
    ensures
      var o, d := bars[j - 1].open, GapDistance(bars, j);
      if GapSide(bars, j) == Short then bars[j - 1].high < o + d < bars[j].open
      else bars[j].open < o - d < bars[j - 1].low
  {
  }

  /** The break is taken at once, the position lives through bar j - 1, and time closes it at the open of
      bar `j`, beyond its stop. */
  lemma GapIsTraded(bars: seq<Bar>, j: nat)
    requires 2 <= j < |bars| && ValidBar(bars[j - 1]) && GapsAt(bars, j)
    ensures
      var p := GapTrader(bars, j);
      !NoGaps(p, Run(p, GapTraderConfig(bars, j), GapTraderAccount(bars, j), j + 1).trades)
  {
    var p, cfg, acct := GapTrader(bars, j), GapTraderConfig(bars, j), GapTraderAccount(bars, j);
    var d, side := GapDistance(bars, j), GapSide(bars, j);
    IdleBefore(bars, j, j - 2);
    var b := BracketSpansBar(bars, j);
    var armed, held := Run(p, cfg, acct, j - 1), Run(p, cfg, acct, j);
    assert armed == Start(acct).(pending := Some(Pending(side, d)), origins := [Origin(j - 2, side, d, None)]) by {
      hide GapDistance, TargetFactor;
      assert p.atr[j - 2] == Some(d) && j - 2 in p.breaks;
    }
    HeldThrough(p, cfg, acct, j, armed, b);
    ClosedByTime(p, cfg, acct, j, held, b);
  }

  lemma HeldThrough(p: Prepared, cfg: Config, acct: Account, j: nat, s: WalkState, b: Bracket)
    requires Ready(p, cfg) && 0 < j < |p.bars| && s.position.None? && s.pending.Some? && s.trades == []
    requires b == EntryBracket(p, cfg, acct, j - 1, s.pending.value.side, s.pending.value.atr)
    requires b.entryIndex == j - 1 && cfg.maxHold == 0 && !Touches(b, p.bars[j - 1])
    ensures
      var r := StepBar(p, cfg, acct, j - 1, s);
      r.position == Some(b) && r.trades == []
  {
    hide EntryBracket;
  }

  lemma ClosedByTime(p: Prepared, cfg: Config, acct: Account, j: nat, s: WalkState, b: Bracket)
    requires Ready(p, cfg) && 0 < j < |p.bars| && s.position == Some(b) && s.trades == []
    requires b.entryIndex == j - 1 && cfg.maxHold == 0 && b.risk > 0.0
    requires if b.side == Long then p.bars[j].open < b.stop else b.stop < p.bars[j].open
    ensures !NoGaps(p, StepBar(p, cfg, acct, j, s).trades)
  {
    assert ExitNow(p, cfg, j, s) == Some(Time);
    var t := CloseTrade(cfg, acct, b, p.bars[j], j, p.usd[j], Time);
    var r := StepBar(p, cfg, acct, j, s);
    assert r.trades == [t];
    assert t in r.trades;
  }

  // ------------------------------------------------------------ the exact condition

  /** No run on these bars, whatever its breaks, ATR list, configuration and account, has a time exit
      beyond a stop. */
  ghost predicate NeverGaps(bars: seq<Bar>)
  {
    forall p: Prepared, cfg: Config, acct: Account, k: nat ::
      Ready(p, cfg) && p.bars == bars && k <= |bars| ==> NoGaps(p, Run(p, cfg, acct, k).trades)
  }

  lemma NeverGapsExactly(bars: seq<Bar>)
    requires ValidBars(bars)
    ensures NeverGaps(bars) <==> OpensInPreviousRange(bars)
  {
    hide Run, NoGaps, GapTrader, GapTraderConfig, GapTraderAccount;
    if OpensInPreviousRange(bars) {
      forall p: Prepared, cfg: Config, acct: Account, k: nat | Ready(p, cfg) && p.bars == bars && k <= |bars|
        ensures NoGaps(p, Run(p, cfg, acct, k).trades)
      {
        NoGapsInContinuousBars(p, cfg, acct, k);
      }
    } else {
      var j :| 2 <= j < |bars| && !(bars[j - 1].low <= bars[j].open <= bars[j - 1].high);
      assert ValidBar(bars[j - 1]) && GapsAt(bars, j);
      GapTraderIsReady(bars, j);
      GapIsTraded(bars, j);
    }
  }

  lemma GapTraderIsReady(bars: seq<Bar>, j: nat)
    requires 2 <= j < |bars| && ValidBar(bars[j - 1]) && GapsAt(bars, j)
    ensures Ready(GapTrader(bars, j), GapTraderConfig(bars, j))
  {
  }
}
