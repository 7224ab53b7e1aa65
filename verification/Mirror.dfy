/** Prices seen in the mirror: every price negated, highs and lows exchanged, and long and short
    with them. Costs, cash and times stay as they are. */
module Mirror {
  import opened Wrappers
  import opened Market
  import opened Costs
  import opened Brackets

  function FlipSide(side: Direction): Direction
  {
    if side == Long then Short else Long
  }

  function FlipPrice(x: Option<real>): Option<real>
  {
    if x.Some? then Some(-x.value) else None
  }

  function FlipBar(b: Bar): Bar
  {
    Bar(b.ts, -b.open, -b.low, -b.high, -b.close)
  }

  function FlipBars(bars: seq<Bar>): (r: seq<Bar>)
    ensures |r| == |bars| && forall i :: 0 <= i < |r| ==> r[i] == FlipBar(bars[i])
  {
    seq(|bars|, i requires 0 <= i < |bars| => FlipBar(bars[i]))
  }

  function FlipPrices(x: seq<real>): (r: seq<real>)
    ensures |r| == |x| && forall i :: 0 <= i < |r| ==> r[i] == -x[i]
  {
    seq(|x|, i requires 0 <= i < |x| => -x[i])
  }

  /** An oscillator between zero and one hundred. */
  function FlipRsi(r: Option<real>): Option<real>
  {
    if r.Some? then Some(100.0 - r.value) else None
  }

  function FlipRsis(x: seq<Option<real>>): (r: seq<Option<real>>)
    ensures |r| == |x| && forall i :: 0 <= i < |r| ==> r[i] == FlipRsi(x[i])
  {
    seq(|x|, i requires 0 <= i < |x| => FlipRsi(x[i]))
  }

  function FlipBracket(b: Bracket): Bracket
  {
    Bracket(FlipSide(b.side), b.entryIndex, b.entryTime, -b.entryMid, -b.entryPrice, -b.stop, -b.target, b.risk)
  }

  /** The same trade in the mirror: its results are the same. */
  function FlipTrade(t: Trade): Trade
  {
    t.(bracket := FlipBracket(t.bracket), exitPrice := -t.exitPrice)
  }

  function FlipTrades(trades: seq<Trade>): (r: seq<Trade>)
    ensures |r| == |trades| && forall i :: 0 <= i < |r| ==> r[i] == FlipTrade(trades[i])
  {
    seq(|trades|, i requires 0 <= i < |trades| => FlipTrade(trades[i]))
  }

  function FlipPosition(b: Option<Bracket>): Option<Bracket>
  {
    if b.Some? then Some(FlipBracket(b.value)) else None
  }

  lemma TradesFlipSnoc(trades: seq<Trade>, t: Trade)
    ensures FlipTrades(trades + [t]) == FlipTrades(trades) + [FlipTrade(t)]
  {
  }

  lemma ResultsStay(t: Trade)
    ensures FlipTrade(t).netPnl == t.netPnl && FlipBracket(t.bracket).risk == t.bracket.risk
  {
  }

  lemma FlipTwice(bars: seq<Bar>)
    ensures FlipBars(FlipBars(bars)) == bars
  {
    assert forall i :: 0 <= i < |bars| ==> FlipBar(FlipBar(bars[i])) == bars[i];
  }

  lemma FillsFlip(c: CostBook, x: real, side: Direction, pip: real)
    ensures EntryFill(c, -x, FlipSide(side), pip) == -EntryFill(c, x, side, pip)
    ensures ExitFill(c, -x, FlipSide(side), pip) == -ExitFill(c, x, side, pip)
  {
  }

  lemma MoveFlips(side: Direction, from: real, to: real)
    ensures Move(FlipSide(side), -from, -to) == Move(side, from, to)
  {
  }

  lemma OpenBracketFlips(side: Direction, i: nat, bar: Bar, stop: real, target: real, costs: CostBook, pip: real)
    ensures OpenBracket(FlipSide(side), i, FlipBar(bar), stop, target, costs, pip)
         == FlipBracket(OpenBracket(side, i, bar, stop, target, costs, pip))
  {
    hide EntryFill;
    FillsFlip(costs, bar.open, side, pip);
  }

  lemma ExitFlips(b: Bracket, bar: Bar, i: int, maxHold: nat, stopWins: bool, reason: Reason)
    ensures ExitReason(FlipBracket(b), FlipBar(bar), i, maxHold, stopWins) == ExitReason(b, bar, i, maxHold, stopWins)
    ensures ExitMid(FlipBracket(b), FlipBar(bar), reason) == -ExitMid(b, bar, reason)
  {
  }

  lemma GrossFlips(b: Bracket, bar: Bar, reason: Reason, tpAtr: pos, slAtr: pos)
    requires b.risk > 0.0
    ensures GrossR(FlipBracket(b), FlipBar(bar), reason, tpAtr, slAtr) == GrossR(b, bar, reason, tpAtr, slAtr)
  {
    MoveFlips(b.side, b.entryMid, bar.open);
  }

  lemma {:induction false} ExtremesFlip(bars: seq<Bar>, lo: nat, hi: nat)
    requires lo < hi <= |bars|
    ensures MaxHigh(FlipBars(bars), lo, hi) == -MinLow(bars, lo, hi)
    ensures MinLow(FlipBars(bars), lo, hi) == -MaxHigh(bars, lo, hi)
  {
    if hi > lo + 1 {
      ExtremesFlip(bars, lo, hi - 1);
    }
  }

  lemma TrueRangeFlips(bars: seq<Bar>, i: nat)
    requires i < |bars|
    ensures TrueRange(FlipBars(bars), i) == TrueRange(bars, i)
  {
  }

  lemma {:induction false} RangeSumFlips(bars: seq<Bar>, n: nat)
    requires n <= |bars|
    ensures RangeSum(FlipBars(bars), n) == RangeSum(bars, n)
  {
    hide FlipBars, TrueRange;
    if n > 0 {
      RangeSumFlips(bars, n - 1);
      TrueRangeFlips(bars, n - 1);
    }
  }

  /** The mirror keeps every ATR. */
  lemma {:induction false} AtrFlips(bars: seq<Bar>, period: posint, i: nat)
    requires i < |bars|
    ensures WilderAtr(FlipBars(bars), period, i) == WilderAtr(bars, period, i)
  {
    hide FlipBars, TrueRange;
    if i == period - 1 {
      RangeSumFlips(bars, period);
    } else if i >= period {
      AtrFlips(bars, period, i - 1);
      TrueRangeFlips(bars, i);
    }
  }
}
