/** An open position with its stop and target, as both walks hold it
    (scripts/run_smc_backtest.py, scripts/run_htf_fib_backtest.py). */
module Brackets {
  import opened Wrappers
  import opened Seqs
  import opened Market
  import opened Costs

  datatype Reason = Stop | Target | Time

  datatype Bracket = Bracket(
    side: Direction, entryIndex: nat, entryTime: int, entryMid: real,
    entryPrice: real, stop: real, target: real, risk: real)

  /** A closed trade. The source's record has times and prices; the bracket and the bar
      indices say where they came from. */
  datatype Trade = Trade(
    bracket: Bracket, exitIndex: nat, exitTime: int, reason: Reason, exitPrice: real,
    grossR: real, netR: real, netPnl: real, netPct: real, lots: real)

  function OpenBracket(side: Direction, i: nat, bar: Bar, stopDistance: real, targetDistance: real,
                       costs: CostBook, pip: real): Bracket
  {
    var entry := EntryFill(costs, bar.open, side, pip);
    match side
    case Long =>
      Bracket(side, i, bar.ts, bar.open, entry, entry - stopDistance, entry + targetDistance,
              Abs(entry - (entry - stopDistance)))
    case Short =>
      Bracket(side, i, bar.ts, bar.open, entry, entry + stopDistance, entry - targetDistance,
              Abs(entry - (entry + stopDistance)))
  }

  predicate TouchesStop(b: Bracket, bar: Bar)
  {
    if b.side == Long then bar.low <= b.stop else bar.high >= b.stop
  }

  predicate TouchesTarget(b: Bracket, bar: Bar)
  {
    if b.side == Long then bar.high >= b.target else bar.low <= b.target
  }

  predicate Touches(b: Bracket, bar: Bar)
  {
    TouchesStop(b, bar) || TouchesTarget(b, bar)
  }

  /** Why the position leaves on this bar, if it does. The walks pass `stopWins == true`;
      the other value is a hypothetical tie-break in favour of the target. */
  function ExitReason(b: Bracket, bar: Bar, i: int, maxHold: nat, stopWins: bool): Option<Reason>
  {
    if i - b.entryIndex > maxHold then Some(Time)
    else if TouchesStop(b, bar) && (stopWins || !TouchesTarget(b, bar)) then Some(Stop)
    else if TouchesTarget(b, bar) then Some(Target)
    else None
  }

  /** The mid price an exit is filled from. */
  function ExitMid(b: Bracket, bar: Bar, reason: Reason): real
  {
    match reason
    case Stop => b.stop
    case Target => b.target
    case Time => bar.open
  }

  function GrossR(b: Bracket, bar: Bar, reason: Reason, tpAtr: pos, slAtr: pos): real
    requires b.risk > 0.0
  {
    match reason
    case Stop => -1.0
    case Target => tpAtr / slAtr
    case Time => Move(b.side, b.entryMid, bar.open) / b.risk
  }

  /** The exit rule of the walks is the shared tie-break contract. */
  lemma ExitReasonIsSameBarExit(b: Bracket, bar: Bar, i: int, maxHold: nat, side: string)
    requires ParseSide(side) == Some(b.side) && i - b.entryIndex <= maxHold
    ensures SameBarExit(side, bar.high, bar.low, b.target, b.stop)
         == Ok(match ExitReason(b, bar, i, maxHold, true)
               case Some(Stop) => Some(StopLoss)
               case Some(Target) => Some(TakeProfit)
               case _ => None)
  {
  }

  /** No bar of lo..hi touches the bracket. */
  ghost predicate Untouched(b: Bracket, bars: seq<Bar>, lo: nat, hi: nat)
    requires hi <= |bars|
  {
    forall j :: lo <= j < hi ==> !Touches(b, bars[j])
  }

  /** The reference definition of a correct exit: the first bar of the holding window that
      touches stop or target, the stop winning, and otherwise the open of the bar after it. */
  ghost predicate FirstTouchExit(t: Trade, bars: seq<Bar>, maxHold: nat, costs: CostBook, pip: real)
  {
    var b := t.bracket;
    && b.entryIndex <= t.exitIndex < |bars|
    && t.exitTime == bars[t.exitIndex].ts
    && Untouched(b, bars, b.entryIndex, t.exitIndex)
    && (t.reason == Time ==>
          && t.exitIndex == b.entryIndex + maxHold + 1
          && t.exitPrice == ExitFill(costs, bars[t.exitIndex].open, b.side, pip))
    && (t.reason == Stop ==>
          && t.exitIndex <= b.entryIndex + maxHold
          && TouchesStop(b, bars[t.exitIndex])
          && t.exitPrice == ExitFill(costs, b.stop, b.side, pip))
    && (t.reason == Target ==>
          && t.exitIndex <= b.entryIndex + maxHold
          && TouchesTarget(b, bars[t.exitIndex]) && !TouchesStop(b, bars[t.exitIndex])
          && t.exitPrice == ExitFill(costs, b.target, b.side, pip))
  }

  /** The reference definition of a correct fill at the open of bar `entryIndex`. */
  ghost predicate OpenFill(b: Bracket, bars: seq<Bar>, costs: CostBook, pip: real)
  {
    && b.entryIndex < |bars|
    && b.entryTime == bars[b.entryIndex].ts
    && b.entryMid == bars[b.entryIndex].open
    && b.entryPrice == EntryFill(costs, b.entryMid, b.side, pip)
    && b.risk == Abs(b.entryPrice - b.stop)
  }

  function TotalPnl(trades: seq<Trade>): real
  {
    if trades == [] then 0.0 else TotalPnl(trades[..|trades| - 1]) + trades[|trades| - 1].netPnl
  }

  lemma TotalPnlSnoc(trades: seq<Trade>, t: Trade)
    ensures TotalPnl(trades + [t]) == TotalPnl(trades) + t.netPnl
  {
    assert (trades + [t])[..|trades|] == trades;
  }

  /** Consecutive trades leave at least `gap` bars between an exit and the next entry. */
  ghost predicate Spaced(trades: seq<Trade>, gap: nat)
  {
    forall i, j :: 0 <= i < j < |trades| ==> trades[i].exitIndex + gap <= trades[j].bracket.entryIndex
  }

  /** Trades that are closed before bar `k`. */
  function ExitsBefore(k: nat): Trade -> bool
  {
    (t: Trade) => t.exitIndex < k
  }

  /** Trades entered at or before bar `k`. */
  function EntersBy(k: nat): Trade -> bool
  {
    (t: Trade) => t.bracket.entryIndex <= k
  }
}
