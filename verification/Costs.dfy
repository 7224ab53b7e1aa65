/** Execution costs (src/backtest/cost_book.py) and the shared same-bar tie-break
    (src/backtest/exits.py). */
module Costs {
  import opened Wrappers
  import opened Market
  import Text

  datatype CostBook = CostBook(spreadPips: real, slippagePips: real, commissionPerLotSide: real, lotSize: real)

  predicate ValidBook(c: CostBook)
  {
    c.spreadPips >= 0.0 && c.slippagePips >= 0.0 && c.commissionPerLotSide >= 0.0 && c.lotSize > 0.0
  }

  function MakeBook(spreadPips: real, slippagePips: real, commission: real, lotSize: real): (r: Result<CostBook>)
    ensures r.Ok? <==> ValidBook(CostBook(spreadPips, slippagePips, commission, lotSize))
    ensures r.Ok? ==> r.value == CostBook(spreadPips, slippagePips, commission, lotSize)
    ensures r.Err? ==> r.error == ValueError
  {
    if spreadPips < 0.0 || slippagePips < 0.0 then Err(ValueError)
    else if commission < 0.0 then Err(ValueError)
    else if lotSize <= 0.0 then Err(ValueError)
    else Ok(CostBook(spreadPips, slippagePips, commission, lotSize))
  }

  function PipSize(pair: string): pos
  {
    if Text.Contains(pair, "JPY") then 0.01 else 0.0001
  }

  function EntryFill(c: CostBook, mid: real, side: Direction, pip: real): real
  {
    var offset := (c.spreadPips + c.slippagePips) * pip;
    match side
    case Long => mid + offset
    case Short => mid - offset
  }

  function ExitFill(c: CostBook, price: real, side: Direction, pip: real): real
  {
    var slip := c.slippagePips * pip;
    match side
    case Long => price - slip
    case Short => price + slip
  }

  function RoundTripCommission(c: CostBook): real
  {
    2.0 * c.commissionPerLotSide * c.lotSize
  }

  /** Signed price move in the direction of the trade. */
  function Move(side: Direction, from: real, to: real): real
  {
    match side
    case Long => to - from
    case Short => from - to
  }

  /** A round trip from one mid to another loses exactly the spread and two slippages,
      whichever the side. */
  lemma RoundTripCost(c: CostBook, side: Direction, entryMid: real, exitMid: real, pip: real)
    ensures Move(side, EntryFill(c, entryMid, side, pip), ExitFill(c, exitMid, side, pip))
         == Move(side, entryMid, exitMid) - (c.spreadPips + 2.0 * c.slippagePips) * pip
  {
    assert (c.spreadPips + c.slippagePips) * pip + c.slippagePips * pip
        == (c.spreadPips + 2.0 * c.slippagePips) * pip;
  }

  datatype Touch = TakeProfit | StopLoss

  function ParseSide(side: string): Option<Direction>
  {
    var key := Text.Lower(side);
    if key == "buy" || key == "long" then Some(Long)
    else if key == "sell" || key == "short" then Some(Short)
    else None
  }

  /** Which level is hit on a bar; the stop wins when both trade in its range. */
  function SameBarExit(side: string, high: real, low: real, tp: real, sl: real): Result<Option<Touch>>
  {
    match ParseSide(side)
    case Some(Long) =>
      if low <= sl then Ok(Some(StopLoss)) else if high >= tp then Ok(Some(TakeProfit)) else Ok(None)
    case Some(Short) =>
      if high >= sl then Ok(Some(StopLoss)) else if low <= tp then Ok(Some(TakeProfit)) else Ok(None)
    case None => Err(ValueError)
  }
}
