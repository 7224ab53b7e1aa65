/** Sizing, stops and entry conditions of the HTF-Fib runner (scripts/run_htf_fib_backtest.py). */
module FibModel {
  import opened Wrappers
  import opened Reals
  import opened Market
  import opened Costs
  import opened Brackets
  import opened Swing
  import opened SwingRuns

  datatype Config = Config(
    rsiLong: real, rsiShort: real, requireMtfRsi: bool, requireEmaStack: bool, requireCandle: bool,
    invalidateSwing: bool, oneEntryPerSwing: bool, tpAtr: pos, slAtr: pos, maxHold: nat)

  /** A fixed-lot account. */
  datatype Scenario = Scenario(initial: pos, lotSize: pos, commissionPerLotSide: real)

  /** Costs and sizing of one run. Without a scenario the size follows the balance. */
  datatype Params = Params(
    costs: CostBook, pip: pos, initialBalance: pos, riskFraction: real,
    account: Option<Scenario>, stopFraction: Option<real>)

  datatype Features = Features(
    bars: seq<Bar>, ema50: seq<real>, ema200: seq<real>,
    rsi15: seq<Option<real>>, rsi30: seq<Option<real>>, rsi1h: seq<Option<real>>,
    usd: seq<pos>, atr: seq<Option<real>>, events: map<int, seq<PivotEvent>>)

  predicate WellFormed(d: Features)
  {
    |d.ema50| == |d.ema200| == |d.rsi15| == |d.rsi30| == |d.rsi1h| == |d.usd| == |d.atr| == |d.bars|
  }

  function StartingCapital(prm: Params): pos
  {
    if prm.account.Some? then prm.account.value.initial else prm.initialBalance
  }

  /** Units of the fixed lot. */
  function LotUnits(a: Scenario): pos
  {
    a.lotSize * 100000.0
  }

  function LotCommission(a: Scenario): real
  {
    2.0 * a.commissionPerLotSide * a.lotSize
  }

  function FixedLotNetPnl(move: real, usd: pos, a: Scenario): real
  {
    LotUnits(a) * move * usd - LotCommission(a)
  }

  function CapitalFractionStopDistance(a: Scenario, usd: pos, exitSlippage: real, fraction: real): Result<real>
  {
    if !(0.0 < fraction < 1.0) then Err(ValueError)
    else
      ProductPositive(LotUnits(a), usd);
      var distance := (a.initial * fraction - LotCommission(a)) / (LotUnits(a) * usd) - exitSlippage;
      if distance <= 0.0 then Err(ValueError) else Ok(distance)
  }

  /** The stop meets its budget: leaving at the stop, slippage and commission included, costs
      exactly the chosen fraction of the starting capital. */
  lemma CapitalStopLosesFraction(a: Scenario, usd: pos, exitSlippage: real, fraction: real)
    requires CapitalFractionStopDistance(a, usd, exitSlippage, fraction).Ok?
    ensures
      var distance := CapitalFractionStopDistance(a, usd, exitSlippage, fraction).value;
      distance > 0.0 && FixedLotNetPnl(-(distance + exitSlippage), usd, a) == -(a.initial * fraction)
  {
    ProductPositive(LotUnits(a), usd);
    var u := LotUnits(a) * usd;
    var x := (a.initial * fraction - LotCommission(a)) / u;
    assert x * u == a.initial * fraction - LotCommission(a);
    assert LotUnits(a) * -x * usd == -(x * u);
  }

  /** Distance from fill to stop for a position opened on bar `i`. */
  function StopDistance(d: Features, cfg: Config, prm: Params, i: nat, atr: real): Result<real>
    requires WellFormed(d) && i < |d.bars|
  {
    match prm.stopFraction
    case None => Ok(atr * cfg.slAtr)
    case Some(fraction) =>
      if prm.account.None? then Err(ValueError)
      else CapitalFractionStopDistance(prm.account.value, d.usd[i], prm.costs.slippagePips * prm.pip, fraction)
  }

  /** Risked cash, size and net result of a close. */
  function RiskCash(prm: Params, balance: real, risk: pos, usd: pos): real
  {
    if prm.account.None? then balance * prm.riskFraction else LotUnits(prm.account.value) * risk * usd
  }

  function Quantity(prm: Params, balance: real, risk: pos, usd: pos): real
  {
    ProductPositive(risk, usd);
    if prm.account.None? then RiskCash(prm, balance, risk, usd) / (risk * usd) else LotUnits(prm.account.value)
  }

  function NetCash(prm: Params, balance: real, risk: pos, usd: pos, move: real): real
  {
    if prm.account.None?
    then Quantity(prm, balance, risk, usd) * move * usd - RoundTripCommission(prm.costs)
    else FixedLotNetPnl(move, usd, prm.account.value)
  }

  function CloseTrade(d: Features, cfg: Config, prm: Params, b: Bracket, balance: real, i: nat, reason: Reason): Trade
    requires WellFormed(d) && i < |d.bars| && b.risk > 0.0
  {
    var bar, usd := d.bars[i], d.usd[i];
    var exitPrice := ExitFill(prm.costs, ExitMid(b, bar, reason), b.side, prm.pip);
    var cash := NetCash(prm, balance, b.risk, usd, Move(b.side, b.entryPrice, exitPrice));
    var risked := RiskCash(prm, balance, b.risk, usd);
    var lots := if prm.account.Some? then prm.account.value.lotSize else Quantity(prm, balance, b.risk, usd) / 100000.0;
    Trade(b, i, bar.ts, reason, exitPrice, GrossR(b, bar, reason, cfg.tpAtr, cfg.slAtr),
          if risked > 0.0 then cash / risked else 0.0, cash, cash / StartingCapital(prm) * 100.0, lots)
  }

  /** The pivots confirmed on a bar; a high and a low of one HTF bar cancel out. */
  function EventsOn(d: Features, i: nat): seq<PivotEvent>
    requires i < |d.bars|
  {
    var ts := d.bars[i].ts;
    var events := if ts in d.events then d.events[ts] else [];
    if |events| == 2 && events[0].pivotTime == events[1].pivotTime then [] else events
  }

  function ConsumeAll(h: History, events: seq<PivotEvent>): History
    decreases |events|
  {
    if events == [] then h else ConsumeAll(Apply(h, Pivot(events[0])), events[1..])
  }

  /** Price has run through the far end of the swing. */
  predicate SwingBroken(cfg: Config, s: Swing, bar: Bar)
  {
    cfg.invalidateSwing &&
    if s.direction == 1 && s.low.Some? then bar.low < s.low.value
    else s.direction == -1 && s.high.Some? && bar.high > s.high.value
  }

  function SwingOn(d: Features, cfg: Config, i: nat, h: History): History
    requires i < |d.bars|
  {
    var g := ConsumeAll(h, EventsOn(d, i));
    if SwingBroken(cfg, g.swing, d.bars[i]) then Apply(g, SwingRuns.Break) else g
  }

  /** All inputs of the entry test are present. */
  predicate Readable(d: Features, i: nat, s: Swing)
    requires WellFormed(d) && i < |d.bars|
  {
    && s.direction != 0 && s.fib618.Some? && s.fib786.Some?
    && d.atr[i].Some? && d.rsi15[i].Some? && d.rsi30[i].Some? && d.rsi1h[i].Some?
  }

  function PreviousClose(d: Features, i: nat): real
    requires i < |d.bars|
  {
    if i > 0 then d.bars[i - 1].close else d.bars[i].close
  }

  predicate LongCondition(d: Features, cfg: Config, i: nat, s: Swing)
    requires WellFormed(d) && i < |d.bars| && Readable(d, i, s)
  {
    var bar := d.bars[i];
    && s.direction == 1 && s.fib786.value <= bar.close <= s.fib618.value
    && (if cfg.requireEmaStack then bar.close > d.ema50[i] > d.ema200[i] else bar.close > d.ema200[i])
    && d.rsi15[i].value <= cfg.rsiLong
    && (cfg.requireMtfRsi ==> d.rsi30[i].value <= cfg.rsiLong && d.rsi1h[i].value <= cfg.rsiLong)
    && (cfg.requireCandle ==> bar.close > bar.open && bar.close > PreviousClose(d, i))
  }

  predicate ShortCondition(d: Features, cfg: Config, i: nat, s: Swing)
    requires WellFormed(d) && i < |d.bars| && Readable(d, i, s)
  {
    var bar := d.bars[i];
    && s.direction == -1 && s.fib618.value <= bar.close <= s.fib786.value
    && (if cfg.requireEmaStack then bar.close < d.ema50[i] < d.ema200[i] else bar.close < d.ema200[i])
    && d.rsi15[i].value >= cfg.rsiShort
    && (cfg.requireMtfRsi ==> d.rsi30[i].value >= cfg.rsiShort && d.rsi1h[i].value >= cfg.rsiShort)
    && (cfg.requireCandle ==> bar.close < bar.open && bar.close < PreviousClose(d, i))
  }
}
