/** Entry model of the SMC runner: break filter, order blocks and sizing
    (scripts/run_smc_backtest.py). */
module SmcModel {
  import opened Wrappers
  import opened Reals
  import opened Seqs
  import opened Market
  import opened Costs
  import opened Brackets
  import opened Structure
  import opened Htf

  datatype EntryMode = Immediate | ObRetest | HtfSwingMap

  datatype TagFilter = AllTags | OnlyBos | OnlyChoch

  datatype Timeframe = M15 | H1 | H4

  datatype Config = Config(
    mode: EntryMode, tagFilter: TagFilter, bosOnly: bool, requireZone: bool,
    swingLength: posint, timeframe: Timeframe, obRetestBars: nat,
    atrPeriod: posint, tpAtr: pos, slAtr: pos, maxHold: nat)

  datatype Account = Account(costs: CostBook, pip: pos, initial: pos, riskFraction: pos)

  /** Market features of one pair; all lists have one entry per bar. */
  datatype Prepared = Prepared(
    bars: seq<Bar>, parsedHighs: seq<real>, parsedLows: seq<real>,
    usd: seq<pos>, atr: seq<Option<real>>, breaks: map<nat, Break>)

  ghost predicate WellFormed(p: Prepared)
  {
    && |p.parsedHighs| == |p.parsedLows| == |p.usd| == |p.atr| == |p.bars|
    && forall i :: i in p.breaks ==> p.breaks[i].barIndex == i < |p.bars|
  }

  /** What an order block needs: its leg starts no later than the break. */
  ghost predicate LegsInOrder(p: Prepared)
  {
    forall i :: i in p.breaks ==> p.breaks[i].pivotBar <= p.breaks[i].barIndex
  }

  function EffectiveFilter(cfg: Config): TagFilter
  {
    if cfg.bosOnly then OnlyBos else cfg.tagFilter
  }

  predicate InDiscountHalf(close: real, top: Option<real>, bottom: Option<real>)
  {
    top.Some? && bottom.Some? && top.value > bottom.value && close <= (top.value + bottom.value) / 2.0
  }

  predicate InPremiumHalf(close: real, top: Option<real>, bottom: Option<real>)
  {
    top.Some? && bottom.Some? && top.value > bottom.value && close >= (top.value + bottom.value) / 2.0
  }

  predicate AcceptBreak(b: Break, close: real, cfg: Config)
  {
    && (EffectiveFilter(cfg) == OnlyBos ==> b.tag == BOS)
    && (EffectiveFilter(cfg) == OnlyChoch ==> b.tag == CHoCH)
    && (cfg.requireZone ==>
          if b.side == Long then InDiscountHalf(close, b.swingTop, b.swingBottom)
          else InPremiumHalf(close, b.swingTop, b.swingBottom))
  }

  datatype OrderBlock = OrderBlock(
    side: Direction, high: real, low: real, armedBar: nat, expiryBar: nat, atr: real)

  /** First index of the least value of s[lo..hi]. */
  function ArgMin(s: seq<real>, lo: nat, hi: nat): (i: nat)
    requires lo < hi <= |s|
    ensures lo <= i < hi
  {
    if hi == lo + 1 then lo
    else
      var i := ArgMin(s, lo, hi - 1);
      if s[hi - 1] < s[i] then hi - 1 else i
  }

  /** First index of the greatest value of s[lo..hi]. */
  function ArgMax(s: seq<real>, lo: nat, hi: nat): (i: nat)
    requires lo < hi <= |s|
    ensures lo <= i < hi
  {
    if hi == lo + 1 then lo
    else
      var i := ArgMax(s, lo, hi - 1);
      if s[hi - 1] > s[i] then hi - 1 else i
  }

  /** The extreme candle of the leg: its high and low after volatility parsing. */
  function ExtremeCandle(b: Break, parsedHighs: seq<real>, parsedLows: seq<real>): nat
    requires b.pivotBar <= b.barIndex < |parsedHighs| == |parsedLows|
  {
    if b.side == Long then ArgMin(parsedLows, b.pivotBar, b.barIndex + 1)
    else ArgMax(parsedHighs, b.pivotBar, b.barIndex + 1)
  }

  function ComputeOrderBlock(b: Break, parsedHighs: seq<real>, parsedLows: seq<real>): (real, real)
    requires b.pivotBar <= b.barIndex < |parsedHighs| == |parsedLows|
  {
    var c := ExtremeCandle(b, parsedHighs, parsedLows);
    (parsedHighs[c], parsedLows[c])
  }

  /** The block comes from the first candle of the leg with the extreme parsed price. */
  lemma {:induction false} ArgMinIsFirstLeast(s: seq<real>, lo: nat, hi: nat)
    requires lo < hi <= |s|
    ensures forall j :: lo <= j < hi ==> s[ArgMin(s, lo, hi)] <= s[j]
    ensures forall j :: lo <= j < ArgMin(s, lo, hi) ==> s[ArgMin(s, lo, hi)] < s[j]
  {
    if hi > lo + 1 {
      ArgMinIsFirstLeast(s, lo, hi - 1);
    }
  }

  lemma {:induction false} ArgMaxIsFirstGreatest(s: seq<real>, lo: nat, hi: nat)
    requires lo < hi <= |s|
    ensures forall j :: lo <= j < hi ==> s[j] <= s[ArgMax(s, lo, hi)]
    ensures forall j :: lo <= j < ArgMax(s, lo, hi) ==> s[j] < s[ArgMax(s, lo, hi)]
  {
    if hi > lo + 1 {
      ArgMaxIsFirstGreatest(s, lo, hi - 1);
    }
  }

  lemma OrderBlockIsLegExtreme(b: Break, parsedHighs: seq<real>, parsedLows: seq<real>)
    requires b.pivotBar <= b.barIndex < |parsedHighs| == |parsedLows|
    ensures
      var c := ExtremeCandle(b, parsedHighs, parsedLows);
      && b.pivotBar <= c <= b.barIndex
      && ComputeOrderBlock(b, parsedHighs, parsedLows) == (parsedHighs[c], parsedLows[c])
      && (b.side == Long ==>
            && (forall j :: b.pivotBar <= j <= b.barIndex ==> parsedLows[c] <= parsedLows[j])
            && (forall j :: b.pivotBar <= j < c ==> parsedLows[c] < parsedLows[j]))
      && (b.side == Short ==>
            && (forall j :: b.pivotBar <= j <= b.barIndex ==> parsedHighs[j] <= parsedHighs[c])
            && (forall j :: b.pivotBar <= j < c ==> parsedHighs[j] < parsedHighs[c]))
  {
    ArgMinIsFirstLeast(parsedLows, b.pivotBar, b.barIndex + 1);
    ArgMaxIsFirstGreatest(parsedHighs, b.pivotBar, b.barIndex + 1);
  }

  predicate RetestTriggered(ob: OrderBlock, i: int, bar: Bar)
  {
    if i > ob.expiryBar then false
    else if ob.side == Long then
      if bar.low > ob.high || bar.close < ob.low then false
      else bar.low <= ob.high && bar.close > bar.open && bar.close > ob.low
    else
      if bar.high < ob.low || bar.close > ob.high then false
      else bar.high >= ob.low && bar.close < bar.open && bar.close < ob.high
  }

  predicate Mitigated(ob: OrderBlock, bar: Bar)
  {
    if ob.side == Long then bar.close < ob.low else bar.close > ob.high
  }

  /** A volatile bar has its high and low swapped. */
  function ParsedHigh(bar: Bar, atr: Option<real>): real
  {
    if atr.Some? && bar.high - bar.low >= 2.0 * atr.value then bar.low else bar.high
  }

  function ParsedLow(bar: Bar, atr: Option<real>): real
  {
    if atr.Some? && bar.high - bar.low >= 2.0 * atr.value then bar.high else bar.low
  }

  function StopDistance(cfg: Config, acct: Account, atr: real): real
  {
    Max(atr * cfg.slAtr, acct.pip * 5.0)
  }

  function RiskCash(acct: Account): real
  {
    acct.initial * acct.riskFraction
  }

  /** Units bought so that the distance to the stop is worth the risked cash. */
  function Quantity(acct: Account, risk: pos, usd: pos): real
  {
    ProductPositive(risk, usd);
    RiskCash(acct) / (risk * usd)
  }

  function NetCash(acct: Account, risk: pos, usd: pos, netMove: real): real
  {
    Quantity(acct, risk, usd) * netMove * usd - RoundTripCommission(acct.costs)
  }

  /** The trade recorded when bracket `b` is closed on bar `i`. */
  function CloseTrade(cfg: Config, acct: Account, b: Bracket, bar: Bar, i: nat, usd: pos, reason: Reason): Trade
    requires b.risk > 0.0
  {
    var exitPrice := ExitFill(acct.costs, ExitMid(b, bar, reason), b.side, acct.pip);
    var cash := NetCash(acct, b.risk, usd, Move(b.side, b.entryPrice, exitPrice));
    ProductPositive(acct.initial, acct.riskFraction);
    Trade(b, i, bar.ts, reason, exitPrice, GrossR(b, bar, reason, cfg.tpAtr, cfg.slAtr),
          cash / RiskCash(acct), cash, cash / acct.initial * 100.0, Quantity(acct, b.risk, usd) / 100000.0)
  }

  function TimeframeSeconds(tf: Timeframe): posint
  {
    match tf
    case M15 => 900
    case H1 => 3600
    case H4 => 14400
  }

  /** The break schedule a configuration trades on. */
  function BreakSchedule(bars: seq<Bar>, cfg: Config): map<nat, Break>
  {
    if cfg.mode == HtfSwingMap && cfg.timeframe != M15
    then HtfSchedule(bars, cfg.swingLength, TimeframeSeconds(cfg.timeframe))
    else Schedule(bars, cfg.swingLength, |bars|)
  }

  /** `prepare_smc_data` for one configuration; conversion rates are given. */
  function Prepare(bars: seq<Bar>, usd: seq<pos>, cfg: Config): Prepared
  {
    Prepared(
      bars,
      seq(|bars|, i requires 0 <= i < |bars| => ParsedHigh(bars[i], WilderAtr(bars, 200, i))),
      seq(|bars|, i requires 0 <= i < |bars| => ParsedLow(bars[i], WilderAtr(bars, 200, i))),
      usd,
      seq(|bars|, i requires 0 <= i < |bars| => WilderAtr(bars, cfg.atrPeriod, i)),
      BreakSchedule(bars, cfg))
  }
}
