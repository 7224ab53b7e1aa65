/** The terms of every trade of the HTF-Fib walk, as relations between its fields, its bars, the account
    and the balance then held. */
module FibTerms {
  import opened Wrappers
  import opened Reals
  import opened Seqs
  import opened Market
  import opened Costs
  import opened Brackets
  import opened FibModel
  import opened FibWalk
  import opened FibSignals
  import opened FibLedger

  /** How far behind the fill the stop lies: the ATR stop, or the distance at which leaving, with
      slippage and both commissions, costs the chosen fraction of the account. */
  predicate StopTerms(cfg: Config, prm: Params, atr: real, usd: pos, distance: real)
  {
    match prm.stopFraction
    case None => distance == atr * cfg.slAtr
    case Some(fraction) =>
      && prm.account.Some? && 0.0 < fraction < 1.0 && distance > 0.0
      && var a := prm.account.value;
      && a.lotSize * 100000.0 * usd * (distance + prm.costs.slippagePips * prm.pip)
         + (a.commissionPerLotSide * a.lotSize + a.commissionPerLotSide * a.lotSize) == a.initial * fraction
  }

  /** The entry is filled one spread and slippage beyond the open, the stop lies its distance behind
      the fill and the target the ATR target ahead of it. */
  predicate EntryTerms(cfg: Config, prm: Params, b: Bracket, bar: Bar, usd: pos, atr: real)
  {
    && b.entryMid == bar.open && b.entryTime == bar.ts
    && Move(b.side, bar.open, b.entryPrice) == (prm.costs.spreadPips + prm.costs.slippagePips) * prm.pip
    && StopTerms(cfg, prm, atr, usd, Move(b.side, b.stop, b.entryPrice))
    && b.risk == Abs(Move(b.side, b.stop, b.entryPrice))
    && Move(b.side, b.entryPrice, b.target) == atr * cfg.tpAtr
  }

  /** A fixed lot trades its lots and pays its own commission per side; the other account trades what
      makes the way to the stop worth its fraction of the balance, and pays that of the cost book. */
  predicate SizeTerms(prm: Params, t: Trade, balance: real, usd: pos, commission: real)
  {
    match prm.account
    case Some(a) => t.lots == a.lotSize && commission == a.commissionPerLotSide * a.lotSize
    case None =>
      && t.lots * 100000.0 * (t.bracket.risk * usd) == balance * prm.riskFraction
      && commission == prm.costs.commissionPerLotSide * prm.costs.lotSize
  }

  /** The net result is the way between the fills on the traded lots less both commissions; it is also
      given in what the way to the stop is worth, if that is positive, and in percent of the start. */
  predicate ResultTerms(prm: Params, t: Trade, balance: real, usd: pos, commission: real)
  {
    var b, units := t.bracket, t.lots * 100000.0;
    var risked := if prm.account.None? then balance * prm.riskFraction else units * b.risk * usd;
    && SizeTerms(prm, t, balance, usd, commission)
    && t.netPnl == units * usd * Move(b.side, b.entryPrice, t.exitPrice) - (commission + commission)
    && (if risked > 0.0 then t.netR * risked == t.netPnl else t.netR == 0.0)
    && t.netPct * (if prm.account.Some? then prm.account.value.initial else prm.initialBalance) == 100.0 * t.netPnl
  }

  predicate ExitTerms(prm: Params, t: Trade, open: real)
  {
    var level := if t.reason == Stop then t.bracket.stop else if t.reason == Target then t.bracket.target else open;
    Move(t.bracket.side, t.exitPrice, level) == prm.costs.slippagePips * prm.pip
  }

  lemma StopKeepsTerms(d: Features, cfg: Config, prm: Params, i: nat, atr: real)
    requires WellFormed(d) && i < |d.bars| && StopDistance(d, cfg, prm, i, atr).Ok?
    ensures StopTerms(cfg, prm, atr, d.usd[i], StopDistance(d, cfg, prm, i, atr).value)
  {
    var distance := StopDistance(d, cfg, prm, i, atr).value;
    if prm.stopFraction.Some? {
      var a, usd, slip := prm.account.value, d.usd[i], prm.costs.slippagePips * prm.pip;
      CapitalStopLosesFraction(a, usd, slip, prm.stopFraction.value);
      var u, m := a.lotSize * 100000.0, distance + slip;
      assert u * -m * usd == -(u * usd * m);
      assert 2.0 * a.commissionPerLotSide * a.lotSize
          == a.commissionPerLotSide * a.lotSize + a.commissionPerLotSide * a.lotSize;
    }
  }

  lemma BracketTerms(d: Features, cfg: Config, prm: Params, i: nat, e: Pending)
    requires WellFormed(d) && i < |d.bars| && StopDistance(d, cfg, prm, i, e.atr).Ok?
    ensures EntryTerms(cfg, prm, EntryBracket(d, cfg, prm, i, e, StopDistance(d, cfg, prm, i, e.atr).value),
                       d.bars[i], d.usd[i], e.atr)
  {
    hide StopDistance, StopTerms;
    StopKeepsTerms(d, cfg, prm, i, e.atr);
    var distance := StopDistance(d, cfg, prm, i, e.atr).value;
    var b := EntryBracket(d, cfg, prm, i, e, distance);
    assert Move(b.side, b.stop, b.entryPrice) == distance;
  }

  /** The commission per side that the account pays. */
  function SideCommission(prm: Params): real
  {
    if prm.account.Some? then prm.account.value.commissionPerLotSide * prm.account.value.lotSize
    else prm.costs.commissionPerLotSide * prm.costs.lotSize
  }

  lemma CloseTerms(d: Features, cfg: Config, prm: Params, t: Trade, balance: real)
    requires WellFormed(d) && ResultIs(d, cfg, prm, t, balance)
    ensures ExitTerms(prm, t, d.bars[t.exitIndex].open)
    ensures ResultTerms(prm, t, balance, d.usd[t.exitIndex], SideCommission(prm))
  {
    hide GrossR, Move;
    var b, bar, usd := t.bracket, d.bars[t.exitIndex], d.usd[t.exitIndex];
    ExitFillTerms(prm, b, bar, t.reason);
    var move := Move(b.side, b.entryPrice, t.exitPrice);
    NetTerms(prm, balance, b.risk, usd, move);
    var start := StartingCapital(prm);
    assert t.netPct * start == 100.0 * t.netPnl by {
      assert t.netPnl / start * start == t.netPnl;
    }
    var risked := RiskCash(prm, balance, b.risk, usd);
    if risked > 0.0 {
      assert t.netPnl / risked * risked == t.netPnl;
    }
    var q := Quantity(prm, balance, b.risk, usd);
    assert q / 100000.0 * 100000.0 == q;
  }

  lemma NetTerms(prm: Params, balance: real, risk: pos, usd: pos, move: real)
    ensures
      var q := Quantity(prm, balance, risk, usd);
      && NetCash(prm, balance, risk, usd, move) == q * usd * move - (SideCommission(prm) + SideCommission(prm))
      && (prm.account.Some? ==> q == prm.account.value.lotSize * 100000.0)
      && (prm.account.None? ==> q * (risk * usd) == balance * prm.riskFraction)
  {
    ProductPositive(risk, usd);
    var q := Quantity(prm, balance, risk, usd);
    assert q * move * usd == q * usd * move;
  }

  lemma ExitFillTerms(prm: Params, b: Bracket, bar: Bar, reason: Brackets.Reason)
    ensures
      var mid := ExitMid(b, bar, reason);
      && mid == (if reason == Stop then b.stop else if reason == Target then b.target else bar.open)
      && Move(b.side, ExitFill(prm.costs, mid, b.side, prm.pip), mid) == prm.costs.slippagePips * prm.pip
  {
  }

  /** The terms hold of every trade of every run: entered at the open of the bar after its signal with
      that bar's ATR and this bar's conversion rate, and closed at the rate of its exit bar with the
      balance then held. */
  lemma TradesKeepTerms(d: Features, cfg: Config, prm: Params, k: nat, j: nat)
    requires WellFormed(d) && k <= |d.bars| && Run(d, cfg, prm, k).Ok?
    requires j < |Run(d, cfg, prm, k).value.trades|
    ensures
      var trades := Run(d, cfg, prm, k).value.trades;
      var t, e := trades[j], trades[j].bracket.entryIndex;
      && 0 < e < |d.bars| && t.exitIndex < |d.bars| && d.atr[e - 1].Some?
      && EntryTerms(cfg, prm, t.bracket, d.bars[e], d.usd[e], d.atr[e - 1].value)
      && ExitTerms(prm, t, d.bars[t.exitIndex].open)
      && ResultTerms(prm, t, BalanceBefore(prm, trades, j), d.usd[t.exitIndex], SideCommission(prm))
  {
    hide Run, EntryTerms, ExitTerms, ResultTerms, StopDistance, EntryBracket, CloseTrade, MemoryIs, PendingIsGenuine,
         LongCondition, ShortCondition, HistoryAt, BalanceBefore, SideCommission;
    SignalsAreGenuine(d, cfg, prm, k);
    ResultsFollowFills(d, cfg, prm, k);
    var trades := Run(d, cfg, prm, k).value.trades;
    var t := trades[j];
    assert t in trades;
    var e := t.bracket.entryIndex;
    BracketTerms(d, cfg, prm, e, Pending(t.bracket.side, d.atr[e - 1].value));
    CloseTerms(d, cfg, prm, t, BalanceBefore(prm, trades, j));
  }
}
