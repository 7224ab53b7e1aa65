/** The terms of every trade of the SMC walk, as relations between its fields and its bars, and when
    the walk is flat. */
module SmcTerms {
  import opened Wrappers
  import opened Reals
  import opened Seqs
  import opened Market
  import opened Costs
  import opened Brackets
  import opened SmcModel
  import opened SmcWalk
  import opened SmcRuns
  import opened SmcCompleteness

  /** A walk is flat on a bar exactly when it holds nothing and waits for no fill when the bar begins. */
  lemma FlatExactly(p: Prepared, cfg: Config, acct: Account, i: nat)
    requires Ready(p, cfg) && i < |p.bars|
    ensures FlatOn(p, cfg, acct, i) <==>
      Run(p, cfg, acct, i).position.None? && Run(p, cfg, acct, i).pending.None?
  {
    hide Run, CloseTrade, EntryBracket, ExitReason;
  }

  /** The entry is filled one spread and slippage beyond the open; the stop lies the larger of the ATR
      stop and five pips behind the fill, and the target the ATR target ahead of it. */
  predicate EntryTerms(cfg: Config, acct: Account, b: Bracket, open: real, atr: real)
  {
    var c := acct.costs;
    && b.entryMid == open
    && Move(b.side, open, b.entryPrice) == (c.spreadPips + c.slippagePips) * acct.pip
    && Move(b.side, b.stop, b.entryPrice) == b.risk
    && atr * cfg.slAtr <= b.risk && acct.pip * 5.0 <= b.risk && (b.risk == atr * cfg.slAtr || b.risk == acct.pip * 5.0)
    && Move(b.side, b.entryPrice, b.target) == atr * cfg.tpAtr
  }

  /** The level a trade leaves at, and the exit filled one slippage behind it. */
  predicate ExitTerms(acct: Account, t: Trade, open: real)
  {
    var level := if t.reason == Stop then t.bracket.stop else if t.reason == Target then t.bracket.target else open;
    Move(t.bracket.side, t.exitPrice, level) == acct.costs.slippagePips * acct.pip
  }

  /** Its lots make the way to the stop worth the risked cash. The net result is the way between the
      fills on those lots less both commissions, and is also given in risked cash and in percent of the
      start; the gross one leaves out all costs and is counted in stop distances. */
  predicate ResultTerms(cfg: Config, acct: Account, t: Trade, open: real, usd: pos)
  {
    var b, units, cash := t.bracket, t.lots * 100000.0, acct.initial * acct.riskFraction;
    && units * (b.risk * usd) == cash
    && t.netPnl == units * usd * Move(b.side, b.entryPrice, t.exitPrice)
                   - (acct.costs.commissionPerLotSide * acct.costs.lotSize
                      + acct.costs.commissionPerLotSide * acct.costs.lotSize)
    && t.netR * cash == t.netPnl && t.netPct * acct.initial == 100.0 * t.netPnl
    && match t.reason
       case Stop => t.grossR == -1.0
       case Target => t.grossR * cfg.slAtr == cfg.tpAtr
       case Time => t.grossR * b.risk == Move(b.side, b.entryMid, open)
  }

  lemma BracketTerms(p: Prepared, cfg: Config, acct: Account, i: nat, side: Direction, atr: real)
    requires i < |p.bars|
    ensures EntryTerms(cfg, acct, EntryBracket(p, cfg, acct, i, side, atr), p.bars[i].open, atr)
  {
  }

  lemma CloseTerms(cfg: Config, acct: Account, b: Bracket, bar: Bar, i: nat, usd: pos, reason: Brackets.Reason)
    requires b.risk > 0.0
    ensures
      var t := CloseTrade(cfg, acct, b, bar, i, usd, reason);
      ExitTerms(acct, t, bar.open) && ResultTerms(cfg, acct, t, bar.open, usd)
  {
    hide GrossR, Move, ExitFill, ExitMid;
    var t := CloseTrade(cfg, acct, b, bar, i, usd, reason);
    ProductPositive(b.risk, usd);
    ProductPositive(acct.initial, acct.riskFraction);
    var q, cash := Quantity(acct, b.risk, usd), acct.initial * acct.riskFraction;
    assert q / 100000.0 * 100000.0 == q && q * (b.risk * usd) == cash;
    var move := Move(b.side, b.entryPrice, t.exitPrice);
    assert q * move * usd == q * usd * move;
    assert t.netPnl / cash * cash == t.netPnl;
    assert t.netPnl / acct.initial * 100.0 * acct.initial == 100.0 * t.netPnl by {
      assert t.netPnl / acct.initial * acct.initial == t.netPnl;
    }
    FillTerms(acct, b, bar, reason);
    GrossTerms(cfg, b, bar, reason);
  }

  lemma FillTerms(acct: Account, b: Bracket, bar: Bar, reason: Brackets.Reason)
    ensures
      var mid := ExitMid(b, bar, reason);
      && mid == (if reason == Stop then b.stop else if reason == Target then b.target else bar.open)
      && Move(b.side, ExitFill(acct.costs, mid, b.side, acct.pip), mid) == acct.costs.slippagePips * acct.pip
  {
  }

  lemma GrossTerms(cfg: Config, b: Bracket, bar: Bar, reason: Brackets.Reason)
    requires b.risk > 0.0
    ensures
      var g := GrossR(b, bar, reason, cfg.tpAtr, cfg.slAtr);
      match reason
      case Stop => g == -1.0
      case Target => g * cfg.slAtr == cfg.tpAtr
      case Time => g * b.risk == Move(b.side, b.entryMid, bar.open)
  {
  }

  /** The terms hold of every trade of every run: entered at the open of the bar after its signal, on
      its side and with its ATR, and closed on its exit bar. */
  lemma TradesKeepTerms(p: Prepared, cfg: Config, acct: Account, k: nat, j: nat)
    requires Ready(p, cfg) && k <= |p.bars| && j < |Run(p, cfg, acct, k).trades|
    ensures
      var s := Run(p, cfg, acct, k);
      && j < |s.origins|
      && var o, t := s.origins[j], s.trades[j];
      && o.bar + 1 == t.bracket.entryIndex < |p.bars| && t.bracket.side == o.side && t.exitIndex < |p.bars|
      && EntryTerms(cfg, acct, t.bracket, p.bars[o.bar + 1].open, o.atr)
      && ExitTerms(acct, t, p.bars[t.exitIndex].open)
      && ResultTerms(cfg, acct, t, p.bars[t.exitIndex].open, p.usd[t.exitIndex])
  {
    hide Run, CloseTrade, FirstTouchExit, EntryTerms, ExitTerms, ResultTerms, StopDistance;
    TradesLeaveAtFirstTouch(p, cfg, acct, k, j);
    var o, t := Run(p, cfg, acct, k).origins[j], Run(p, cfg, acct, k).trades[j];
    BracketTerms(p, cfg, acct, o.bar + 1, o.side, o.atr);
    CloseTerms(cfg, acct, t.bracket, p.bars[t.exitIndex], t.exitIndex, p.usd[t.exitIndex], t.reason);
  }

  /** A volatile bar enters an order block upside down: on prepared bars the parsed prices are its high
      and low, exchanged exactly when its range is at least twice its 200-bar ATR. */
  lemma ParsedExactly(bars: seq<Bar>, usd: seq<pos>, cfg: Config, c: nat)
    requires |usd| == |bars| && c < |bars| && ValidBar(bars[c])
    ensures
      var p := Prepare(bars, usd, cfg);
      var wide := WilderAtr(bars, 200, c).Some? && 2.0 * WilderAtr(bars, 200, c).value <= bars[c].high - bars[c].low;
      && Max(p.parsedHighs[c], p.parsedLows[c]) == bars[c].high && Min(p.parsedHighs[c], p.parsedLows[c]) == bars[c].low
      && (p.parsedHighs[c] < p.parsedLows[c] <==> wide && bars[c].low < bars[c].high)
  {
    hide BreakSchedule, WilderAtr;
  }
}
