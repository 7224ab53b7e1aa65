/** The terms of every Donchian trade, as relations between its fields, its bars and the balance then
    held, and what peak and drawdown of the ledger mean. */
module DonchianTerms {
  import opened Wrappers
  import opened Seqs
  import opened Market
  import opened Costs
  import opened Donchian
  import opened DonchianExits
  import opened DonchianLedger
  import opened Mirror

  /** The entry is filled one spread and slippage beyond the open, the target lies its distance ahead
      of the fill and the stop its distance behind it, in fixed pips or in ATR. */
  predicate EntryTerms(prm: Params, b: Donchian.Position, open: real, atr: real)
  {
    && Move(b.side, open, b.entryPrice) == (prm.costs.spreadPips + prm.costs.slippagePips) * prm.pip
    && Move(b.side, b.entryPrice, b.tp) == (if prm.useFixedPip then prm.tpPips * prm.pip else atr * prm.tpAtrMult)
    && Move(b.side, b.sl, b.entryPrice) == (if prm.useFixedPip then prm.slPips * prm.pip else atr * prm.slAtrMult)
  }

  /** The bar's extreme in the direction of the trade. */
  function Reach(side: Direction, bar: Bar): real
  {
    Tip(FlipSide(side), bar)
  }

  /** What moves a stop on a bar: break-even at the given percentage of the way to the target, and a
      trail candidate the given ATR behind the close. */
  lemma StopTerms(prm: Params, b: Donchian.Position, bar: Bar, atr: real, active: bool)
    ensures TriggersBreakeven(prm, b, bar) <==>
      prm.useBreakeven &&
      prm.beTriggerPct * Abs(Move(b.side, b.entryPrice, b.tp)) <= 100.0 * Move(b.side, b.entryPrice, Reach(b.side, bar))
    ensures Move(b.side, BaseStop(b, active), b.entryPrice) ==
      if active then 0.0 else Abs(Move(b.side, b.sl, b.entryPrice))
    ensures Move(b.side, TrailCandidate(prm, b.side, bar, atr), bar.close) == atr * prm.trailAtrMult
    ensures Move(b.side, b.entryPrice, FinalTp(b)) == Abs(Move(b.side, b.entryPrice, b.tp))
  {
    var way := TpDistance(b);
    assert way == Abs(Move(b.side, b.entryPrice, b.tp));
    assert 100.0 * BeTrigger(prm, b) == prm.beTriggerPct * way by {
      assert way * (prm.beTriggerPct / 100.0) * 100.0 == way * prm.beTriggerPct;
    }
  }

  /** The tighter of two stops is one of them, and neither lies ahead of it. */
  lemma TighterTerms(side: Direction, a: real, b: real)
    ensures Tighter(side, a, b) == a || Tighter(side, a, b) == b
    ensures Move(side, a, Tighter(side, a, b)) >= 0.0 && Move(side, b, Tighter(side, a, b)) >= 0.0
  {
  }

  /** A counter-signal close is worth its way from entry to close less one slippage, on one percent of
      the balance per distance to the entry stop, or per ATR stop of its own bar if that stop was at
      the entry, less both commissions; on a single unit if there is no distance at all. */
  predicate CounterTerms(prm: Params, b: Donchian.Position, balance: real, atr: real, close: real, pnl: real)
  {
    var distance := if b.sl == b.entryPrice then atr * prm.slAtrMult else Abs(Move(b.side, b.sl, b.entryPrice));
    var way := Move(b.side, b.entryPrice, close) - prm.costs.slippagePips * prm.pip;
    var commission := prm.costs.commissionPerLotSide * prm.costs.lotSize;
    if distance > 0.0 then (pnl + commission + commission) * distance * 100.0 == balance * way
    else pnl == way - commission - commission
  }

  lemma CounterKeepsTerms(prm: Params, b: Donchian.Position, balance: real, atr: real, close: real)
    ensures CounterTerms(prm, b, balance, atr, close, CounterPnl(prm, b, balance, atr, close))
  {
    var distance := if b.sl != b.entryPrice then Abs(b.sl - b.entryPrice) else atr * prm.slAtrMult;
    var way := Move(b.side, b.entryPrice, close) - prm.costs.slippagePips * prm.pip;
    if distance > 0.0 {
      var size := Size(balance, distance);
      assert size * distance == balance * 0.01;
      assert size * way * distance * 100.0 == size * distance * 100.0 * way;
    }
  }

  lemma BornTerms(prm: Params, d: Input, side: Direction, e: nat)
    requires e < |d.bars| && Fires(d, e - 1, side)
    ensures EntryTerms(prm, Born(prm, d, side, e), d.bars[e].open, d.atr[e - 1].value)
    ensures Born(prm, d, side, e).side == side
  {
  }

  ghost predicate RecordTerms(prm: Params, d: Input, r: Record, balance: real)
    requires WellFormed(d)
  {
    && 0 < r.entryIndex <= r.exitIndex < |d.bars| && Fires(d, r.entryIndex - 1, r.side)
    && var b := Born(prm, d, r.side, r.entryIndex);
    && b.side == r.side && b.entryPrice == r.entryPrice
    && EntryTerms(prm, b, d.bars[r.entryIndex].open, d.atr[r.entryIndex - 1].value)
    && (r.reason == CounterSignal ==>
          && r.exitPrice == d.bars[r.exitIndex].close && d.atr[r.exitIndex].Some?
          && CounterTerms(prm, b, balance, d.atr[r.exitIndex].value, r.exitPrice, r.pnl))
  }

  /** The terms hold of every trade of every run, at the balance then held. */
  lemma TradesKeepTerms(prm: Params, d: Input, k: nat, j: nat)
    requires WellFormed(d) && k <= |d.bars| && j < |Run(prm, d, k).records|
    ensures RecordTerms(prm, d, Run(prm, d, k).records[j], BalanceBefore(Run(prm, d, k).records, j))
  {
    hide Run, EntryTerms, CounterTerms, CounterPnl, ExitPnl, Born, BalanceBefore, Lived, BreakevenIs, StopIs;
    TradesLiveAsTheBarsSay(prm, d, k);
    ResultsFollowBars(prm, d, k);
    var records := Run(prm, d, k).records;
    var r, balance := records[j], BalanceBefore(records, j);
    assert r in records;
    assert ClosedRight(prm, d, r) && ResultIs(prm, d, r, balance);
    var b := Born(prm, d, r.side, r.entryIndex);
    BornTerms(prm, d, r.side, r.entryIndex);
    if r.reason == CounterSignal {
      CounterKeepsTerms(prm, b, balance, d.atr[r.exitIndex].value, r.exitPrice);
    }
  }

  // ------------------------------------------------------------ peak and drawdown

  /** How far a balance is below a peak, in percent of the peak. */
  function Below(peak: real, balance: real): real
    requires peak > 0.0
  {
    (peak - balance) / peak * 100.0
  }

  /** The greatest balance after any of the first `j` trades, the start included. */
  ghost predicate PeakIs(records: seq<Record>, j: nat, peak: real)
    requires j <= |records|
  {
    && (forall i :: 0 <= i <= j ==> BalanceBefore(records, i) <= peak)
    && (exists i :: 0 <= i <= j && BalanceBefore(records, i) == peak)
  }

  /** The drawdown is that of some balance below the peak before it, and no balance is further below
      the peak before it. */
  ghost predicate DrawdownIs(records: seq<Record>, drawdown: real)
  {
    && (forall i, peak :: 0 <= i <= |records| && PeakIs(records, i, peak) ==>
          peak > 0.0 && Below(peak, BalanceBefore(records, i)) <= drawdown)
    && (exists i, peak :: 0 <= i <= |records| && PeakIs(records, i, peak)
          && peak > 0.0 && Below(peak, BalanceBefore(records, i)) == drawdown)
  }

  lemma PeakIsOne(records: seq<Record>, j: nat, p: real, q: real)
    requires j <= |records| && PeakIs(records, j, p) && PeakIs(records, j, q)
    ensures p == q
  {
  }

  lemma PrefixBalances(records: seq<Record>, r: Record, i: nat)
    requires i <= |records|
    ensures BalanceBefore(records + [r], i) == BalanceBefore(records, i)
    ensures BalanceBefore(records + [r], |records| + 1) == BalanceBefore(records, |records|) + r.pnl
  {
    assert (records + [r])[..i] == records[..i];
    assert (records + [r])[..|records| + 1] == records + [r] && (records + [r])[..|records|] == records;
    assert records[..|records|] == records;
  }

  lemma PeakOfPrefix(records: seq<Record>, r: Record, j: nat, peak: real)
    requires j <= |records|
    ensures PeakIs(records + [r], j, peak) <==> PeakIs(records, j, peak)
  {
    hide BalanceBefore;
    forall i | 0 <= i <= j ensures BalanceBefore(records + [r], i) == BalanceBefore(records, i) {
      PrefixBalances(records, r, i);
    }
  }

  lemma BookKeepsPeak(s: LoopState, r: Record)
    requires s.balance == BalanceBefore(s.records, |s.records|)
    requires PeakIs(s.records, |s.records|, s.peak) && s.peak > 0.0 && DrawdownIs(s.records, s.maxDrawdownPct)
    ensures
      var t := Book(s, r);
      PeakIs(t.records, |t.records|, t.peak) && t.peak > 0.0 && DrawdownIs(t.records, t.maxDrawdownPct)
  {
    hide BalanceBefore, PeakIs;
    var n, all, t := |s.records|, s.records + [r], Book(s, r);
    NewPeak(s, r);
    assert t.maxDrawdownPct == Max(s.maxDrawdownPct, Below(t.peak, t.balance));
    PrefixBalances(s.records, r, n);
    forall i: int, peak: real | 0 <= i <= n + 1 && PeakIs(all, i, peak)
      ensures peak > 0.0 && Below(peak, BalanceBefore(all, i)) <= t.maxDrawdownPct
    {
      if i <= n {
        PeakOfPrefix(s.records, r, i, peak);
        PrefixBalances(s.records, r, i);
      } else {
        PeakIsOne(all, n + 1, peak, t.peak);
      }
    }
    if t.maxDrawdownPct == s.maxDrawdownPct {
      var i: int, peak: real :| 0 <= i <= n && PeakIs(s.records, i, peak) && peak > 0.0
        && Below(peak, BalanceBefore(s.records, i)) == s.maxDrawdownPct;
      PeakOfPrefix(s.records, r, i, peak);
      PrefixBalances(s.records, r, i);
      assert PeakIs(all, i, peak) && Below(peak, BalanceBefore(all, i)) == t.maxDrawdownPct;
    } else {
      assert PeakIs(all, n + 1, t.peak) && Below(t.peak, BalanceBefore(all, n + 1)) == t.maxDrawdownPct;
    }
  }

  lemma NewPeak(s: LoopState, r: Record)
    requires s.balance == BalanceBefore(s.records, |s.records|)
    requires PeakIs(s.records, |s.records|, s.peak) && s.peak > 0.0
    ensures
      var t := Book(s, r);
      PeakIs(t.records, |t.records|, t.peak) && t.peak > 0.0 && t.balance == BalanceBefore(t.records, |t.records|)
  {
    hide BalanceBefore;
    var n, all := |s.records|, s.records + [r];
    forall i | 0 <= i <= n ensures BalanceBefore(all, i) == BalanceBefore(s.records, i) {
      PrefixBalances(s.records, r, i);
    }
    PrefixBalances(s.records, r, n);
  }

  ghost predicate CurveInv(s: LoopState)
  {
    && s.balance == BalanceBefore(s.records, |s.records|)
    && PeakIs(s.records, |s.records|, s.peak) && s.peak > 0.0 && DrawdownIs(s.records, s.maxDrawdownPct)
  }

  lemma BookKeepsCurve(s: LoopState, r: Record)
    requires CurveInv(s)
    ensures CurveInv(Book(s, r))
  {
    hide PeakIs, DrawdownIs, BalanceBefore;
    BookKeepsPeak(s, r);
    NewPeak(s, r);
  }

  lemma StepKeepsCurve(prm: Params, d: Input, i: nat, s: LoopState)
    requires WellFormed(d) && i < |d.bars| && CurveInv(s)
    ensures CurveInv(StepBar(prm, d, i, s))
  {
    hide PeakIs, DrawdownIs, BalanceBefore, Book, EffectiveStop, Adjust, ExitOn, ExitPnl, CounterPnl, Enter;
    var f := Fill(prm, d, i, s);
    if f.position.Some? {
      var bar, stop := d.bars[i], EffectiveStop(prm, f.position.value, d.bars[i], d.atr[i]);
      var b := Adjust(prm, f.position.value, bar, d.atr[i]);
      var exit := ExitOn(prm, b, bar, i, stop);
      if exit.Some? {
        var (price, reason) := exit.value;
        BookKeepsCurve(f, Record(b.side, b.entryIndex, i, b.entryPrice, price, FinalTp(b), stop,
                                 ExitPnl(prm, b, f.balance, stop, price), reason, b.beActive, b.stops));
      }
    }
    var m := Manage(prm, d, i, f);
    assert CurveInv(m);
    if d.signals[i].Some? && m.position.Some? {
      var b, close := m.position.value, d.bars[i].close;
      BookKeepsCurve(m, Record(b.side, b.entryIndex, i, b.entryPrice, close, b.tp, b.sl,
                               CounterPnl(prm, b, m.balance, d.atr[i].value, close), CounterSignal, b.beActive,
                               b.stops));
    }
  }

  lemma StartHasCurve()
    ensures CurveInv(Start())
  {
    assert BalanceBefore([], 0) == START_BALANCE;
    assert PeakIs([], 0, START_BALANCE);
    assert Below(START_BALANCE, START_BALANCE) == 0.0;
  }

  /** After every bar of every run: the peak is the greatest balance so far, and the drawdown is the
      largest relative fall of a balance below the peak before it. */
  lemma {:induction false} PeakAndDrawdownAreExact(prm: Params, d: Input, k: nat)
    requires WellFormed(d) && k <= |d.bars|
    ensures CurveInv(Run(prm, d, k))
  {
    hide CurveInv, StepBar;
    if k <= prm.warmup {
      StartHasCurve();
    } else {
      PeakAndDrawdownAreExact(prm, d, k - 1);
      StepKeepsCurve(prm, d, k - 1, Run(prm, d, k - 1));
    }
  }
}
