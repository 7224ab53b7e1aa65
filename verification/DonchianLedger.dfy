/** What every Donchian trade adds to the balance, from the bars and the balance then held. */
module DonchianLedger {
  import opened Wrappers
  import opened Seqs
  import opened Costs
  import opened Donchian
  import opened DonchianRuns
  import opened DonchianExits

  function BalanceBefore(records: seq<Record>, j: nat): real
    requires j <= |records|
  {
    START_BALANCE + TotalPnl(records[..j])
  }

  /** The stop in force when a trade left. */
  function LastStop(r: Record): real
    requires r.stops != []
  {
    r.stops[|r.stops| - 1]
  }

  /** Result and recorded levels of a closed trade, given the balance held before it. */
  ghost predicate ResultIs(prm: Params, d: Input, r: Record, balance: real)
    requires WellFormed(d)
  {
    && r.entryIndex <= r.exitIndex < |d.bars| && Fires(d, r.entryIndex - 1, r.side) && r.stops != []
    && var b := Born(prm, d, r.side, r.entryIndex);
    if r.reason == CounterSignal then
      && HasAtr(d.atr[r.exitIndex]) && r.tp == b.tp && r.sl == b.sl
      && r.pnl == CounterPnl(prm, b, balance, d.atr[r.exitIndex].value, d.bars[r.exitIndex].close)
    else
      && r.tp == FinalTp(b) && r.sl == LastStop(r)
      && r.pnl == ExitPnl(prm, b, balance, LastStop(r), r.exitPrice)
  }

  ghost predicate ResultsInv(prm: Params, d: Input, s: LoopState)
    requires WellFormed(d)
  {
    && s.balance == BalanceBefore(s.records, |s.records|)
    && forall j :: 0 <= j < |s.records| ==> ResultIs(prm, d, s.records[j], BalanceBefore(s.records, j))
  }

  lemma BookKeepsResults(prm: Params, d: Input, s: LoopState, r: Record)
    requires WellFormed(d) && ResultsInv(prm, d, s) && ResultIs(prm, d, r, s.balance)
    ensures ResultsInv(prm, d, Book(s, r))
  {
    hide ResultIs;
    var all := s.records + [r];
    assert s.records[..|s.records|] == s.records && all[..|all|] == all;
    forall j | 0 <= j < |all| ensures ResultIs(prm, d, all[j], BalanceBefore(all, j)) {
      assert all[..j] == s.records[..j];
    }
    assert all[..|all| - 1] == s.records;
  }

  lemma ManageKeepsResults(prm: Params, d: Input, s: LoopState, k: nat)
    requires WellFormed(d) && k < |d.bars| && ResultsInv(prm, d, s)
    requires s.position.Some? ==> OpenRight(prm, d, s.position.value, k)
    ensures ResultsInv(prm, d, Manage(prm, d, k, s))
  {
    hide Book, ResultsInv, BreakevenIs, TrailIs, Lived, Fires, EffectiveStop, ExitPnl;
    if s.position.Some? {
      var x, bar := s.position.value, d.bars[k];
      var stop := EffectiveStop(prm, x, bar, d.atr[k]);
      var b := Adjust(prm, x, bar, d.atr[k]);
      var exit := ExitOn(prm, b, bar, k, stop);
      if exit.Some? {
        var (price, reason) := exit.value;
        var born := Born(prm, d, x.side, x.entryIndex);
        assert FinalTp(b) == FinalTp(born);
        ExitPnlReadsTerms(prm, b, born, s.balance, stop, price);
        EnteredBefore(prm, d, x, k);
        BookKeepsResults(prm, d, s, Record(b.side, b.entryIndex, k, b.entryPrice, price, FinalTp(b), stop,
                                           ExitPnl(prm, b, s.balance, stop, price), reason, b.beActive, b.stops));
      } else {
        SamePosition(prm, d, s, s.(position := Some(b)));
      }
    }
  }

  lemma ExitPnlReadsTerms(prm: Params, b: Position, c: Position, balance: real, stop: real, price: real)
    requires b.side == c.side && b.entryPrice == c.entryPrice && b.sl == c.sl
    ensures ExitPnl(prm, b, balance, stop, price) == ExitPnl(prm, c, balance, stop, price)
  {
    hide Size;
  }

  lemma EnteredBefore(prm: Params, d: Input, x: Position, k: nat)
    requires WellFormed(d) && k <= |d.bars| && OpenRight(prm, d, x, k)
    ensures x.entryIndex <= k
  {
  }

  lemma SamePosition(prm: Params, d: Input, s: LoopState, t: LoopState)
    requires WellFormed(d) && ResultsInv(prm, d, s) && t.records == s.records && t.balance == s.balance
    ensures ResultsInv(prm, d, t)
  {
  }

  lemma CounterKeepsResults(prm: Params, d: Input, s: LoopState, k: nat)
    requires WellFormed(d) && k < |d.bars| && d.signals[k].Some? && ResultsInv(prm, d, s)
    requires s.position.Some? ==> HeldRight(prm, d, s.position.value, k)
    ensures ResultsInv(prm, d, Counter(prm, d, k, s))
  {
    hide Book, ResultsInv, BreakevenIs, TrailIs, Lived, Fires, StopIs, Size;
    if s.position.Some? && Opposed(d, k, s.position.value.side) {
      var b, close := s.position.value, d.bars[k].close;
      var pnl := CounterPnl(prm, b, s.balance, d.atr[k].value, close);
      BookKeepsResults(prm, d, s, Record(b.side, b.entryIndex, k, b.entryPrice, close, b.tp, b.sl, pnl,
                                         CounterSignal, b.beActive, b.stops));
    }
  }

  lemma StepKeepsResults(prm: Params, d: Input, s: LoopState, k: nat)
    requires WellFormed(d) && k < |d.bars| && LifeInv(prm, d, s, k) && ResultsInv(prm, d, s)
    ensures ResultsInv(prm, d, StepBar(prm, d, k, s))
  {
    hide Manage, Counter, ResultsInv, ClosedRight, OpenRight, HeldRight;
    var f := Fill(prm, d, k, s);
    SamePosition(prm, d, s, f);
    FillIsRight(prm, d, s, k);
    var m := Manage(prm, d, k, f);
    ManageKeepsResults(prm, d, f, k);
    ManageKeepsLife(prm, d, f, k);
    if d.signals[k].Some? {
      CounterKeepsResults(prm, d, m, k);
      var c := Counter(prm, d, k, m);
      SamePosition(prm, d, c, Arm(d, k, c));
    }
  }

  /** Every closed trade of every run booked the result that its own bars, its stop in force and
      the balance then held give it. */
  lemma {:induction false} ResultsFollowBars(prm: Params, d: Input, k: nat)
    requires WellFormed(d) && k <= |d.bars|
    ensures ResultsInv(prm, d, Run(prm, d, k))
  {
    hide StepBar, ResultIs, ResultsInv, LifeInv;
    if k <= prm.warmup {
      NothingBooked(prm, d);
    } else {
      ResultsFollowBars(prm, d, k - 1);
      TradesLiveAsTheBarsSay(prm, d, k - 1);
      StepKeepsResults(prm, d, Run(prm, d, k - 1), k - 1);
    }
  }

  lemma NothingBooked(prm: Params, d: Input)
    requires WellFormed(d)
    ensures ResultsInv(prm, d, Start())
  {
  }

  // ------------------------------------------------------------ what a managed exit is worth

  /** The distance a managed exit is sized by: that of the stop in force at the exit, with a stop
      at price zero counting as none. */
  function SizingDistance(b: Position, stop: real): real
  {
    if stop != 0.0 then Abs(stop - b.entryPrice) else SlDistance(b)
  }

  function SlipOf(prm: Params): real
  {
    prm.costs.slippagePips * prm.pip
  }

  /** The result before slippage and commission. */
  function GrossOf(prm: Params, b: Position, balance: real, stop: real, price: real): real
  {
    Size(balance, SizingDistance(b, stop)) * Move(b.side, b.entryPrice, price)
  }

  /** A managed exit earns its move on the sized units, less slippage on them and, from a positive
      balance, the commission. */
  lemma ExitPnlRule(prm: Params, b: Position, balance: real, stop: real, price: real)
    ensures ExitPnl(prm, b, balance, stop, price)
         == GrossOf(prm, b, balance, stop, price) - Size(balance, SizingDistance(b, stop)) * SlipOf(prm)
            - if balance > 0.0 then RoundTripCommission(prm.costs) else 0.0
  {
    var size, move := Size(balance, SizingDistance(b, stop)), Move(b.side, b.entryPrice, price);
    assert Move(b.side, b.entryPrice, ExitFill(prm.costs, price, b.side, prm.pip)) == move - SlipOf(prm);
    assert size * (move - SlipOf(prm)) == size * move - size * SlipOf(prm);
    if balance > 0.0 {
      assert RoundTripCommission(prm.costs) / balance * balance == RoundTripCommission(prm.costs);
    }
  }

  /** The size is one unit exactly when there is no distance or one percent of the balance is the
      distance; leaving at the stop moves the balance by one percent before costs exactly when the
      stop is off the entry price, upwards when it has passed it, and by nothing otherwise. */
  lemma StopMovesOnePercent(prm: Params, b: Position, balance: real, stop: real)
    requires balance > 0.0 && stop != 0.0
    ensures Abs(GrossOf(prm, b, balance, stop, stop)) == balance * 0.01 <==> stop != b.entryPrice
    ensures stop == b.entryPrice ==> Size(balance, SizingDistance(b, stop)) == 1.0
    ensures stop == b.entryPrice ==> GrossOf(prm, b, balance, stop, stop) == 0.0
    ensures stop != b.entryPrice ==>
      GrossOf(prm, b, balance, stop, stop) ==
      if Move(b.side, b.entryPrice, stop) > 0.0 then balance * 0.01 else -(balance * 0.01)
  {
    var distance := Abs(stop - b.entryPrice);
    var size, move := Size(balance, distance), Move(b.side, b.entryPrice, stop);
    if stop != b.entryPrice {
      assert size * distance == balance * 0.01;
      assert move == distance || move == -distance;
      assert size * -distance == -(size * distance);
    }
  }

  /** With a positive balance and a stop that is not at price zero: the trade earns its move on one
      percent of the balance per distance from entry to the stop in force, and on a single unit
      when that stop is at the entry price; a stop-out is worth one percent before costs exactly
      when it is not. In every other case the size is what `Size` says of the distance. */
  predicate FollowsRule(prm: Params, b: Position, balance: real, stop: real, price: real, reason: Reason, pnl: real)
  {
    var size := Size(balance, SizingDistance(b, stop));
    var gross := GrossOf(prm, b, balance, stop, price);
    && pnl == gross - size * SlipOf(prm) - (if balance > 0.0 then RoundTripCommission(prm.costs) else 0.0)
    && (balance > 0.0 && stop != 0.0 ==>
          && (stop == b.entryPrice ==> size == 1.0 && gross == Move(b.side, b.entryPrice, price))
          && (reason == SlExit ==> (Abs(gross) == balance * 0.01 <==> stop != b.entryPrice)))
  }

  lemma FormulaFollowsRule(prm: Params, b: Position, balance: real, stop: real, price: real, reason: Reason)
    requires reason == SlExit ==> price == stop
    ensures FollowsRule(prm, b, balance, stop, price, reason, ExitPnl(prm, b, balance, stop, price))
  {
    hide ExitPnl;
    ExitPnlRule(prm, b, balance, stop, price);
    if balance > 0.0 && stop != 0.0 {
      StopMovesOnePercent(prm, b, balance, stop);
    }
  }

  /** A closed trade whose result follows the rule, unless it left on the opposite signal. */
  ghost predicate RecordFollowsRule(prm: Params, d: Input, r: Record, balance: real)
    requires WellFormed(d)
  {
    && r.entryIndex < |d.bars| && Fires(d, r.entryIndex - 1, r.side) && r.stops != []
    && var b := Born(prm, d, r.side, r.entryIndex);
    && r.entryPrice == b.entryPrice
    && (r.reason != CounterSignal ==> FollowsRule(prm, b, balance, LastStop(r), r.exitPrice, r.reason, r.pnl))
  }

  lemma ResultFollowsRule(prm: Params, d: Input, r: Record, balance: real)
    requires WellFormed(d) && ResultIs(prm, d, r, balance) && ClosedRight(prm, d, r)
    ensures RecordFollowsRule(prm, d, r, balance)
  {
    hide ExitPnl, CounterPnl, Lived, BreakevenIs, StopIs, Fires, FollowsRule, Enter;
    if r.reason != CounterSignal {
      FormulaFollowsRule(prm, Born(prm, d, r.side, r.entryIndex), balance, LastStop(r), r.exitPrice, r.reason);
    }
  }

  /** The rule holds of every managed exit of every run, at the balance then held. */
  lemma ManagedExitRule(prm: Params, d: Input, k: nat, j: nat)
    requires WellFormed(d) && k <= |d.bars| && j < |Run(prm, d, k).records|
    ensures RecordFollowsRule(prm, d, Run(prm, d, k).records[j], BalanceBefore(Run(prm, d, k).records, j))
  {
    hide Run, ClosedRight, ResultIs, RecordFollowsRule, OpenRight, BalanceBefore;
    ResultsFollowBars(prm, d, k);
    TradesLiveAsTheBarsSay(prm, d, k);
    var records := Run(prm, d, k).records;
    assert records[j] in records;
    ResultFollowsRule(prm, d, records[j], BalanceBefore(records, j));
  }

  /** Without trailing the stop in force at an exit is the entry price exactly when break-even has
      been triggered, or the entry stop was there already. */
  lemma StopAtEntryIsBreakeven(prm: Params, d: Input, k: nat, r: Record)
    requires WellFormed(d) && k <= |d.bars| && r in Run(prm, d, k).records
    ensures Fires(d, r.entryIndex - 1, r.side) && 0 < r.entryIndex < |d.bars| && r.stops != []
    ensures !prm.useTrailing ==>
      (LastStop(r) == r.entryPrice <==> r.beActive || SlDistance(Born(prm, d, r.side, r.entryIndex)) == 0.0)
  {
    hide Run, Lived, Leaves;
    TradesLiveAsTheBarsSay(prm, d, k);
  }
}
