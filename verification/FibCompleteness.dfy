/** No entry of the HTF-Fib walk is missed. */
module FibCompleteness {
  import opened Wrappers
  import opened Market
  import opened FibModel
  import opened FibWalk
  import opened FibRuns
  import opened FibSignals

  /** The condition of the side was already true on the bar before, and that bar was tested. */
  predicate SeenBefore(d: Features, cfg: Config, s: FibState, i: nat, side: Direction)
    requires WellFormed(d) && i < |d.bars|
  {
    i > 0 && SignalOn(d, cfg, i - 1, side) && s.position.None?
  }

  /** What the walk remembers when bar `k` is reached. */
  predicate MemoryExact(d: Features, cfg: Config, s: FibState, k: nat)
    requires WellFormed(d) && k <= |d.bars|
  {
    && s.history == HistoryAt(d, cfg, k)
    && (s.previousLong <==> k > 0 && SignalOn(d, cfg, k - 1, Long) && s.position.None?)
    && (s.previousShort <==> k > 0 && SignalOn(d, cfg, k - 1, Short) && s.position.None?)
  }

  /** The side to enter on after bar `i`, if the walk is flat there: a condition that has just become
      true, long first, on a swing that may still be traded, with a bar left to fill on. */
  function Due(d: Features, cfg: Config, s: FibState, i: nat): Option<Direction>
    requires WellFormed(d) && i < |d.bars|
  {
    if i + 1 >= |d.bars| then None
    else if cfg.oneEntryPerSwing && s.tradedVersion == HistoryAt(d, cfg, i + 1).swing.version then None
    else if SignalOn(d, cfg, i, Long) && !SeenBefore(d, cfg, s, i, Long) then Some(Long)
    else if SignalOn(d, cfg, i, Short) && !SeenBefore(d, cfg, s, i, Short) then Some(Short)
    else None
  }

  lemma LookIsDue(d: Features, cfg: Config, i: nat, s: FibState)
    requires WellFormed(d) && i < |d.bars| && s.history == HistoryAt(d, cfg, i) && s.pending.None?
    ensures
      var r := Look(d, cfg, i, s);
      && r.position == s.position && r.history == HistoryAt(d, cfg, i + 1)
      && (r.previousLong <==> SignalOn(d, cfg, i, Long) && s.position.None?)
      && (r.previousShort <==> SignalOn(d, cfg, i, Short) && s.position.None?)
      && (s.position.Some? ==> r.pending.None?)
      && (s.position.None? ==>
            var free := i + 1 < |d.bars| && !(cfg.oneEntryPerSwing && s.tradedVersion == r.history.swing.version);
            r.pending ==
            if free && SignalOn(d, cfg, i, Long) && !s.previousLong then Some(Pending(Long, d.atr[i].value))
            else if free && SignalOn(d, cfg, i, Short) && !s.previousShort then Some(Pending(Short, d.atr[i].value))
            else None)
  {
    hide SwingOn, LongCondition, ShortCondition;
  }

  lemma ManagedKeeps(d: Features, cfg: Config, prm: Params, i: nat, s: FibState)
    requires WellFormed(d) && i < |d.bars| && Fill(d, cfg, prm, i, s).Ok? && Accounted(s)
    ensures
      var e := Exit(d, cfg, prm, i, Fill(d, cfg, prm, i, s).value, true);
      && e.history == s.history && e.previousLong == s.previousLong && e.previousShort == s.previousShort
      && e.tradedVersion == s.tradedVersion && e.pending.None?
  {
    hide StopDistance, CloseTrade;
  }

  lemma StepIsDue(d: Features, cfg: Config, prm: Params, i: nat, s: FibState)
    requires WellFormed(d) && i < |d.bars| && Accounted(s) && MemoryExact(d, cfg, s, i)
    ensures
      var r := StepBar(d, cfg, prm, i, s, true);
      r.Ok? ==>
        && MemoryExact(d, cfg, r.value, i + 1)
        && (r.value.position.Some? ==> r.value.pending.None?)
        && (r.value.position.None? ==>
              match Due(d, cfg, s, i)
              case Some(side) => r.value.pending == Some(Pending(side, d.atr[i].value))
              case None => r.value.pending.None?)
  {
    hide Fill, Exit, Look, SwingOn, Readable, LongCondition, ShortCondition;
    var f := Fill(d, cfg, prm, i, s);
    if f.Ok? {
      ManagedKeeps(d, cfg, prm, i, s);
      LookIsDue(d, cfg, i, Exit(d, cfg, prm, i, f.value, true));
    }
  }

  lemma {:induction false} RunRemembers(d: Features, cfg: Config, prm: Params, k: nat)
    requires WellFormed(d) && k <= |d.bars|
    ensures Run(d, cfg, prm, k).Ok? ==>
      MemoryExact(d, cfg, Run(d, cfg, prm, k).value, k) && Accounted(Run(d, cfg, prm, k).value)
  {
    hide StepBar, SignalOn, Due, TradesAreFirstTouch, PositionIsUntouched, WellSpaced, LedgerBalances;
    if Run(d, cfg, prm, k).Ok? {
      RunKeepsInv(d, cfg, prm, k);
      if k > 0 {
        RunRemembers(d, cfg, prm, k - 1);
        StepIsDue(d, cfg, prm, k - 1, Run(d, cfg, prm, k - 1).value);
      }
    }
  }

  /** Over every run that raises no exception: a walk that is flat after bar `i` has an entry pending
      exactly when one is due, on that side and with that bar's ATR, and a walk that holds a position
      has none. */
  lemma SignalsAreTakenExactly(d: Features, cfg: Config, prm: Params, i: nat)
    requires WellFormed(d) && i < |d.bars|
    ensures Run(d, cfg, prm, i + 1).Ok? ==>
      && Run(d, cfg, prm, i).Ok?
      && var s, r := Run(d, cfg, prm, i).value, Run(d, cfg, prm, i + 1).value;
      && (r.position.Some? ==> r.pending.None?)
      && (r.position.None? ==>
            match Due(d, cfg, s, i)
            case Some(side) => SignalOn(d, cfg, i, side) && r.pending == Some(Pending(side, d.atr[i].value))
            case None => r.pending.None?)
  {
    hide StepBar, SignalOn;
    if Run(d, cfg, prm, i + 1).Ok? {
      RunRemembers(d, cfg, prm, i);
      StepIsDue(d, cfg, prm, i, Run(d, cfg, prm, i).value);
    }
  }
}
