/** What holds of every run of the Donchian loop. */
module DonchianRuns {
  import opened Wrappers
  import opened Costs
  import opened Donchian

  function TotalPnl(records: seq<Record>): real
  {
    if records == [] then 0.0 else TotalPnl(records[..|records| - 1]) + records[|records| - 1].pnl
  }

  /** How many records satisfy a predicate. */
  function Tally(records: seq<Record>, which: Record -> bool): nat
  {
    if records == [] then 0
    else Tally(records[..|records| - 1], which) + if which(records[|records| - 1]) then 1 else 0
  }

  function Of(reason: Reason, beActive: Option<bool>): Record -> bool
  {
    (r: Record) => r.reason == reason && (beActive.Some? ==> r.beActive == beActive.value)
  }

  function CounterCloses(records: seq<Record>): nat
  {
    Tally(records, Of(CounterSignal, None))
  }

  /** Records i..j all lost or broke even. */
  ghost predicate LossRun(records: seq<Record>, i: nat, j: nat)
    requires j <= |records|
  {
    forall m :: i <= m < j ==> records[m].pnl <= 0.0
  }

  /** The reference meaning of the loss counters: the current run is the maximal one at the end
      of the list, and the maximum is the length of a longest run anywhere. */
  ghost predicate CountsLossRuns(records: seq<Record>, current: nat, longest: nat)
  {
    var n := |records|;
    && current <= n && LossRun(records, n - current, n)
    && (current < n ==> records[n - current - 1].pnl > 0.0)
    && (exists i: nat, j: nat :: i <= j <= n && LossRun(records, i, j) && j - i == longest)
    && (forall i: nat, j: nat :: i <= j <= n && LossRun(records, i, j) ==> j - i <= longest)
  }

  /** Balance, exit tallies and the position/pending exclusion. */
  ghost predicate LedgerInv(s: LoopState)
  {
    && s.balance == START_BALANCE + TotalPnl(s.records)
    && !(s.position.Some? && s.pending.Some?)
    && s.tpExits == Tally(s.records, Of(TpExit, None))
    && s.slExits == Tally(s.records, Of(SlExit, Some(false)))
    && s.beExits == Tally(s.records, Of(SlExit, Some(true)))
    && s.timeExits == Tally(s.records, Of(TimeExit, None))
    && s.tpExits + s.slExits + s.beExits + s.timeExits + CounterCloses(s.records) == |s.records|
  }

  lemma BookKeepsLedger(s: LoopState, r: Record)
    requires LedgerInv(s) && s.pending.None?
    ensures LedgerInv(Book(s, r))
  {
    assert (s.records + [r])[..|s.records|] == s.records;
  }

  /** The counters after one more result. */
  lemma NextLossRun(records: seq<Record>, r: Record, current: nat, longest: nat)
    requires CountsLossRuns(records, current, longest)
    ensures
      var run := if r.pnl <= 0.0 then current + 1 else 0;
      CountsLossRuns(records + [r], run, if run > longest then run else longest)
  {
    var n, all := |records|, records + [r];
    var run := if r.pnl <= 0.0 then current + 1 else 0;
    var i: nat, j: nat :| i <= j <= n && LossRun(records, i, j) && j - i == longest;
    assert LossRun(all, i, j);
    assert LossRun(all, n + 1 - run, n + 1);
    forall p: nat, q: nat | p <= q <= n + 1 && LossRun(all, p, q)
      ensures q - p <= run || q - p <= longest
    {
      if q <= n {
        forall m | p <= m < q ensures records[m].pnl <= 0.0 {
          assert all[m].pnl <= 0.0;
        }
        assert LossRun(records, p, q);
      } else {
        LastRunBounds(records, r, current, longest, p);
      }
    }
  }

  /** A run that ends with the new record is no longer than the new current run. */
  lemma LastRunBounds(records: seq<Record>, r: Record, current: nat, longest: nat, p: nat)
    requires CountsLossRuns(records, current, longest)
    requires p <= |records| + 1 && LossRun(records + [r], p, |records| + 1)
    ensures |records| + 1 - p <= if r.pnl <= 0.0 then current + 1 else 0
  {
    var n, all := |records|, records + [r];
    assert p <= n ==> all[n].pnl <= 0.0;
    if current < n {
      assert all[n - current - 1].pnl > 0.0;
    }
  }

  lemma BookKeepsLossRuns(s: LoopState, r: Record)
    requires CountsLossRuns(s.records, s.lossRun, s.maxLossRun)
    ensures CountsLossRuns(Book(s, r).records, Book(s, r).lossRun, Book(s, r).maxLossRun)
  {
    NextLossRun(s.records, r, s.lossRun, s.maxLossRun);
  }

  /** No position is held past the time limit. */
  ghost predicate HeldInTime(prm: Params, s: LoopState, k: nat)
  {
    prm.useTimeExit ==>
      && (forall r :: r in s.records ==> r.entryIndex <= r.exitIndex <= r.entryIndex + prm.maxBarsExit)
      && (s.position.Some? ==> s.position.value.entryIndex <= k <= s.position.value.entryIndex + prm.maxBarsExit)
  }

  ghost predicate Inv(prm: Params, s: LoopState, k: nat)
  {
    LedgerInv(s) && CountsLossRuns(s.records, s.lossRun, s.maxLossRun) && HeldInTime(prm, s, k)
  }

  lemma StartHasInv(prm: Params, k: nat)
    ensures Inv(prm, Start(), k)
  {
    assert LossRun([], 0, 0);
  }

  lemma BookKeepsInv(prm: Params, s: LoopState, r: Record, k: nat)
    requires LedgerInv(s) && CountsLossRuns(s.records, s.lossRun, s.maxLossRun) && s.pending.None?
    requires prm.useTimeExit ==>
      (forall x :: x in s.records ==> x.entryIndex <= x.exitIndex <= x.entryIndex + prm.maxBarsExit)
      && r.entryIndex <= r.exitIndex <= r.entryIndex + prm.maxBarsExit
    ensures Inv(prm, Book(s, r), k) && Book(s, r).pending.None?
  {
    BookKeepsLedger(s, r);
    BookKeepsLossRuns(s, r);
  }

  lemma FillKeepsInv(prm: Params, d: Input, i: nat, s: LoopState)
    requires i < |d.bars| && Inv(prm, s, i)
    ensures Inv(prm, Fill(prm, d, i, s), i)
    ensures Fill(prm, d, i, s).pending.None?
  {
  }

  lemma ManageKeepsInv(prm: Params, d: Input, i: nat, s: LoopState)
    requires WellFormed(d) && i < |d.bars| && Inv(prm, s, i) && s.pending.None?
    ensures Inv(prm, Manage(prm, d, i, s), i + 1) && Manage(prm, d, i, s).pending.None?
    ensures prm.useTimeExit && Manage(prm, d, i, s).position.Some? ==>
      Manage(prm, d, i, s).position.value.entryIndex <= i
  {
    if s.position.Some? {
      var bar := d.bars[i];
      var stop := EffectiveStop(prm, s.position.value, bar, d.atr[i]);
      var b := Adjust(prm, s.position.value, bar, d.atr[i]);
      var exit := ExitOn(prm, b, bar, i, stop);
      if exit.Some? {
        var (price, reason) := exit.value;
        BookKeepsInv(prm, s, Record(b.side, b.entryIndex, i, b.entryPrice, price, FinalTp(b), stop,
                                    ExitPnl(prm, b, s.balance, stop, price), reason, b.beActive, b.stops), i + 1);
      }
    }
  }

  lemma CounterKeepsInv(prm: Params, d: Input, i: nat, s: LoopState)
    requires WellFormed(d) && i < |d.bars| && d.signals[i].Some? && Inv(prm, s, i + 1) && s.pending.None?
    requires prm.useTimeExit && s.position.Some? ==> s.position.value.entryIndex <= i
    ensures Inv(prm, Counter(prm, d, i, s), i + 1) && Counter(prm, d, i, s).pending.None?
  {
    if s.position.Some? {
      var b, close := s.position.value, d.bars[i].close;
      var pnl := CounterPnl(prm, b, s.balance, d.atr[i].value, close);
      BookKeepsInv(prm, s, Record(b.side, b.entryIndex, i, b.entryPrice, close, b.tp, b.sl, pnl,
                                  CounterSignal, b.beActive, b.stops), i + 1);
    }
  }

  lemma {:induction false} StepKeepsInv(prm: Params, d: Input, i: nat, s: LoopState)
    requires WellFormed(d) && i < |d.bars| && Inv(prm, s, i)
    ensures Inv(prm, StepBar(prm, d, i, s), i + 1)
  {
    hide CountsLossRuns, LedgerInv, HeldInTime, Manage, Fill, Counter;
    var f := Fill(prm, d, i, s);
    FillKeepsInv(prm, d, i, s);
    var m := Manage(prm, d, i, f);
    ManageKeepsInv(prm, d, i, f);
    if d.signals[i].Some? {
      CounterKeepsInv(prm, d, i, m);
      ArmKeepsInv(prm, d, i, Counter(prm, d, i, m));
    }
  }

  lemma ArmKeepsInv(prm: Params, d: Input, i: nat, s: LoopState)
    requires WellFormed(d) && i < |d.bars| && d.signals[i].Some? && Inv(prm, s, i + 1)
    ensures Inv(prm, Arm(d, i, s), i + 1)
  {
  }

  lemma {:induction false} RunKeepsInv(prm: Params, d: Input, k: nat)
    requires WellFormed(d) && k <= |d.bars|
    ensures Inv(prm, Run(prm, d, k), k)
  {
    hide Inv, StepBar;
    if k <= prm.warmup {
      StartHasInv(prm, k);
    } else {
      RunKeepsInv(prm, d, k - 1);
      StepKeepsInv(prm, d, k - 1, Run(prm, d, k - 1));
    }
  }

  /** The balance is the start plus all results; every close is tallied once, by how it ended;
      and the loss counters are the current and the longest run of results that did not win. */
  lemma {:induction false} LedgerIsExact(prm: Params, d: Input, k: nat)
    requires WellFormed(d) && k <= |d.bars|
    ensures
      var s := Run(prm, d, k);
      && s.balance == START_BALANCE + TotalPnl(s.records)
      && s.tpExits == Tally(s.records, Of(TpExit, None)) && s.timeExits == Tally(s.records, Of(TimeExit, None))
      && s.slExits == Tally(s.records, Of(SlExit, Some(false))) && s.beExits == Tally(s.records, Of(SlExit, Some(true)))
      && s.tpExits + s.slExits + s.beExits + s.timeExits + CounterCloses(s.records) == |s.records|
      && CountsLossRuns(s.records, s.lossRun, s.maxLossRun)
  {
    RunKeepsInv(prm, d, k);
  }

  /** With the time exit on, no trade is held longer than the limit, and no open position is
      older than it. */
  lemma {:induction false} TimeExitBindsHolding(prm: Params, d: Input, k: nat)
    requires WellFormed(d) && k <= |d.bars| && prm.useTimeExit
    ensures HeldInTime(prm, Run(prm, d, k), k)
  {
    RunKeepsInv(prm, d, k);
  }

  /** A pending signal is filled at the open of the very next bar: the trade entered there is
      the open position after that bar, or the one closed on it. */
  lemma {:induction false} PendingFillsOnNextBar(prm: Params, d: Input, k: nat)
    requires WellFormed(d) && prm.warmup <= k < |d.bars| && Run(prm, d, k).pending.Some?
    ensures
      var s, r := Run(prm, d, k), Run(prm, d, k + 1);
      var side, entry := s.pending.value.side, EntryFill(prm.costs, d.bars[k].open, s.pending.value.side, prm.pip);
      || (r.position.Some? && r.position.value.entryIndex == k
          && r.position.value.side == side && r.position.value.entryPrice == entry)
      || (|r.records| == |s.records| + 1 && r.records[|s.records|].entryIndex == k
          && r.records[|s.records|].side == side && r.records[|s.records|].entryPrice == entry)
  {
    RunKeepsInv(prm, d, k);
    FilledShows(prm, d, k, Run(prm, d, k));
  }

  lemma FilledShows(prm: Params, d: Input, i: nat, s: LoopState)
    requires WellFormed(d) && i < |d.bars| && s.pending.Some? && s.position.None?
    ensures
      var r, b := StepBar(prm, d, i, s), Enter(prm, d.bars[i], i, s.pending.value);
      || (r.position.Some? && SameEntry(r.position.value, b))
      || (|r.records| == |s.records| + 1 && r.records[|s.records|].entryIndex == b.entryIndex
          && r.records[|s.records|].side == b.side && r.records[|s.records|].entryPrice == b.entryPrice)
  {
  }

  predicate SameEntry(a: Position, b: Position)
  {
    a.entryIndex == b.entryIndex && a.side == b.side && a.entryPrice == b.entryPrice
  }
}
