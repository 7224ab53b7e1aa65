/** The Donchian filters and ledger never read ahead of the readings they are given. What the readings
    themselves look at is the subject of `DonchianPipeline`. */
module DonchianCausality {
  import opened Wrappers
  import opened Seqs
  import opened Donchian
  import opened DonchianExits
  import opened DonchianSignals

  ghost predicate SameUntil<T>(s: seq<T>, t: seq<T>, k: nat)
  {
    k <= |s| && k <= |t| && forall i :: 0 <= i < k ==> s[i] == t[i]
  }

  /** The bars and all readings that the filters use coincide on the first `k` bars. */
  ghost predicate Agree(f: Filters, x: Indicators, y: Indicators, k: nat)
  {
    && SameLengths(x) && SameLengths(y)
    && SameUntil(x.bars, y.bars, k) && SameUntil(x.atr, y.atr, k)
    && SameUntil(x.rsi15, y.rsi15, k) && SameUntil(x.rsi30, y.rsi30, k) && SameUntil(x.rsi1h, y.rsi1h, k)
    && SameUntil(x.adx, y.adx, k) && SameUntil(x.hour, y.hour, k)
    && (f.useDi ==> SameUntil(x.plusDi, y.plusDi, k) && SameUntil(x.minusDi, y.minusDi, k))
  }

  lemma PreviousAgree(f: Filters, x: Indicators, y: Indicators, k: nat, i: nat)
    requires Agree(f, x, y, k) && f.lookback <= i <= k
    ensures PreviousHigh(f, x, i) == PreviousHigh(f, y, i) && PreviousLow(f, x, i) == PreviousLow(f, y, i)
  {
    assert HighsOf(x.bars)[i - f.lookback..i] == HighsOf(y.bars)[i - f.lookback..i];
    assert LowsOf(x.bars)[i - f.lookback..i] == LowsOf(y.bars)[i - f.lookback..i];
  }

  lemma {:induction false} MemoryAgrees(f: Filters, x: Indicators, y: Indicators, k: nat, j: nat)
    requires Agree(f, x, y, k) && j <= k
    ensures MemoryAt(f, x, j) == MemoryAt(f, y, j)
  {
    if j > f.warmup {
      MemoryAgrees(f, x, y, k, j - 1);
    }
  }

  lemma DecisionAgrees(f: Filters, x: Indicators, y: Indicators, k: nat, i: nat, m: Memory)
    requires Agree(f, x, y, k) && i < k
    ensures Decide(f, x, i, m) == Decide(f, y, i, m)
  {
    hide WithinWindow, AdxOk, SessionOk, PreviousHigh, PreviousLow;
    if i >= f.lookback {
      PreviousAgree(f, x, y, k, i);
    }
  }

  lemma SignalsAgree(f: Filters, x: Indicators, y: Indicators, k: nat, i: nat)
    requires Agree(f, x, y, k) && i < k
    ensures SignalAt(f, x, i) == SignalAt(f, y, i)
  {
    hide Decide, MemoryAt;
    if i >= f.warmup {
      MemoryAgrees(f, x, y, k, i + 1);
      DecisionAgrees(f, x, y, k, i, MemoryAt(f, x, i + 1));
    }
  }

  ghost predicate SameInput(d: Input, e: Input, k: nat)
  {
    SameUntil(d.bars, e.bars, k) && SameUntil(d.atr, e.atr, k) && SameUntil(d.signals, e.signals, k)
  }

  lemma InputsAgree(f: Filters, x: Indicators, y: Indicators, k: nat)
    requires Agree(f, x, y, k)
    ensures SameInput(InputOf(f, x), InputOf(f, y), k)
  {
    hide SignalAt;
    forall i | 0 <= i < k ensures SignalAt(f, x, i) == SignalAt(f, y, i) {
      SignalsAgree(f, x, y, k, i);
    }
  }

  /** All of a bar but the arming of the next one. */
  function Closing(prm: Params, d: Input, i: nat, s: LoopState): LoopState
    requires WellFormed(d) && i < |d.bars|
  {
    var t := Manage(prm, d, i, Fill(prm, d, i, s));
    if d.signals[i].None? then t else Counter(prm, d, i, t)
  }

  lemma ClosingAgrees(prm: Params, d: Input, e: Input, k: nat, i: nat, s: LoopState)
    requires WellFormed(d) && WellFormed(e) && SameInput(d, e, k) && i < k
    ensures Closing(prm, d, i, s) == Closing(prm, e, i, s)
  {
    hide Adjust, EffectiveStop, ExitOn, ExitPnl, CounterPnl, Book;
  }

  lemma StepIsClosing(prm: Params, d: Input, i: nat, s: LoopState)
    requires WellFormed(d) && i < |d.bars|
    ensures StepBar(prm, d, i, s)
         == if d.signals[i].None? then Closing(prm, d, i, s) else Arm(d, i, Closing(prm, d, i, s))
    ensures StepBar(prm, d, i, s).records == Closing(prm, d, i, s).records
  {
    hide Manage, Fill, Counter;
  }

  lemma {:induction false} RunAgrees(prm: Params, d: Input, e: Input, k: nat, j: nat)
    requires WellFormed(d) && WellFormed(e) && SameInput(d, e, k) && (j < k || j == 0)
    ensures Run(prm, d, j) == Run(prm, e, j)
  {
    hide StepBar, Closing;
    if j > prm.warmup {
      RunAgrees(prm, d, e, k, j - 1);
      var s := Run(prm, d, j - 1);
      ClosingAgrees(prm, d, e, k, j - 1, s);
      StepIsClosing(prm, d, j - 1, s);
      StepIsClosing(prm, e, j - 1, s);
    }
  }

  /** After `k` common bars the records coincide, even when one series ends there. */
  lemma RecordsAgree(prm: Params, d: Input, e: Input, k: nat)
    requires WellFormed(d) && WellFormed(e) && SameInput(d, e, k)
    ensures Run(prm, d, k).records == Run(prm, e, k).records
  {
    hide StepBar, Closing;
    if k > prm.warmup {
      RunAgrees(prm, d, e, k, k - 1);
      var s := Run(prm, d, k - 1);
      ClosingAgrees(prm, d, e, k, k - 1, s);
      StepIsClosing(prm, d, k - 1, s);
      StepIsClosing(prm, e, k - 1, s);
    }
  }

  /** What a bar adds to the records exits on it. */
  ghost predicate Adds(before: seq<Record>, after: seq<Record>, i: nat)
  {
    before <= after && forall j :: |before| <= j < |after| ==> after[j].exitIndex == i
  }

  lemma StepAdds(prm: Params, d: Input, i: nat, s: LoopState)
    requires WellFormed(d) && i < |d.bars|
    ensures Adds(s.records, StepBar(prm, d, i, s).records, i)
  {
    hide Adjust, EffectiveStop, ExitOn, ExitPnl, CounterPnl;
  }

  lemma {:induction false} LaterExitLater(prm: Params, d: Input, k: nat, n: nat)
    requires WellFormed(d) && k <= n <= |d.bars|
    ensures Run(prm, d, k).records <= Run(prm, d, n).records
    ensures forall j :: |Run(prm, d, k).records| <= j < |Run(prm, d, n).records| ==>
      Run(prm, d, n).records[j].exitIndex >= k
  {
    hide StepBar;
    if k < n {
      LaterExitLater(prm, d, k, n - 1);
      if n > prm.warmup {
        StepAdds(prm, d, n - 1, Run(prm, d, n - 1));
      }
    }
  }

  function ExitsBefore(k: nat): Record -> bool
  {
    (r: Record) => r.exitIndex < k
  }

  lemma {:induction false} SettledBefore(prm: Params, d: Input, k: nat)
    requires WellFormed(d) && k <= |d.bars|
    ensures Filter(Run(prm, d, |d.bars|).records, ExitsBefore(k)) == Run(prm, d, k).records
  {
    hide Run, ClosedRight, OpenRight;
    var all, early := Run(prm, d, |d.bars|).records, Run(prm, d, k).records;
    LaterExitLater(prm, d, k, |d.bars|);
    TradesLiveAsTheBarsSay(prm, d, k);
    forall j | 0 <= j < |early| ensures ExitsBefore(k)(all[j]) {
      assert all[j] == early[j] && early[j] in early;
    }
    FilterSplit(all, |early|, ExitsBefore(k));
  }

  /** Bars and readings that agree on the first `k` bars close the same trades before bar `k`, through
      filters, stops and sizing. */
  lemma {:induction false} ReadingsDecideTrades(prm: Params, f: Filters, x: Indicators, y: Indicators, k: nat)
    requires Agree(f, x, y, k)
    ensures Filter(Run(prm, InputOf(f, x), |x.bars|).records, ExitsBefore(k))
         == Filter(Run(prm, InputOf(f, y), |y.bars|).records, ExitsBefore(k))
  {
    hide Run, SignalAt;
    InputsAgree(f, x, y, k);
    RecordsAgree(prm, InputOf(f, x), InputOf(f, y), k);
    SettledBefore(prm, InputOf(f, x), k);
    SettledBefore(prm, InputOf(f, y), k);
  }
}
