/** Where the entries of the HTF-Fib walk come from. */
module FibSignals {
  import opened Wrappers
  import opened Market
  import opened Brackets
  import opened SwingRuns
  import opened FibModel
  import opened FibWalk

  /** The swing after the first `k` bars: it depends on the bars alone, never on positions. */
  function HistoryAt(d: Features, cfg: Config, k: nat): History
    requires k <= |d.bars|
  {
    if k == 0 then Begin() else SwingOn(d, cfg, k - 1, HistoryAt(d, cfg, k - 1))
  }

  /** The entry condition of a side holds on the close of bar `i`. */
  predicate SignalOn(d: Features, cfg: Config, i: nat, side: Direction)
    requires WellFormed(d) && i < |d.bars|
  {
    var swing := HistoryAt(d, cfg, i + 1).swing;
    Readable(d, i, swing) && if side == Long then LongCondition(d, cfg, i, swing) else ShortCondition(d, cfg, i, swing)
  }

  /** The condition has just become true: it was false on the bar before, or that bar was not
      tested because a trade was held over it and left on this one. */
  ghost predicate Fresh(d: Features, cfg: Config, trades: seq<Trade>, i: nat, side: Direction)
    requires WellFormed(d) && i < |d.bars|
  {
    i > 0 && SignalOn(d, cfg, i - 1, side) ==>
      exists t :: t in trades && t.exitIndex == i && t.bracket.entryIndex < i
  }

  ghost predicate FreshSignal(d: Features, cfg: Config, trades: seq<Trade>, i: nat, side: Direction)
    requires WellFormed(d) && i < |d.bars|
  {
    SignalOn(d, cfg, i, side) && Fresh(d, cfg, trades, i, side)
  }

  /** The bracket answers a fresh signal on the bar before its entry, with that bar's ATR. */
  ghost predicate EntryIsGenuine(d: Features, cfg: Config, prm: Params, trades: seq<Trade>, b: Bracket)
    requires WellFormed(d)
  {
    && 0 < b.entryIndex < |d.bars|
    && FreshSignal(d, cfg, trades, b.entryIndex - 1, b.side)
    && var atr := d.atr[b.entryIndex - 1].value;
    && StopDistance(d, cfg, prm, b.entryIndex, atr).Ok?
    && b == EntryBracket(d, cfg, prm, b.entryIndex, Pending(b.side, atr),
                         StopDistance(d, cfg, prm, b.entryIndex, atr).value)
  }

  /** What the walk remembers of the bar before: its conditions, unless a position was held. */
  ghost predicate MemoryIs(d: Features, cfg: Config, s: FibState, k: nat)
    requires WellFormed(d) && k <= |d.bars|
  {
    if k == 0 then !s.previousLong && !s.previousShort
    else
      && (SignalOn(d, cfg, k - 1, Long) && !s.previousLong ==> s.position.Some? && s.position.value.entryIndex < k)
      && (SignalOn(d, cfg, k - 1, Short) && !s.previousShort ==> s.position.Some? && s.position.value.entryIndex < k)
  }

  ghost predicate PendingIsGenuine(d: Features, cfg: Config, s: FibState, k: nat)
    requires WellFormed(d) && k <= |d.bars|
  {
    s.pending.Some? ==>
      && s.position.None? && 0 < k < |d.bars|
      && FreshSignal(d, cfg, s.trades, k - 1, s.pending.value.side)
      && s.pending.value.atr == d.atr[k - 1].value
  }

  ghost predicate EntriesAreGenuine(d: Features, cfg: Config, prm: Params, s: FibState)
    requires WellFormed(d)
  {
    && (forall t :: t in s.trades ==> EntryIsGenuine(d, cfg, prm, s.trades, t.bracket))
    && (s.position.Some? ==> EntryIsGenuine(d, cfg, prm, s.trades, s.position.value))
  }

  ghost predicate SignalInv(d: Features, cfg: Config, prm: Params, s: FibState, k: nat)
    requires WellFormed(d) && k <= |d.bars|
  {
    && s.history == HistoryAt(d, cfg, k)
    && EntriesAreGenuine(d, cfg, prm, s) && PendingIsGenuine(d, cfg, s, k) && MemoryIs(d, cfg, s, k)
  }

  /** More trades keep a fresh signal fresh. */
  lemma GenuineGrows(d: Features, cfg: Config, prm: Params, trades: seq<Trade>, x: Trade, b: Bracket)
    requires WellFormed(d) && EntryIsGenuine(d, cfg, prm, trades, b)
    ensures EntryIsGenuine(d, cfg, prm, trades + [x], b)
  {
    hide SignalOn, StopDistance, EntryBracket;
  }

  /** Between the managed half of a bar and the entry test. */
  ghost predicate MidInv(d: Features, cfg: Config, prm: Params, s: FibState, i: nat)
    requires WellFormed(d) && i < |d.bars|
  {
    && s.history == HistoryAt(d, cfg, i) && s.pending.None?
    && EntriesAreGenuine(d, cfg, prm, s)
    && (s.position.Some? ==> s.position.value.entryIndex <= i)
    && (s.position.None? && !s.previousLong ==> Fresh(d, cfg, s.trades, i, Long))
    && (s.position.None? && !s.previousShort ==> Fresh(d, cfg, s.trades, i, Short))
  }

  lemma ManageKeepsSignals(d: Features, cfg: Config, prm: Params, i: nat, s: FibState)
    requires WellFormed(d) && i < |d.bars| && SignalInv(d, cfg, prm, s, i) && Fill(d, cfg, prm, i, s).Ok?
    requires s.position.Some? ==> s.position.value.entryIndex <= i
    ensures MidInv(d, cfg, prm, Exit(d, cfg, prm, i, Fill(d, cfg, prm, i, s).value, true), i)
  {
    hide SignalOn, StopDistance;
    var f := Fill(d, cfg, prm, i, s).value;
    assert EntriesAreGenuine(d, cfg, prm, f);
    var reason := ExitNow(d, cfg, i, f, true);
    if reason.Some? {
      var x := CloseTrade(d, cfg, prm, f.position.value, f.balance, i, reason.value);
      forall t | t in f.trades + [x] ensures EntryIsGenuine(d, cfg, prm, f.trades + [x], t.bracket) {
        GenuineGrows(d, cfg, prm, f.trades, x, t.bracket);
      }
      assert x in f.trades + [x];
    }
  }

  lemma LookKeepsSignals(d: Features, cfg: Config, prm: Params, i: nat, s: FibState)
    requires WellFormed(d) && i < |d.bars| && MidInv(d, cfg, prm, s, i)
    ensures SignalInv(d, cfg, prm, Look(d, cfg, i, s), i + 1)
    ensures Look(d, cfg, i, s).position == s.position
  {
    hide StopDistance, EntryBracket, LongCondition, ShortCondition, SwingOn;
  }

  lemma StepKeepsSignals(d: Features, cfg: Config, prm: Params, i: nat, s: FibState)
    requires WellFormed(d) && i < |d.bars| && SignalInv(d, cfg, prm, s, i)
    requires s.position.Some? ==> s.position.value.entryIndex <= i
    ensures
      var r := StepBar(d, cfg, prm, i, s, true);
      r.Ok? ==>
        && SignalInv(d, cfg, prm, r.value, i + 1)
        && (r.value.position.Some? ==> r.value.position.value.entryIndex <= i)
  {
    hide SignalInv, MidInv, Fill, Exit, Look;
    var f := Fill(d, cfg, prm, i, s);
    if f.Ok? {
      var e := Exit(d, cfg, prm, i, f.value, true);
      ManageKeepsSignals(d, cfg, prm, i, s);
      LookKeepsSignals(d, cfg, prm, i, e);
      MidIsEntered(d, cfg, prm, i, e);
    }
  }

  lemma MidIsEntered(d: Features, cfg: Config, prm: Params, i: nat, s: FibState)
    requires WellFormed(d) && i < |d.bars| && MidInv(d, cfg, prm, s, i)
    ensures s.position.Some? ==> s.position.value.entryIndex <= i
  {
  }

  lemma StartIsGenuine(d: Features, cfg: Config, prm: Params)
    requires WellFormed(d)
    ensures SignalInv(d, cfg, prm, Start(prm), 0)
  {
  }

  /** Every entry of every run answers a fresh signal on the bar before, in the swing that the
      bars alone have drawn, and is bracketed from that bar's ATR. */
  lemma {:induction false} SignalsAreGenuine(d: Features, cfg: Config, prm: Params, k: nat)
    requires WellFormed(d) && k <= |d.bars| && Run(d, cfg, prm, k).Ok?
    ensures SignalInv(d, cfg, prm, Run(d, cfg, prm, k).value, k)
    ensures Run(d, cfg, prm, k).value.position.Some? ==> Run(d, cfg, prm, k).value.position.value.entryIndex < k
  {
    hide SignalInv, StepBar;
    if k == 0 {
      StartIsGenuine(d, cfg, prm);
    } else {
      SignalsAreGenuine(d, cfg, prm, k - 1);
      StepKeepsSignals(d, cfg, prm, k - 1, Run(d, cfg, prm, k - 1).value);
    }
  }
}
