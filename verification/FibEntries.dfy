/** One entry per swing, and how many entries the pivots allow. */
module FibEntries {
  import opened Wrappers
  import opened Swing
  import opened SwingRuns
  import opened FibModel
  import opened FibWalk
  import opened FibRuns

  /** Number of pivots consumed on the first `k` bars. */
  function PivotCount(d: Features, k: nat): nat
    requires k <= |d.bars|
  {
    if k == 0 then 0 else PivotCount(d, k - 1) + |EventsOn(d, k - 1)|
  }

  /** The versions that entries were armed on, against the versions that were drawn. */
  ghost predicate OnePerSwing(s: FibState)
  {
    var minted := s.history.minted;
    && (forall i, j :: 0 <= i < j < |s.armed| ==> s.armed[i] < s.armed[j])
    && (forall v :: v in s.armed ==> v in minted)
    && (s.armed != [] ==> s.armed[|s.armed| - 1] == s.tradedVersion)
    && s.tradedVersion <= s.history.swing.version
    && |s.armed| <= |minted|
    && (minted != [] && s.tradedVersion != minted[|minted| - 1] ==> |s.armed| < |minted|)
  }

  ghost predicate EntryInv(d: Features, cfg: Config, s: FibState, k: nat)
    requires k <= |d.bars|
  {
    && SwingInv(s.history) && s.history.consumed == PivotCount(d, k)
    && (cfg.oneEntryPerSwing ==> OnePerSwing(s))
  }

  /** One pivot or invalidation: drawing a swing makes room for one more entry. */
  lemma ApplyKeepsOnePerSwing(s: FibState, op: Op)
    requires SwingInv(s.history) && OnePerSwing(s)
    ensures SwingInv(Apply(s.history, op)) && OnePerSwing(s.(history := Apply(s.history, op)))
  {
    ApplyKeepsInv(s.history, op);
    if op.Pivot? {
      UpdateEffect(s.history.swing, op.event);
    }
  }

  lemma {:induction false} ConsumeKeepsOnePerSwing(s: FibState, events: seq<PivotEvent>)
    requires SwingInv(s.history)
    ensures
      var h := ConsumeAll(s.history, events);
      && SwingInv(h) && h.consumed == s.history.consumed + |events|
      && (OnePerSwing(s) ==> OnePerSwing(s.(history := h)))
    decreases |events|
  {
    if events != [] {
      var t := s.(history := Apply(s.history, Pivot(events[0])));
      ApplyKeepsInv(s.history, Pivot(events[0]));
      if OnePerSwing(s) {
        ApplyKeepsOnePerSwing(s, Pivot(events[0]));
      }
      ConsumeKeepsOnePerSwing(t, events[1..]);
    }
  }

  lemma SwingOnKeepsEntries(d: Features, cfg: Config, i: nat, s: FibState)
    requires i < |d.bars| && EntryInv(d, cfg, s, i)
    ensures EntryInv(d, cfg, s.(history := SwingOn(d, cfg, i, s.history)), i + 1)
  {
    ConsumeKeepsOnePerSwing(s, EventsOn(d, i));
    var t := s.(history := ConsumeAll(s.history, EventsOn(d, i)));
    ApplyKeepsInv(t.history, SwingRuns.Break);
    if cfg.oneEntryPerSwing {
      ApplyKeepsOnePerSwing(t, SwingRuns.Break);
    }
  }

  /** A signal is armed on the version drawn last, and on none twice. */
  lemma TestKeepsOnePerSwing(cfg: Config, s: FibState, r: FibState)
    requires SwingInv(s.history) && OnePerSwing(s) && cfg.oneEntryPerSwing && TestedFrom(cfg, s, r)
    ensures OnePerSwing(r)
  {
    if r.pending != s.pending {
      var minted, v := s.history.minted, s.history.swing.version;
      assert v == minted[|minted| - 1] && v in minted;
      forall i | 0 <= i < |s.armed| ensures s.armed[i] < v {
        assert s.armed[i] <= s.tradedVersion;
      }
    }
  }

  lemma StepKeepsEntries(d: Features, cfg: Config, prm: Params, i: nat, s: FibState, stopWins: bool)
    requires WellFormed(d) && i < |d.bars| && EntryInv(d, cfg, s, i)
    ensures
      var r := StepBar(d, cfg, prm, i, s, stopWins);
      r.Ok? ==> EntryInv(d, cfg, r.value, i + 1)
  {
    var f := Fill(d, cfg, prm, i, s);
    if f.Ok? {
      var e := Exit(d, cfg, prm, i, f.value, stopWins);
      assert EntryInv(d, cfg, e, i);
      var t := e.(history := SwingOn(d, cfg, i, e.history));
      assert EntryInv(d, cfg, t, i + 1) by {
        SwingOnKeepsEntries(d, cfg, i, e);
      }
      TestKeepsEntries(d, cfg, i, t);
    }
  }

  lemma TestKeepsEntries(d: Features, cfg: Config, i: nat, s: FibState)
    requires WellFormed(d) && i < |d.bars| && EntryInv(d, cfg, s, i + 1)
    ensures EntryInv(d, cfg, Test(d, cfg, i, s), i + 1)
  {
    var r := Test(d, cfg, i, s);
    assert TestedFrom(cfg, s, r) by {
      TestOutcome(d, cfg, i, s);
    }
    if cfg.oneEntryPerSwing {
      TestKeepsOnePerSwing(cfg, s, r);
    }
  }

  lemma {:induction false} RunKeepsEntries(d: Features, cfg: Config, prm: Params, k: nat)
    requires WellFormed(d) && k <= |d.bars|
    ensures Run(d, cfg, prm, k).Ok? ==> EntryInv(d, cfg, Run(d, cfg, prm, k).value, k)
  {
    hide StepBar;
    if k > 0 && Run(d, cfg, prm, k).Ok? {
      RunKeepsEntries(d, cfg, prm, k - 1);
      StepKeepsEntries(d, cfg, prm, k - 1, Run(d, cfg, prm, k - 1).value, true);
    }
  }

  /** The version remembered is that of the last signal. */
  predicate RemembersLast(s: FibState)
  {
    s.history.swing.version >= 0 && s.tradedVersion == if s.armed == [] then -1 else s.armed[|s.armed| - 1]
  }

  lemma {:induction false} ConsumingKeepsVersion(h: History, events: seq<PivotEvent>)
    ensures ConsumeAll(h, events).swing.version >= h.swing.version
    decreases |events|
  {
    if events != [] {
      ConsumingKeepsVersion(Apply(h, Pivot(events[0])), events[1..]);
    }
  }

  lemma SwingKeepsVersion(d: Features, cfg: Config, i: nat, h: History)
    requires i < |d.bars|
    ensures SwingOn(d, cfg, i, h).swing.version >= h.swing.version
  {
    hide EventsOn, SwingBroken;
    ConsumingKeepsVersion(h, EventsOn(d, i));
  }

  lemma ManagingSignalsNothing(d: Features, cfg: Config, prm: Params, i: nat, s: FibState)
    requires WellFormed(d) && i < |d.bars| && Fill(d, cfg, prm, i, s).Ok?
    ensures
      var e := Exit(d, cfg, prm, i, Fill(d, cfg, prm, i, s).value, true);
      e.history == s.history && e.armed == s.armed && e.tradedVersion == s.tradedVersion
  {
    hide StopDistance, CloseTrade;
  }

  lemma TestRemembers(d: Features, cfg: Config, i: nat, s: FibState)
    requires WellFormed(d) && i < |d.bars| && RemembersLast(s)
    ensures RemembersLast(Test(d, cfg, i, s))
  {
    hide LongCondition, ShortCondition, Readable;
  }

  lemma StepRemembers(d: Features, cfg: Config, prm: Params, i: nat, s: FibState)
    requires WellFormed(d) && i < |d.bars| && RemembersLast(s)
    ensures StepBar(d, cfg, prm, i, s, true).Ok? ==> RemembersLast(StepBar(d, cfg, prm, i, s, true).value)
  {
    hide SwingOn, Fill, Exit, Test;
    var f := Fill(d, cfg, prm, i, s);
    if f.Ok? {
      var e := Exit(d, cfg, prm, i, f.value, true);
      ManagingSignalsNothing(d, cfg, prm, i, s);
      SwingKeepsVersion(d, cfg, i, e.history);
      TestRemembers(d, cfg, i, e.(history := SwingOn(d, cfg, i, e.history)));
    }
  }

  lemma {:induction false} RunRemembersLast(d: Features, cfg: Config, prm: Params, k: nat)
    requires WellFormed(d) && k <= |d.bars| && Run(d, cfg, prm, k).Ok?
    ensures RemembersLast(Run(d, cfg, prm, k).value)
  {
    hide StepBar;
    if k > 0 {
      RunRemembersLast(d, cfg, prm, k - 1);
      StepRemembers(d, cfg, prm, k - 1, Run(d, cfg, prm, k - 1).value);
    }
  }

  /** With `one_entry_per_swing` the version remembered is that of the swing on bar `i` exactly when an
      entry was signalled on that swing before. */
  lemma TradedExactly(d: Features, cfg: Config, prm: Params, i: nat)
    requires WellFormed(d) && i < |d.bars| && cfg.oneEntryPerSwing && Run(d, cfg, prm, i).Ok?
    ensures
      var s := Run(d, cfg, prm, i).value;
      var version := SwingOn(d, cfg, i, s.history).swing.version;
      s.tradedVersion == version <==> version in s.armed
  {
    hide Run, SwingOn, SwingInv;
    var s := Run(d, cfg, prm, i).value;
    RunKeepsEntries(d, cfg, prm, i);
    RunRemembersLast(d, cfg, prm, i);
    SwingOnKeepsEntries(d, cfg, i, s);
    var h := SwingOn(d, cfg, i, s.history);
    SwingKeepsVersion(d, cfg, i, s.history);
    if h.swing.version in s.armed {
      var j :| 0 <= j < |s.armed| && s.armed[j] == h.swing.version;
      assert s.armed[j] <= s.armed[|s.armed| - 1];
    }
  }

  /** With `one_entry_per_swing` the armed versions strictly increase and each was minted by a
      successful drawing of the levels; so trades are at most drawings, and drawings at most
      consumed pivots, whatever invalidations interleave. */
  lemma OneEntryPerSwing(d: Features, cfg: Config, prm: Params, k: nat)
    requires WellFormed(d) && k <= |d.bars| && cfg.oneEntryPerSwing && Run(d, cfg, prm, k).Ok?
    ensures
      var s := Run(d, cfg, prm, k).value;
      && (forall i, j :: 0 <= i < j < |s.armed| ==> s.armed[i] < s.armed[j])
      && (forall v :: v in s.armed ==> v in s.history.minted)
      && |s.trades| <= |s.armed| <= |s.history.minted| <= s.history.consumed == PivotCount(d, k)
  {
    RunKeepsEntries(d, cfg, prm, k);
    RunKeepsInv(d, cfg, prm, k);
  }

  /** Along every run the levels have the shape the swing rules promise. */
  lemma LevelsKeepGeometry(d: Features, cfg: Config, prm: Params, k: nat)
    requires WellFormed(d) && k <= |d.bars| && Run(d, cfg, prm, k).Ok?
    ensures
      var h := Run(d, cfg, prm, k).value.history;
      FibGeometry(h.swing, h.drawn)
  {
    RunKeepsEntries(d, cfg, prm, k);
  }
}
