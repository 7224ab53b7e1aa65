/** What holds of the swing state after any sequence of pivots and invalidations. */
module SwingRuns {
  import opened Wrappers
  import opened Swing

  datatype Op = Pivot(event: PivotEvent) | Break

  /** The swing the current levels were drawn on. */
  datatype Drawn = Drawn(low: real, high: real, direction: int)

  /** The state after a run, with the last successfully drawn swing, the versions it drew
      (oldest first) and the number of pivots consumed. */
  datatype History = History(swing: Swing, drawn: Option<Drawn>, minted: seq<int>, consumed: nat)

  function Begin(): History
  {
    History(NEW_SWING, None, [], 0)
  }

  function Apply(h: History, op: Op): History
  {
    match op
    case Break => h.(swing := Invalidate(h.swing))
    case Pivot(e) =>
      var (s, changed) := Update(h.swing, e);
      if changed then
        History(s, Some(Drawn(s.low.value, s.high.value, s.direction)), h.minted + [s.version], h.consumed + 1)
      else h.(swing := s, consumed := h.consumed + 1)
  }

  function RunOps(ops: seq<Op>): History
  {
    if ops == [] then Begin() else Apply(RunOps(ops[..|ops| - 1]), ops[|ops| - 1])
  }

  /** Levels exist exactly when there is a direction, and they lie strictly inside the last
      drawn swing, the shallow one nearer to where price came from. */
  ghost predicate FibGeometry(s: Swing, drawn: Option<Drawn>)
  {
    && (s.direction == 0 || s.direction == 1 || s.direction == -1)
    && (s.direction != 0 <==> s.fib618.Some?) && (s.direction != 0 <==> s.fib786.Some?)
    && (s.direction != 0 ==>
          && drawn.Some? && drawn.value.direction == s.direction
          && drawn.value.low < s.fib618.value < drawn.value.high
          && drawn.value.low < s.fib786.value < drawn.value.high
          && (s.direction == 1 ==> s.fib786.value < s.fib618.value)
          && (s.direction == -1 ==> s.fib618.value < s.fib786.value))
  }

  /** Each drawn swing has its own version, and a live swing carries the latest one. */
  ghost predicate VersionsMinted(h: History)
  {
    && (forall i, j :: 0 <= i < j < |h.minted| ==> h.minted[i] < h.minted[j])
    && (forall v :: v in h.minted ==> v <= h.swing.version)
    && (h.swing.direction != 0 ==> h.minted != [] && h.minted[|h.minted| - 1] == h.swing.version)
    && |h.minted| <= h.consumed
  }

  /** High and low are both known while there is a direction. */
  predicate LegKnown(s: Swing)
  {
    s.direction != 0 ==> s.high.Some? && s.low.Some?
  }

  ghost predicate SwingInv(h: History)
  {
    FibGeometry(h.swing, h.drawn) && VersionsMinted(h) && LegKnown(h.swing)
  }

  /** A successful update draws a nondegenerate swing, in a direction, with a new version. */
  lemma UpdateEffect(s: Swing, e: PivotEvent)
    requires LegKnown(s) && (s.direction == 0 || s.direction == 1 || s.direction == -1)
    ensures
      var (r, changed) := Update(s, e);
      && r.version == s.version + (if changed then 1 else 0)
      && LegKnown(r)
      && (changed ==> r.low.Some? && r.high.Some? && r.low.value < r.high.value)
      && (changed ==> r.direction == 1 || r.direction == -1)
      && (changed ==> FibGeometry(r, Some(Drawn(r.low.value, r.high.value, r.direction))))
      && (!changed ==> r.direction == s.direction && r.fib618 == s.fib618 && r.fib786 == s.fib786)
  {
    var (r, changed) := Update(s, e);
    if changed {
      FibInside(r.low.value, r.high.value);
    }
  }

  lemma FibInside(low: real, high: real)
    requires low < high
    ensures low < high - (high - low) * 0.786 < high - (high - low) * 0.618 < high
    ensures low < low + (high - low) * 0.618 < low + (high - low) * 0.786 < high
  {
  }

  lemma ApplyKeepsInv(h: History, op: Op)
    requires SwingInv(h)
    ensures SwingInv(Apply(h, op)) && h.swing.version <= Apply(h, op).swing.version
  {
    if op.Pivot? {
      UpdateEffect(h.swing, op.event);
      var g := Apply(h, op);
      if |g.minted| > |h.minted| {
        forall i | 0 <= i < |h.minted| ensures h.minted[i] < g.swing.version {
          assert h.minted[i] in h.minted;
        }
      }
    }
  }

  /** Geometry and versions hold after every sequence of pivots and invalidations. */
  lemma {:induction false} SwingRunsKeepInv(ops: seq<Op>)
    ensures SwingInv(RunOps(ops))
  {
    if ops != [] {
      SwingRunsKeepInv(ops[..|ops| - 1]);
      ApplyKeepsInv(RunOps(ops[..|ops| - 1]), ops[|ops| - 1]);
    }
  }

  /** The version never decreases along a run. */
  lemma {:induction false} VersionNeverDecreases(ops: seq<Op>, n: nat)
    requires n <= |ops|
    ensures RunOps(ops[..n]).swing.version <= RunOps(ops).swing.version
  {
    if n == |ops| {
      assert ops[..n] == ops;
    } else {
      var rest := ops[..|ops| - 1];
      assert ops[..n] == rest[..n];
      VersionNeverDecreases(rest, n);
      SwingRunsKeepInv(rest);
      ApplyKeepsInv(RunOps(rest), ops[|ops| - 1]);
    }
  }

  predicate LowBelowHigh(s: Swing)
  {
    s.direction != 0 ==> s.high.Some? && s.low.Some? && s.low.value < s.high.value
  }

  /** The branch that extends a leg past its own other end: the levels stay, the swing inverts. */
  predicate ExtendsPastOrigin(s: Swing, e: PivotEvent)
  {
    && s.lastKind == Some(e.kind) && MoreExtreme(s, e)
    && ((e.kind == High && s.direction == 1 && s.low.Some? && e.price <= s.low.value)
        || (e.kind == Low && s.direction == -1 && s.high.Some? && s.high.value <= e.price))
  }

  /** From an ordered swing, an update keeps low below high except in exactly that branch. */
  lemma UpdateKeepsOrderExactly(s: Swing, e: PivotEvent)
    requires LowBelowHigh(s) && (s.direction == 0 || s.direction == 1 || s.direction == -1)
    ensures LowBelowHigh(Update(s, e).0) <==> !ExtendsPastOrigin(s, e)
  {
    UpdateEffect(s, e);
  }

  function At(kind: Kind, price: real): Op
  {
    Pivot(PivotEvent(0, 0, kind, price))
  }

  const INVERTING_RUN := [At(Low, 10.0), At(High, 20.0), At(Low, 25.0), At(Low, 5.0), At(High, 4.0), At(High, 6.0)]

  /** Low below high is no invariant: six pivots invert the swing and leave stale levels. */
  lemma SwingCanInvert()
    ensures
      var s := RunOps(INVERTING_RUN).swing;
      && s.direction == 1 && s.low == Some(10.0) && s.high == Some(6.0)
      && s.fib618 == Some(13.82) && s.fib786 == Some(12.14)
  {
    var ops := INVERTING_RUN;
    assert RunOps(ops[..0]) == Begin();
    assert ops[..1][..0] == ops[..0] && ops[..2][..1] == ops[..1] && ops[..3][..2] == ops[..2];
    assert ops[..4][..3] == ops[..3] && ops[..5][..4] == ops[..4] && ops[..6] == ops;
    var h1 := RunOps(ops[..1]);
    assert h1.swing.lastKind == Some(Low) && h1.swing.lastPrice == 10.0 && h1.swing.direction == 0;
    var h2 := RunOps(ops[..2]);
    assert h2.swing.low == Some(10.0) && h2.swing.high == Some(20.0) && h2.swing.direction == 1;
    assert h2.swing.fib618 == Some(13.82) && h2.swing.fib786 == Some(12.14) && h2.swing.lastKind == Some(High);
    var h3 := RunOps(ops[..3]);
    assert h3.swing == Remember(h2.swing, ops[2].event);
    var h4 := RunOps(ops[..4]);
    assert h4.swing.lastKind == Some(Low) && h4.swing.lastPrice == 5.0 && h4.swing.low == Some(10.0);
    var h5 := RunOps(ops[..5]);
    assert h5.swing == Remember(h4.swing, ops[4].event);
  }
}
