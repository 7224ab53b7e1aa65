/** What a confirmed pivot does to the swing, in terms of the leg it ends, and where the levels lie. */
module SwingLegs {
  import opened Wrappers
  import opened Market
  import opened Costs
  import opened Swing
  import opened SwingRuns

  /** The direction of a leg that ends in a pivot of this kind. */
  function SideOf(kind: Kind): Direction
  {
    if kind == High then Long else Short
  }

  function Sign(side: Direction): int
  {
    if side == Long then 1 else -1
  }

  /** Where a leg starts and ends. */
  function StartOf(s: Swing, side: Direction): Option<real>
  {
    if side == Long then s.low else s.high
  }

  function EndOf(s: Swing, side: Direction): Option<real>
  {
    if side == Long then s.high else s.low
  }

  function StartTime(s: Swing, side: Direction): int
  {
    if side == Long then s.lowTime else s.highTime
  }

  function EndTime(s: Swing, side: Direction): int
  {
    if side == Long then s.highTime else s.lowTime
  }

  /** The pivot lies beyond the last one, in the direction of the leg it ends. */
  predicate GoesOn(s: Swing, e: PivotEvent)
  {
    s.lastKind.Some? && Move(SideOf(e.kind), s.lastPrice, e.price) > 0.0
  }

  predicate StartsLeg(s: Swing, e: PivotEvent)
  {
    GoesOn(s, e) && s.lastKind != Some(e.kind)
  }

  predicate ExtendsLeg(s: Swing, e: PivotEvent)
  {
    GoesOn(s, e) && s.lastKind == Some(e.kind) && s.direction == Sign(SideOf(e.kind))
  }

  /** From this level the leg has given back the ratio of its range. */
  predicate GivesBack(side: Direction, from: real, to: real, ratio: real, level: Option<real>)
  {
    level.Some? && Move(side, level.value, to) == ratio * Move(side, from, to)
  }

  /** The two levels of a leg, at the 61.8 and 78.6 percent retracements. */
  predicate LevelsOf(s: Swing, side: Direction, from: real, to: real)
  {
    GivesBack(side, from, to, 0.618, s.fib618) && GivesBack(side, from, to, 0.786, s.fib786)
  }

  /** The pivot becomes the last one, unless it is of the same kind and goes no further. */
  predicate Remembered(s: Swing, e: PivotEvent, r: Swing)
  {
    if s.lastKind == Some(e.kind) && !GoesOn(s, e)
    then r.lastKind == s.lastKind && r.lastPrice == s.lastPrice && r.lastTime == s.lastTime
    else r.lastKind == Some(e.kind) && r.lastPrice == e.price && r.lastTime == e.pivotTime
  }

  /** A leg from `from` to the pivot, in the direction of the pivot, with its levels and a new version. */
  predicate DrawsLeg(s: Swing, e: PivotEvent, r: Swing, from: Option<real>, fromTime: int)
  {
    var side := SideOf(e.kind);
    && r.direction == Sign(side) && from.Some?
    && StartOf(r, side) == from && StartTime(r, side) == fromTime
    && EndOf(r, side) == Some(e.price) && EndTime(r, side) == e.pivotTime
    && LevelsOf(r, side, from.value, e.price) && r.version == s.version + 1
  }

  /** What a pivot does, for both kinds at once: it starts a leg from the last pivot, extends the leg
      that it continues, or only becomes the last pivot. A leg extended no further than its own start
      keeps its levels. */
  lemma PivotsDrawLegs(s: Swing, e: PivotEvent)
    requires LegKnown(s)
    ensures
      var (r, changed) := Update(s, e);
      var side := SideOf(e.kind);
      && Remembered(s, e, r)
      && (changed <==> StartsLeg(s, e) || (ExtendsLeg(s, e) && Move(side, StartOf(s, side).value, e.price) > 0.0))
      && (StartsLeg(s, e) ==> DrawsLeg(s, e, r, Some(s.lastPrice), s.lastTime))
      && (changed && ExtendsLeg(s, e) ==> DrawsLeg(s, e, r, StartOf(s, side), StartTime(s, side)))
      && (!changed ==>
            && r.direction == s.direction && r.version == s.version && r.fib618 == s.fib618 && r.fib786 == s.fib786
            && StartOf(r, side) == StartOf(s, side)
            && EndOf(r, side) == if ExtendsLeg(s, e) then Some(e.price) else EndOf(s, side))
  {
  }

  // ------------------------------------------------------------ over runs

  function DrawnFrom(d: Drawn, side: Direction): real
  {
    if side == Long then d.low else d.high
  }

  function DrawnTo(d: Drawn, side: Direction): real
  {
    if side == Long then d.high else d.low
  }

  /** While there is a direction the levels are the retracements of the last drawn swing. */
  predicate LevelsAreDrawn(h: History)
  {
    h.swing.direction != 0 ==>
      && h.drawn.Some? && (h.swing.direction == 1 || h.swing.direction == -1)
      && var side := if h.swing.direction == 1 then Long else Short;
      && h.drawn.value.direction == h.swing.direction && h.drawn.value.low < h.drawn.value.high
      && LevelsOf(h.swing, side, DrawnFrom(h.drawn.value, side), DrawnTo(h.drawn.value, side))
  }

  lemma ApplyKeepsLevels(h: History, op: Op)
    requires LegKnown(h.swing) && LevelsAreDrawn(h)
    ensures LevelsAreDrawn(Apply(h, op)) && LegKnown(Apply(h, op).swing)
  {
    if op.Pivot? {
      PivotsDrawLegs(h.swing, op.event);
    }
  }

  /** After every sequence of pivots and invalidations the levels are exactly the 61.8 and 78.6 percent
      retracements of the last drawn swing. */
  lemma {:induction false} LevelsAreRetracements(ops: seq<Op>)
    ensures LevelsAreDrawn(RunOps(ops)) && LegKnown(RunOps(ops).swing)
  {
    hide LevelsAreDrawn, Apply;
    if ops == [] {
      BeginsUndrawn();
    } else {
      LevelsAreRetracements(ops[..|ops| - 1]);
      ApplyKeepsLevels(RunOps(ops[..|ops| - 1]), ops[|ops| - 1]);
    }
  }

  lemma BeginsUndrawn()
    ensures LevelsAreDrawn(Begin()) && LegKnown(Begin().swing)
  {
  }
}
