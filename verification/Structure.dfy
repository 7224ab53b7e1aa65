/** Swing-leg, pivot and BOS/CHoCH tracking (scripts/run_smc_backtest.py). */
module Structure {
  import opened Wrappers
  import opened Market

  datatype Leg = BearishLeg | BullishLeg

  datatype Tag = BOS | CHoCH

  datatype Break = Break(
    barIndex: nat, side: Direction, tag: Tag, pivotLevel: real, pivotBar: nat,
    swingTop: Option<real>, swingBottom: Option<real>)

  datatype PivotState = PivotState(
    currentLevel: Option<real>, lastLevel: Option<real>, crossed: bool, barIndex: nat)

  /** The tracker's fields as a value. */
  datatype Tracker = Tracker(
    leg: Leg, trendBias: int, swingHigh: PivotState, swingLow: PivotState,
    swingTop: Option<real>, swingBottom: Option<real>)

  const NEW_PIVOT := PivotState(None, None, false, 0)

  const NEW_TRACKER := Tracker(BearishLeg, 0, NEW_PIVOT, NEW_PIVOT, None, None)

  /** The leg after bar `i`. */
  function LegAfter(t: Tracker, size: posint, bars: seq<Bar>, i: nat): Leg
    requires size <= i < |bars|
  {
    if bars[i - size].high > MaxHigh(bars, i - size + 1, i + 1) then BearishLeg
    else if bars[i - size].low < MinLow(bars, i - size + 1, i + 1) then BullishLeg
    else t.leg
  }

  function NewLevel(p: PivotState, level: real, barIndex: nat): PivotState
  {
    PivotState(Some(level), p.currentLevel, false, barIndex)
  }

  /** The leg update, which records a pivot when the leg turns. */
  function Turn(t: Tracker, size: posint, bars: seq<Bar>, i: nat): Tracker
    requires size <= i < |bars|
  {
    var leg := LegAfter(t, size, bars, i);
    if leg == t.leg then t
    else if leg == BearishLeg then
      t.(leg := leg, swingHigh := NewLevel(t.swingHigh, bars[i - size].high, i - size),
         swingTop := Some(bars[i - size].high))
    else
      t.(leg := leg, swingLow := NewLevel(t.swingLow, bars[i - size].low, i - size),
         swingBottom := Some(bars[i - size].low))
  }

  predicate BreaksHigh(t: Tracker, bars: seq<Bar>, i: nat)
    requires 1 <= i < |bars|
  {
    && t.swingHigh.currentLevel.Some?
    && !t.swingHigh.crossed
    && bars[i - 1].close <= t.swingHigh.currentLevel.value < bars[i].close
  }

  predicate BreaksLow(t: Tracker, bars: seq<Bar>, i: nat)
    requires 1 <= i < |bars|
  {
    && t.swingLow.currentLevel.Some?
    && !t.swingLow.crossed
    && bars[i - 1].close >= t.swingLow.currentLevel.value > bars[i].close
  }

  /** The close-cross test that follows the leg update. */
  function Cross(t: Tracker, bars: seq<Bar>, i: nat): (Tracker, Option<Break>)
    requires 1 <= i < |bars|
  {
    if BreaksHigh(t, bars, i) then
      (t.(swingHigh := t.swingHigh.(crossed := true), trendBias := 1),
       Some(Break(i, Long, if t.trendBias == -1 then CHoCH else BOS,
                  t.swingHigh.currentLevel.value, t.swingHigh.barIndex, t.swingTop, t.swingBottom)))
    else if BreaksLow(t, bars, i) then
      (t.(swingLow := t.swingLow.(crossed := true), trendBias := -1),
       Some(Break(i, Short, if t.trendBias == 1 then CHoCH else BOS,
                  t.swingLow.currentLevel.value, t.swingLow.barIndex, t.swingTop, t.swingBottom)))
    else (t, None)
  }

  function TrackBar(t: Tracker, size: posint, bars: seq<Bar>, i: nat): (Tracker, Option<Break>)
    requires i < |bars|
  {
    if i < size then (t, None) else Cross(Turn(t, size, bars, i), bars, i)
  }

  /** The mutable tracker of the source. */
  class StructureTracker {
    const swingLength: posint
    var leg: Leg
    var trendBias: int
    var swingHigh: PivotState
    var swingLow: PivotState
    var swingTop: Option<real>
    var swingBottom: Option<real>

    ghost function State(): Tracker
      reads this
    {
      Tracker(leg, trendBias, swingHigh, swingLow, swingTop, swingBottom)
    }

    constructor (swingLength: posint)
      ensures State() == NEW_TRACKER && this.swingLength == swingLength
    {
      this.swingLength := swingLength;
      leg, trendBias := BearishLeg, 0;
      swingHigh, swingLow := NEW_PIVOT, NEW_PIVOT;
      swingTop, swingBottom := None, None;
    }

    method ProcessBar(i: nat, bars: seq<Bar>) returns (event: Option<Break>)
      requires i < |bars|
      modifies this
      ensures (State(), event) == TrackBar(old(State()), swingLength, bars, i)
    {
      var size := swingLength;
      if i < size {
        return None;
      }
      var previousLeg := leg;
      var pivotHigh, pivotLow := bars[i - size].high, bars[i - size].low;
      if pivotHigh > MaxHigh(bars, i - size + 1, i + 1) {
        leg := BearishLeg;
      } else if pivotLow < MinLow(bars, i - size + 1, i + 1) {
        leg := BullishLeg;
      }
      if leg != previousLeg {
        if leg == BearishLeg {
          swingHigh := PivotState(Some(pivotHigh), swingHigh.currentLevel, false, i - size);
          swingTop := Some(pivotHigh);
        } else {
          swingLow := PivotState(Some(pivotLow), swingLow.currentLevel, false, i - size);
          swingBottom := Some(pivotLow);
        }
      }
      assert State() == Turn(old(State()), size, bars, i);
      var close, previousClose := bars[i].close, bars[i - 1].close;
      if swingHigh.currentLevel.Some? && !swingHigh.crossed && previousClose <= swingHigh.currentLevel.value < close {
        var tag := if trendBias == -1 then CHoCH else BOS;
        swingHigh := swingHigh.(crossed := true);
        trendBias := 1;
        return Some(Break(i, Long, tag, swingHigh.currentLevel.value, swingHigh.barIndex, swingTop, swingBottom));
      }
      if swingLow.currentLevel.Some? && !swingLow.crossed && previousClose >= swingLow.currentLevel.value > close {
        var tag := if trendBias == 1 then CHoCH else BOS;
        swingLow := swingLow.(crossed := true);
        trendBias := -1;
        return Some(Break(i, Short, tag, swingLow.currentLevel.value, swingLow.barIndex, swingTop, swingBottom));
      }
      return None;
    }
  }

  /** The tracker after the first `k` bars. */
  function RunTracker(bars: seq<Bar>, size: posint, k: nat): Tracker
    requires k <= |bars|
  {
    if k == 0 then NEW_TRACKER else TrackBar(RunTracker(bars, size, k - 1), size, bars, k - 1).0
  }

  function BreakAt(bars: seq<Bar>, size: posint, i: nat): Option<Break>
    requires i < |bars|
  {
    TrackBar(RunTracker(bars, size, i), size, bars, i).1
  }

  /** `schedule` holds exactly the breaks of the first `k` bars, each under its bar. */
  ghost predicate IsSchedule(schedule: map<nat, Break>, bars: seq<Bar>, size: posint, k: nat)
    requires k <= |bars|
  {
    forall i: nat ::
      (i in schedule <==> i < k && BreakAt(bars, size, i).Some?)
      && (i in schedule ==> BreakAt(bars, size, i) == Some(schedule[i]))
  }

  function Schedule(bars: seq<Bar>, size: posint, k: nat): (schedule: map<nat, Break>)
    requires k <= |bars|
    ensures IsSchedule(schedule, bars, size, k)
  {
    if k == 0 then map[]
    else
      var s := Schedule(bars, size, k - 1);
      match BreakAt(bars, size, k - 1)
      case Some(b) => s[k - 1 := b]
      case None => s
  }

  method BuildBreakSchedule(bars: seq<Bar>, size: posint) returns (schedule: map<nat, Break>)
    ensures schedule == Schedule(bars, size, |bars|)
  {
    var tracker := new StructureTracker(size);
    schedule := map[];
    for i := 0 to |bars|
      invariant tracker.swingLength == size
      invariant tracker.State() == RunTracker(bars, size, i)
      invariant schedule == Schedule(bars, size, i)
    {
      var event := tracker.ProcessBar(i, bars);
      if event.Some? {
        schedule := schedule[i := event.value];
      }
    }
  }

  /** The tracker and its breaks never read ahead. */
  lemma {:induction false} TrackerSameStart(a: seq<Bar>, b: seq<Bar>, size: posint, k: nat, j: nat)
    requires SameStart(a, b, k) && j <= k
    ensures RunTracker(a, size, j) == RunTracker(b, size, j)
  {
    if j > 0 {
      TrackerSameStart(a, b, size, k, j - 1);
      ProcessSameStart(RunTracker(a, size, j - 1), a, b, size, k, j - 1);
    }
  }

  lemma ProcessSameStart(t: Tracker, a: seq<Bar>, b: seq<Bar>, size: posint, k: nat, i: nat)
    requires SameStart(a, b, k) && i < k
    ensures TrackBar(t, size, a, i) == TrackBar(t, size, b, i)
  {
    if size <= i {
      ExtremesSameStart(a, b, k, i - size + 1, i + 1);
      SameStartAt(a, b, k, i - size);
      SameStartAt(a, b, k, i - 1);
      SameStartAt(a, b, k, i);
    }
  }

  lemma BreakSameStart(a: seq<Bar>, b: seq<Bar>, size: posint, k: nat, i: nat)
    requires SameStart(a, b, k) && i < k
    ensures BreakAt(a, size, i) == BreakAt(b, size, i)
  {
    TrackerSameStart(a, b, size, k, i);
    ProcessSameStart(RunTracker(a, size, i), a, b, size, k, i);
  }
}
