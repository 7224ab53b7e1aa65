/** Which confirmed pivots the HTF-Fib walk ever sees: a pivot is consumed only by a trading bar that begins
    at the very start of the bucket that confirms it. */
module FibSeen {
  import opened Wrappers
  import opened Seqs
  import opened Market
  import opened Htf
  import opened Swing
  import opened Pivots
  import opened FibCausality

  /** The groups that the first `k` trading bars look up, in order. */
  function SeenEvents(table: map<int, seq<PivotEvent>>, bars: seq<Bar>, k: nat): seq<PivotEvent>
    requires k <= |bars|
  {
    if k == 0 then [] else SeenEvents(table, bars, k - 1) + Lookup(table, bars[k - 1].ts)
  }

  /** One of the first `k` trading bars begins at `t`. */
  predicate BarBegins(bars: seq<Bar>, k: nat, t: int)
    requires k <= |bars|
  {
    exists i :: 0 <= i < k && bars[i].ts == t
  }

  function ConfirmedOnBar(bars: seq<Bar>, k: nat): PivotEvent -> bool
    requires k <= |bars|
  {
    (e: PivotEvent) => BarBegins(bars, k, e.confirmationTime)
  }

  ghost predicate InTime(events: seq<PivotEvent>)
  {
    forall i, j :: 0 <= i < j < |events| ==> events[i].confirmationTime <= events[j].confirmationTime
  }

  lemma FilterHead(events: seq<PivotEvent>, keep: PivotEvent -> bool)
    requires events != []
    ensures Filter(events, keep) == (if keep(events[0]) then [events[0]] else []) + Filter(events[1..], keep)
  {
  }

  lemma NothingEarlier(events: seq<PivotEvent>, early: PivotEvent -> bool, t: int)
    requires InTime(events) && events != [] && t <= events[0].confirmationTime
    requires forall e :: e in events && early(e) ==> e.confirmationTime < t
    ensures forall e :: e in events ==> !early(e)
  {
    forall e | e in events ensures !early(e) {
      var j :| 0 <= j < |events| && events[j] == e;
      assert j > 0 ==> events[0].confirmationTime <= events[j].confirmationTime;
    }
  }

  /** Selecting early events and then those of one later time, from a list in order of time. */
  lemma {:induction false} FilterJoins(events: seq<PivotEvent>, early: PivotEvent -> bool, t: int,
                                       both: PivotEvent -> bool)
    requires InTime(events)
    requires forall e :: e in events && early(e) ==> e.confirmationTime < t
    requires forall e :: e in events ==> both(e) == (early(e) || e.confirmationTime == t)
    ensures Filter(events, both) == Filter(events, early) + Filter(events, ConfirmedAt(t))
  {
    hide Filter;
    if events == [] {
      FilterNone(events, both);
      FilterNone(events, early);
      FilterNone(events, ConfirmedAt(t));
    } else if t <= events[0].confirmationTime {
      NothingEarlier(events, early, t);
      FilterNone(events, early);
      FilterCongruent(events, both, ConfirmedAt(t));
    } else {
      assert InTime(events[1..]);
      FilterJoins(events[1..], early, t, both);
      FilterHead(events, both);
      FilterHead(events, early);
      FilterHead(events, ConfirmedAt(t));
      assert both(events[0]) == early(events[0]);
    }
  }

  /** The walk sees exactly the pivots whose confirmation time is the time of a bar. */
  lemma {:induction false} SeenIsFilter(events: seq<PivotEvent>, bars: seq<Bar>, k: nat)
    requires Chronological(bars) && k <= |bars| && InTime(events)
    ensures SeenEvents(Group(events), bars, k) == Filter(events, ConfirmedOnBar(bars, k))
  {
    hide Group, Lookup, InTime;
    if k == 0 {
      FilterNone(events, ConfirmedOnBar(bars, 0));
    } else {
      SeenIsFilter(events, bars, k - 1);
      LookupIsFilter(events, bars[k - 1].ts);
      OneMoreTime(bars, k);
      EarlierTimes(bars, k);
      FilterJoins(events, ConfirmedOnBar(bars, k - 1), bars[k - 1].ts, ConfirmedOnBar(bars, k));
    }
  }

  lemma OneMoreTime(bars: seq<Bar>, k: nat)
    requires Chronological(bars) && 0 < k <= |bars|
    ensures forall t :: BarBegins(bars, k, t) <==> BarBegins(bars, k - 1, t) || t == bars[k - 1].ts
  {
    forall t ensures BarBegins(bars, k, t) <==> BarBegins(bars, k - 1, t) || t == bars[k - 1].ts {
      if t == bars[k - 1].ts {
        assert bars[k - 1].ts == t;
      }
    }
  }

  lemma EarlierTimes(bars: seq<Bar>, k: nat)
    requires Chronological(bars) && 0 < k <= |bars|
    ensures forall e :: ConfirmedOnBar(bars, k - 1)(e) ==> e.confirmationTime < bars[k - 1].ts
  {
  }

  /** The pivots that a series confirms on its own HTF bars. */
  function ConfirmedEvents(bars: seq<Bar>, period: posint, left: posint, right: posint): seq<PivotEvent>
  {
    AllEvents(Resample(bars, period, |bars|), left, right)
  }

  /** The pivots seen are the pivots confirmed, in their order, exactly when every confirming bucket
      begins with a trading bar of its own start time. */
  lemma AllPivotsSeenExactly(bars: seq<Bar>, period: posint, left: posint, right: posint)
    requires Chronological(bars)
    ensures
      var events := ConfirmedEvents(bars, period, left, right);
      SeenEvents(EventTable(bars, period, left, right), bars, |bars|) == events <==>
        forall e :: e in events ==> BarBegins(bars, |bars|, e.confirmationTime)
  {
    hide Resample, AllEvents, Group;
    var events, keep := ConfirmedEvents(bars, period, left, right), ConfirmedOnBar(bars, |bars|);
    ConfirmedInOrder(bars, period, left, right);
    SeenIsFilter(events, bars, |bars|);
    if forall e :: e in events ==> keep(e) {
      FilterAll(events, keep);
    }
  }

  lemma ConfirmedInOrder(bars: seq<Bar>, period: posint, left: posint, right: posint)
    requires Chronological(bars)
    ensures InTime(ConfirmedEvents(bars, period, left, right))
  {
    hide Resample, EventsBelow;
    var htf := Resample(bars, period, |bars|);
    ResampleChronological(bars, period, |bars|);
    EventsAreSorted(htf, left, right, CandidateEnd(|htf|, right));
    var events := AllEvents(htf, left, right);
    forall i, j | 0 <= i < j < |events| ensures events[i].confirmationTime <= events[j].confirmationTime {
      assert ByKey()(events[i], events[j]);
    }
  }

  // ------------------------------------------------------------ a pivot that is dropped

  function At(ts: int, price: real): Bar
  {
    Bar(ts, price, price, price, price)
  }

  /** Four-hour bars, the last of which begins a quarter of an hour late, as after a gap. */
  const LATE_BARS := [At(0, 10.0), At(14400, 5.0), At(28800, 15.0), At(44100, 11.0)]

  lemma LateResample()
    ensures Resample(LATE_BARS, FOUR_HOURS, 4) == [At(0, 10.0), At(14400, 5.0), At(28800, 15.0), At(43200, 11.0)]
  {
    var b := LATE_BARS;
    assert Resample(b, FOUR_HOURS, 1) == [At(0, 10.0)];
    assert Resample(b, FOUR_HOURS, 2) == [At(0, 10.0), At(14400, 5.0)];
    assert Resample(b, FOUR_HOURS, 3) == [At(0, 10.0), At(14400, 5.0), At(28800, 15.0)];
  }

  /** The low of the second bar is confirmed at 43200, where no trading bar begins, and is never seen. */
  lemma LatePivotIsDropped()
    ensures ConfirmedEvents(LATE_BARS, FOUR_HOURS, 1, 1) == [PivotEvent(43200, 14400, Low, 5.0)]
    ensures SeenEvents(EventTable(LATE_BARS, FOUR_HOURS, 1, 1), LATE_BARS, 4) == []
  {
    hide Resample, AllEvents, Group, Lookup, Filter, SeenEvents;
    LateEvents();
    var events, keep := ConfirmedEvents(LATE_BARS, FOUR_HOURS, 1, 1), ConfirmedOnBar(LATE_BARS, 4);
    SeenIsFilter(events, LATE_BARS, 4);
    assert !keep(events[0]);
    FilterNone(events, keep);
  }

  lemma LateEvents()
    ensures ConfirmedEvents(LATE_BARS, FOUR_HOURS, 1, 1) == [PivotEvent(43200, 14400, Low, 5.0)]
  {
    hide Resample;
    LateResample();
    EventsOfFour([At(0, 10.0), At(14400, 5.0), At(28800, 15.0), At(43200, 11.0)]);
  }

  lemma EventsOfFour(htf: seq<Bar>)
    requires htf == [At(0, 10.0), At(14400, 5.0), At(28800, 15.0), At(43200, 11.0)]
    ensures AllEvents(htf, 1, 1) == [PivotEvent(43200, 14400, Low, 5.0)]
  {
    assert EventsBelow(htf, 1, 1, 1) == [];
    assert EventsAt(htf, 1, 1, 1) == [PivotEvent(43200, 14400, Low, 5.0)];
  }
}
