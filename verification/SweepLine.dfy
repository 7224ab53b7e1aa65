/** Peak number of open positions (scripts/evaluate_htf_fib_accounts.py). */
module SweepLine {
  import opened Seqs

  /** Entry and exit time of one trade. */
  datatype Span = Span(entry: int, exit: int)

  datatype Event = Event(time: int, delta: int)

  /** Order by time; at one time exits come before entries. */
  function ByTimeThenDelta(): (Event, Event) -> bool
  {
    (a: Event, b: Event) => a.time < b.time || (a.time == b.time && a.delta <= b.delta)
  }

  function EventsOf(spans: seq<Span>): (e: seq<Event>)
    ensures forall x :: x in e ==> x.delta == 1 || x.delta == -1
  {
    if spans == [] then []
    else EventsOf(spans[..|spans| - 1]) + [Event(spans[|spans| - 1].entry, 1), Event(spans[|spans| - 1].exit, -1)]
  }

  /** Trades that are open at time `t`: entered at or before it and not yet exited. */
  function OpenAt(spans: seq<Span>, t: int): nat
  {
    if spans == [] then 0
    else OpenAt(spans[..|spans| - 1], t) + if spans[|spans| - 1].entry <= t < spans[|spans| - 1].exit then 1 else 0
  }

  /** Sum of all deltas, and of those at or before `t`. */
  function Active(events: seq<Event>): int
  {
    if events == [] then 0 else Active(events[..|events| - 1]) + events[|events| - 1].delta
  }

  function ActiveAt(events: seq<Event>, t: int): int
  {
    if events == [] then 0
    else ActiveAt(events[..|events| - 1], t) + if events[|events| - 1].time <= t then events[|events| - 1].delta else 0
  }

  /** The sweep over already ordered events. */
  method Sweep(events: seq<Event>) returns (peak: int, ghost at: nat)
    ensures forall j :: 0 <= j <= |events| ==> Active(events[..j]) <= peak
    ensures at <= |events| && Active(events[..at]) == peak
  {
    var active := 0;
    peak, at := 0, 0;
    for i := 0 to |events|
      invariant active == Active(events[..i])
      invariant forall j :: 0 <= j <= i ==> Active(events[..j]) <= peak
      invariant at <= i && Active(events[..at]) == peak
    {
      assert events[..i + 1][..i] == events[..i];
      active := active + events[i].delta;
      if peak < active {
        peak, at := active, i + 1;
      }
    }
  }

  lemma {:induction false} ActiveAtConcat(a: seq<Event>, b: seq<Event>, t: int)
    ensures ActiveAt(a + b, t) == ActiveAt(a, t) + ActiveAt(b, t)
  {
    if b == [] {
      assert a + b == a;
    } else {
      assert (a + b)[..|a + b| - 1] == a + b[..|b| - 1];
      ActiveAtConcat(a, b[..|b| - 1], t);
    }
  }

  /** The events at or before `t` count the trades open at `t`, zero-length trades included. */
  lemma {:induction false} EventsCountOpen(spans: seq<Span>, t: int)
    requires forall s :: s in spans ==> s.entry <= s.exit
    ensures ActiveAt(EventsOf(spans), t) == OpenAt(spans, t)
  {
    if spans != [] {
      var rest, last := spans[..|spans| - 1], spans[|spans| - 1];
      EventsCountOpen(rest, t);
      var pair := [Event(last.entry, 1), Event(last.exit, -1)];
      ActiveAtConcat(EventsOf(rest), pair, t);
      assert last in spans;
      assert pair[..1] == [Event(last.entry, 1)] && pair[..1][..0] == [];
      assert ActiveAt(pair[..1], t) == if last.entry <= t then 1 else 0;
      assert ActiveAt(pair, t) == ActiveAt(pair[..1], t) - if last.exit <= t then 1 else 0;
    }
  }

  lemma {:induction false} SortKeepsCounts(events: seq<Event>, leq: (Event, Event) -> bool, t: int)
    ensures ActiveAt(StableSort(events, leq), t) == ActiveAt(events, t)
  {
    if events != [] {
      SortKeepsCounts(events[1..], leq, t);
      InsertAddsCount(events[0], StableSort(events[1..], leq), leq, t);
      assert events == [events[0]] + events[1..];
      ActiveAtConcat([events[0]], events[1..], t);
    }
  }

  lemma {:induction false} InsertAddsCount(e: Event, s: seq<Event>, leq: (Event, Event) -> bool, t: int)
    ensures ActiveAt(Insert(e, s, leq), t) == ActiveAt([e], t) + ActiveAt(s, t)
  {
    ActiveAtConcat([e], s, t);
    if s == [] {
      assert [e] + s == [e];
    } else {
      assert s == [s[0]] + s[1..];
      ActiveAtConcat([s[0]], s[1..], t);
      InsertAddsCount(e, s[1..], leq, t);
      ActiveAtConcat([s[0]], Insert(e, s[1..], leq), t);
    }
  }

  /** In an ordered list the events at or before `t` form a prefix. */
  lemma {:induction false} CountIsPrefix(events: seq<Event>, t: int) returns (j: nat)
    requires Sorted(events, ByTimeThenDelta())
    ensures j <= |events| && Active(events[..j]) == ActiveAt(events, t)
    ensures j < |events| ==> events[j].time > t
  {
    if events == [] {
      j := 0;
    } else {
      var rest := events[..|events| - 1];
      j := CountIsPrefix(rest, t);
      assert events[..j] == rest[..j];
      if events[|events| - 1].time <= t {
        if j < |rest| {
          assert false;
        }
        j := |events|;
        assert events[..j] == events && rest[..|rest|] == rest;
      }
    }
  }

  /** Every prefix sum is dominated by the count at some event time, or by zero. */
  lemma {:induction false} PrefixBelowCount(events: seq<Event>, j: nat)
    requires Sorted(events, ByTimeThenDelta()) && j <= |events|
    requires forall e :: e in events ==> e.delta == 1 || e.delta == -1
    ensures Active(events[..j]) <= 0 || exists t :: Active(events[..j]) <= ActiveAt(events, t)
  {
    if j > 0 {
      var e := events[j - 1];
      assert events[..j][..j - 1] == events[..j - 1];
      assert e in events;
      if e.delta == -1 {
        PrefixBelowCount(events, j - 1);
      } else {
        EntriesOnlyAfter(events, j, |events|);
        assert events[..|events|] == events;
      }
    }
  }

  /** After an entry at its time only further entries at that time can follow. */
  lemma {:induction false} EntriesOnlyAfter(events: seq<Event>, j: nat, n: nat)
    requires Sorted(events, ByTimeThenDelta()) && 0 < j <= n <= |events| && events[j - 1].delta == 1
    requires forall e :: e in events ==> e.delta == 1 || e.delta == -1
    ensures Active(events[..j]) <= ActiveAt(events[..n], events[j - 1].time)
  {
    assert events[..n][..n - 1] == events[..n - 1];
    if n == j {
      AllCounted(events[..j], events[j - 1].time);
    } else {
      EntriesOnlyAfter(events, j, n - 1);
      assert ByTimeThenDelta()(events[j - 1], events[n - 1]);
      assert events[n - 1] in events;
    }
  }

  lemma {:induction false} AllCounted(events: seq<Event>, t: int)
    requires forall i :: 0 <= i < |events| ==> events[i].time <= t
    ensures Active(events) == ActiveAt(events, t)
  {
    if events != [] {
      AllCounted(events[..|events| - 1], t);
    }
  }

  /** The reference meaning of a peak overlap. */
  ghost predicate IsPeakOverlap(spans: seq<Span>, peak: int)
  {
    && (forall t :: OpenAt(spans, t) <= peak)
    && (peak == 0 || exists t :: OpenAt(spans, t) == peak)
  }

  lemma SweepFindsPeak(spans: seq<Span>, events: seq<Event>, peak: int, at: nat)
    requires forall s :: s in spans ==> s.entry <= s.exit
    requires events == StableSort(EventsOf(spans), ByTimeThenDelta())
    requires forall j :: 0 <= j <= |events| ==> Active(events[..j]) <= peak
    requires at <= |events| && Active(events[..at]) == peak
    ensures IsPeakOverlap(spans, peak)
  {
    StableSortSorts(EventsOf(spans), ByTimeThenDelta());
    forall t ensures OpenAt(spans, t) <= peak && OpenAt(spans, t) == ActiveAt(events, t) {
      EventsCountOpen(spans, t);
      SortKeepsCounts(EventsOf(spans), ByTimeThenDelta(), t);
      var j := CountIsPrefix(events, t);
    }
    forall e | e in events ensures e.delta == 1 || e.delta == -1 {
      assert e in multiset(events);
      assert e in EventsOf(spans);
    }
    assert Active(events[..0]) == 0;
    PrefixBelowCount(events, at);
    if peak > 0 {
      var t :| peak <= ActiveAt(events, t);
      assert OpenAt(spans, t) == peak;
    }
  }

  /** `max_concurrent_trades`: the largest number of trades open at any one time, given that no
      trade exits before it enters. */
  method MaxConcurrentTrades(spans: seq<Span>) returns (peak: int)
    ensures (forall s :: s in spans ==> s.entry <= s.exit) ==> IsPeakOverlap(spans, peak)
  {
    var events: seq<Event> := [];
    assert spans[..0] == [];
    for i := 0 to |spans|
      invariant events == EventsOf(spans[..i])
    {
      assert spans[..i + 1][..i] == spans[..i];
      events := events + [Event(spans[i].entry, 1), Event(spans[i].exit, -1)];
    }
    assert spans[..|spans|] == spans;
    var ordered := StableSort(events, ByTimeThenDelta());
    ghost var at;
    peak, at := Sweep(ordered);
    if forall s :: s in spans ==> s.entry <= s.exit {
      SweepFindsPeak(spans, ordered, peak, at);
    }
  }
}
