/** Delayed pivot confirmation on higher-timeframe bars (scripts/run_htf_fib_backtest.py). */
module Pivots {
  import opened Wrappers
  import opened Seqs
  import opened Market
  import opened Swing

  /** The bar at which a candidate becomes knowable: one bar after its right-hand side closed. */
  function ConfirmIndex(candidate: nat, right: posint): nat
  {
    candidate + right + 1
  }

  predicate IsPivotHigh(bars: seq<Bar>, c: nat, left: posint, right: posint)
    requires left <= c && c + right < |bars|
  {
    bars[c].high >= MaxHigh(bars, c - left, c) && bars[c].high > MaxHigh(bars, c + 1, c + right + 1)
  }

  predicate IsPivotLow(bars: seq<Bar>, c: nat, left: posint, right: posint)
    requires left <= c && c + right < |bars|
  {
    bars[c].low <= MinLow(bars, c - left, c) && bars[c].low < MinLow(bars, c + 1, c + right + 1)
  }

  /** The events a candidate gives, high first. */
  function EventsAt(bars: seq<Bar>, c: nat, left: posint, right: posint): seq<PivotEvent>
    requires left <= c && ConfirmIndex(c, right) < |bars|
  {
    var confirmed := bars[ConfirmIndex(c, right)].ts;
    (if IsPivotHigh(bars, c, left, right) then [PivotEvent(confirmed, bars[c].ts, High, bars[c].high)] else []) +
    (if IsPivotLow(bars, c, left, right) then [PivotEvent(confirmed, bars[c].ts, Low, bars[c].low)] else [])
  }

  /** The events of all candidates below `n`, in the order they are found. */
  function EventsBelow(bars: seq<Bar>, left: posint, right: posint, n: nat): seq<PivotEvent>
    requires n <= left || n + right < |bars|
  {
    if n <= left then [] else EventsBelow(bars, left, right, n - 1) + EventsAt(bars, n - 1, left, right)
  }

  /** Number of the first candidate that is not confirmed yet. */
  function CandidateEnd(length: nat, right: posint): nat
  {
    if length <= right + 1 then 0 else length - right - 1
  }

  function AllEvents(bars: seq<Bar>, left: posint, right: posint): seq<PivotEvent>
  {
    EventsBelow(bars, left, right, CandidateEnd(|bars|, right))
  }

  /** The key (confirmation time, pivot time, kind), with "high" before "low". */
  predicate KeyLeq(a: PivotEvent, b: PivotEvent)
  {
    a.confirmationTime < b.confirmationTime ||
    (a.confirmationTime == b.confirmationTime &&
     (a.pivotTime < b.pivotTime || (a.pivotTime == b.pivotTime && (a.kind == High || b.kind == Low))))
  }

  function ByKey(): (PivotEvent, PivotEvent) -> bool
  {
    (a, b) => KeyLeq(a, b)
  }

  /** `confirmed_pivot_events`. */
  method ConfirmedPivotEvents(bars: seq<Bar>, left: posint, right: posint) returns (events: seq<PivotEvent>)
    ensures events == StableSort(AllEvents(bars, left, right), ByKey())
  {
    events := [];
    var c: nat := left;
    while c <= |bars| - right - 1
      invariant left <= c && (c == left || c + right < |bars|)
      invariant events == EventsBelow(bars, left, right, c)
      invariant c == left || c <= CandidateEnd(|bars|, right)
    {
      var confirmation := ConfirmIndex(c, right);
      if confirmation >= |bars| {
        break;
      }
      var confirmed, pivotTime := bars[confirmation].ts, bars[c].ts;
      if IsPivotHigh(bars, c, left, right) {
        events := events + [PivotEvent(confirmed, pivotTime, High, bars[c].high)];
      }
      if IsPivotLow(bars, c, left, right) {
        events := events + [PivotEvent(confirmed, pivotTime, Low, bars[c].low)];
      }
      c := c + 1;
    }
    events := StableSort(events, ByKey());
  }

  lemma EventsAtTime(bars: seq<Bar>, c: nat, left: posint, right: posint)
    requires left <= c && ConfirmIndex(c, right) < |bars|
    ensures forall e :: e in EventsAt(bars, c, left, right) ==> e.confirmationTime == bars[ConfirmIndex(c, right)].ts
    ensures Sorted(EventsAt(bars, c, left, right), ByKey())
  {
  }

  /** Confirmation times of the candidates below `n` all lie before `t`. */
  lemma {:induction false} ConfirmedBeforeNext(bars: seq<Bar>, left: posint, right: posint, n: nat, t: int)
    requires Chronological(bars) && (n <= left || (n + right < |bars| && bars[n + right].ts < t))
    ensures forall e :: e in EventsBelow(bars, left, right, n) ==> e.confirmationTime < t
  {
    hide EventsAt;
    if n > left {
      ConfirmedBeforeNext(bars, left, right, n - 1, t);
      EventsAtTime(bars, n - 1, left, right);
    }
  }

  /** The list is already in key order when it is built, so the final sort changes nothing. */
  lemma {:induction false} EventsAreSorted(bars: seq<Bar>, left: posint, right: posint, n: nat)
    requires Chronological(bars) && (n <= left || n + right < |bars|)
    ensures Sorted(EventsBelow(bars, left, right, n), ByKey())
  {
    hide EventsAt, ByKey;
    if n > left {
      hide Sorted;
      EventsAreSorted(bars, left, right, n - 1);
      ConfirmedBeforeNext(bars, left, right, n - 1, bars[n + right].ts);
      EventsAtTime(bars, n - 1, left, right);
      AppendLater(EventsBelow(bars, left, right, n - 1), EventsAt(bars, n - 1, left, right), bars[n + right].ts);
    }
  }

  lemma AppendLater(before: seq<PivotEvent>, now: seq<PivotEvent>, t: int)
    requires Sorted(before, ByKey()) && Sorted(now, ByKey())
    requires forall e :: e in before ==> e.confirmationTime < t
    requires forall e :: e in now ==> e.confirmationTime == t
    ensures Sorted(before + now, ByKey())
  {
    forall i, j | 0 <= i < |before| && 0 <= j < |now| ensures KeyLeq(before[i], now[j]) {
      assert before[i] in before && now[j] in now;
    }
  }

  lemma FinalSortIsIdentity(bars: seq<Bar>, left: posint, right: posint)
    requires Chronological(bars)
    ensures StableSort(AllEvents(bars, left, right), ByKey()) == AllEvents(bars, left, right)
  {
    EventsAreSorted(bars, left, right, CandidateEnd(|bars|, right));
    SortedIsFixed(AllEvents(bars, left, right), ByKey());
  }

  /** What is confirmed by time `t`. */
  function ConfirmedBefore(t: int): PivotEvent -> bool
  {
    (e: PivotEvent) => e.confirmationTime < t
  }

  lemma EventsAtSameStart(a: seq<Bar>, b: seq<Bar>, k: nat, c: nat, left: posint, right: posint)
    requires SameStart(a, b, k) && left <= c && ConfirmIndex(c, right) < k
    ensures EventsAt(a, c, left, right) == EventsAt(b, c, left, right)
  {
    SameStartAt(a, b, k, c);
    SameStartAt(a, b, k, ConfirmIndex(c, right));
    ExtremesSameStart(a, b, k, c - left, c);
    ExtremesSameStart(a, b, k, c + 1, c + right + 1);
  }

  lemma {:induction false} EventsSameStart(a: seq<Bar>, b: seq<Bar>, k: nat, left: posint, right: posint, n: nat)
    requires SameStart(a, b, k) && (n <= left || n + right < k)
    ensures EventsBelow(a, left, right, n) == EventsBelow(b, left, right, n)
  {
    hide EventsAt;
    if n > left {
      EventsSameStart(a, b, k, left, right, n - 1);
      EventsAtSameStart(a, b, k, n - 1, left, right);
    }
  }

  /** Candidates from `m` on only append events, and those confirm at or after time `t`. */
  lemma {:induction false} LaterEventsConfirmLater(bars: seq<Bar>, left: posint, right: posint, m: nat, n: nat, t: int)
    requires Chronological(bars) && m <= n && (n <= left || n + right < |bars|)
    requires m < n && left < n ==> t <= bars[ConfirmIndex(m, right)].ts
    ensures EventsBelow(bars, left, right, m) <= EventsBelow(bars, left, right, n)
    ensures forall e :: e in EventsBelow(bars, left, right, n)[|EventsBelow(bars, left, right, m)|..] ==>
      e.confirmationTime >= t
  {
    hide EventsAt;
    if m < n && n > left {
      LaterEventsConfirmLater(bars, left, right, m, n - 1, t);
      assert t <= bars[n + right].ts;
      var early, most := EventsBelow(bars, left, right, m), EventsBelow(bars, left, right, n - 1);
      var more := EventsAt(bars, n - 1, left, right);
      assert forall e :: e in more ==> e.confirmationTime >= t by {
        EventsAtTime(bars, n - 1, left, right);
      }
      TailGrows(early, most, more, t);
      assert EventsBelow(bars, left, right, n) == most + more;
    }
  }

  lemma TailGrows(early: seq<PivotEvent>, most: seq<PivotEvent>, more: seq<PivotEvent>, t: int)
    requires early <= most
    requires forall e :: e in most[|early|..] ==> e.confirmationTime >= t
    requires forall e :: e in more ==> e.confirmationTime >= t
    ensures early <= most + more
    ensures forall e :: e in (most + more)[|early|..] ==> e.confirmationTime >= t
  {
    assert (most + more)[|early|..] == most[|early|..] + more;
  }

  /** Confirmation is prefix-stable: the events of a prefix of `k` bars are exactly the events
      of the whole series that confirm before bar `k`. */
  lemma PrefixStable(bars: seq<Bar>, left: posint, right: posint, k: nat)
    requires Chronological(bars) && k < |bars|
    ensures AllEvents(bars[..k], left, right) == Filter(AllEvents(bars, left, right), ConfirmedBefore(bars[k].ts))
  {
    hide EventsBelow, EventsAt;
    var m, n, t := CandidateEnd(k, right), CandidateEnd(|bars|, right), bars[k].ts;
    EventsSameStart(bars[..k], bars, k, left, right, m);
    var early, all := EventsBelow(bars, left, right, m), AllEvents(bars, left, right);
    LaterEventsConfirmLater(bars, left, right, m, n, t);
    ConfirmedBeforeNext(bars, left, right, m, t);
    forall j | 0 <= j < |early| ensures all[j].confirmationTime < t {
      assert all[j] == early[j] && early[j] in early;
    }
    forall j | |early| <= j < |all| ensures all[j].confirmationTime >= t {
      assert all[|early|..][j - |early|] == all[j];
    }
    FilterSplit(all, |early|, ConfirmedBefore(t));
  }

  /** A pivot uses no bar at or after its confirmation bar: changing those keeps it. */
  lemma PivotReadsOnlyClosedBars(a: seq<Bar>, b: seq<Bar>, c: nat, left: posint, right: posint)
    requires left <= c && SameStart(a, b, ConfirmIndex(c, right))
    ensures IsPivotHigh(a, c, left, right) == IsPivotHigh(b, c, left, right)
    ensures IsPivotLow(a, c, left, right) == IsPivotLow(b, c, left, right)
  {
    var k := ConfirmIndex(c, right);
    SameStartAt(a, b, k, c);
    ExtremesSameStart(a, b, k, c - left, c);
    ExtremesSameStart(a, b, k, c + 1, c + right + 1);
  }

  /** Two pivots of one kind are more than min(left, right) bars apart. */
  lemma PivotsAreSpread(bars: seq<Bar>, left: posint, right: posint, c: nat, d: nat)
    requires left <= c < d && d + right < |bars|
    requires (IsPivotHigh(bars, c, left, right) && IsPivotHigh(bars, d, left, right))
          || (IsPivotLow(bars, c, left, right) && IsPivotLow(bars, d, left, right))
    ensures d - c > left || d - c > right
  {
    if d - c <= left && d - c <= right {
      MaxHighBounds(bars, c + 1, c + right + 1, d);
      MaxHighBounds(bars, d - left, d, c);
      MinLowBounds(bars, c + 1, c + right + 1, d);
      MinLowBounds(bars, d - left, d, c);
      assert false;
    }
  }
}
