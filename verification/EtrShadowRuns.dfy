/** The life of shadow events over any interleaving of polls of any assets. */
module EtrShadowRuns {
  import opened Wrappers
  import opened EtrModels
  import opened EtrShadow

  predicate PricedPoll(polls: seq<Poll>, asset: string, k: int)
  {
    0 <= k < |polls| && polls[k].report.asset == asset && polls[k].report.price.Some?
  }

  /** How many polls of the asset there are from poll `i` to before `n`. */
  function PollsOf(polls: seq<Poll>, asset: string, i: nat, n: nat): nat
  {
    if n <= i then 0
    else PollsOf(polls, asset, i, n - 1) + if n <= |polls| && polls[n - 1].report.asset == asset then 1 else 0
  }

  /** The water marks are the exact extremes of the asset's prices from poll `i` to before `n`, and the
      count of polls is exact. */
  ghost predicate Extremes(e: Event, polls: seq<Poll>, i: nat, n: nat)
  {
    && e.polls == PollsOf(polls, e.asset, i, n)
    && (forall k :: i <= k < n && PricedPoll(polls, e.asset, k) ==> e.low <= polls[k].report.price.value <= e.high)
    && (exists k :: i <= k < n && PricedPoll(polls, e.asset, k) && polls[k].report.price.value == e.high)
    && (exists k :: i <= k < n && PricedPoll(polls, e.asset, k) && polls[k].report.price.value == e.low)
  }

  /** Poll `i` was a zone entry of the asset and opened the event at its price. */
  predicate OpenedAt(c: Codec, e: Event, polls: seq<Poll>, i: nat)
  {
    && i < |polls| && Opens(polls[i], [])
    && var born := NewEvent(c, polls[i].report, polls[i].now);
       e == born.(high := e.high, low := e.low, polls := e.polls)
  }

  /** No poll of the asset between poll `i` and poll `n` gave a reason to close the event. */
  ghost predicate Undecided(e: Event, polls: seq<Poll>, i: nat, n: nat, horizon: int)
  {
    forall k {:trigger polls[k]} :: i < k < n && k < |polls| && polls[k].report.asset == e.asset ==>
      Resolve(e, polls[k].report, polls[k].now, horizon).None?
  }

  ghost predicate OpenSince(c: Codec, e: Event, polls: seq<Poll>, i: nat, n: nat, horizon: int)
  {
    i < n && OpenedAt(c, e, polls, i) && Extremes(e, polls, i, n) && Undecided(e, polls, i, n, horizon)
  }

  /** Opened at poll `i` and closed at poll `j`, the first poll of the asset after it that gives a
      reason; the water marks and so both excursions cover exactly the polls from `i` to `j`. */
  ghost predicate ClosedAt(c: Codec, x: Closed, polls: seq<Poll>, i: nat, j: nat, horizon: int)
  {
    && i < j < |polls| && polls[j].report.asset == x.event.asset
    && OpenedAt(c, x.event, polls, i) && Extremes(x.event, polls, i, j + 1)
    && Undecided(x.event, polls, i, j, horizon)
    && Resolve(x.event, polls[j].report, polls[j].now, horizon) == Some(x.reason)
    && x == Close(x.event, x.reason, polls[j].report, polls[j].now)
  }

  ghost predicate OneEach(events: seq<Event>)
  {
    forall a, b :: 0 <= a < b < |events| ==> events[a].asset != events[b].asset
  }

  ghost predicate WellKeyed(events: seq<Event>)
  {
    forall e :: e in events ==> '|' !in e.asset && e.key == EventKey(e.asset, e.direction, e.zone)
  }

  ghost predicate Inv(c: Codec, s: Log, polls: seq<Poll>, n: nat, horizon: int)
  {
    && n <= |polls|
    && OneEach(s.open) && WellKeyed(s.open)
    && s.started == |s.closed| + |s.open|
    && (forall e :: e in s.open ==> exists i: nat :: OpenSince(c, e, polls, i, n, horizon))
    && (forall x :: x in s.closed ==> exists i: nat, j: nat :: j < n && ClosedAt(c, x, polls, i, j, horizon))
  }

  /** Where each kept and each resolved event comes from. */
  predicate KeptFrom(e: Event, x: Event, p: Poll, horizon: int)
  {
    if e.asset != p.report.asset then x == e
    else Resolve(e, p.report, p.now, horizon).None? && x == Touch(e, p.report)
  }

  predicate ResolvedFrom(e: Event, x: Closed, p: Poll, horizon: int)
  {
    && e.asset == p.report.asset && Resolve(e, p.report, p.now, horizon).Some?
    && x == Close(Touch(e, p.report), Resolve(e, p.report, p.now, horizon).value, p.report, p.now)
  }

  lemma {:induction false} KeptOrigin(events: seq<Event>, p: Poll, horizon: int, x: Event) returns (e: Event)
    requires x in Kept(events, p, horizon)
    ensures e in events && KeptFrom(e, x, p, horizon)
  {
    hide Resolve, Touch;
    var init, last := events[..|events| - 1], events[|events| - 1];
    if x in Kept(init, p, horizon) {
      e := KeptOrigin(init, p, horizon, x);
    } else {
      e := last;
    }
  }

  lemma {:induction false} ResolvedOrigin(events: seq<Event>, p: Poll, horizon: int, x: Closed) returns (e: Event)
    requires x in Resolved(events, p, horizon)
    ensures e in events && ResolvedFrom(e, x, p, horizon)
  {
    hide Resolve, Touch, Close;
    var init, last := events[..|events| - 1], events[|events| - 1];
    if x in Resolved(init, p, horizon) {
      e := ResolvedOrigin(init, p, horizon, x);
    } else {
      e := last;
    }
  }

  /** Every event is either kept or resolved, never both and never twice. */
  lemma {:induction false} SettlePartitions(events: seq<Event>, p: Poll, horizon: int)
    ensures |Kept(events, p, horizon)| + |Resolved(events, p, horizon)| == |events|
  {
    if events != [] {
      SettlePartitions(events[..|events| - 1], p, horizon);
    }
  }

  lemma {:induction false} KeptStaysDistinct(events: seq<Event>, p: Poll, horizon: int)
    requires OneEach(events)
    ensures OneEach(Kept(events, p, horizon))
  {
    hide Resolve;
    if events != [] {
      var init, last := events[..|events| - 1], events[|events| - 1];
      KeptStaysDistinct(init, p, horizon);
      forall x | x in Kept(init, p, horizon) ensures x.asset != last.asset {
        var e := KeptOrigin(init, p, horizon, x);
      }
    }
  }

  /** Before the first bar of a key stands its asset, so equal keys mean equal assets. */
  lemma KeyNamesAsset(a: string, b: string, s: string, t: string)
    requires '|' !in a && '|' !in b && a + "|" + s == b + "|" + t
    ensures a == b
  {
    var w := a + "|" + s;
    assert w == b + "|" + t && w[|a|] == '|' && w[|b|] == '|';
    assert forall k :: 0 <= k < |a| ==> w[k] == a[k];
    assert forall k :: 0 <= k < |b| ==> w[k] == b[k];
    assert |a| == |b|;
  }

  lemma {:induction false} PutFresh(events: seq<Event>, e: Event)
    requires forall x :: x in events ==> x.key != e.key
    ensures Put(events, e) == events + [e]
  {
    if events != [] {
      PutFresh(events[1..], e);
    }
  }

  /** Opening an event never overwrites another. */
  lemma OpeningNeverOverwrites(c: Codec, kept: seq<Event>, p: Poll)
    requires WellKeyed(kept) && '|' !in p.report.asset && Opens(p, kept)
    ensures Put(kept, NewEvent(c, p.report, p.now)) == kept + [NewEvent(c, p.report, p.now)]
  {
    hide Text.Norm;
    var e := NewEvent(c, p.report, p.now);
    forall x | x in kept ensures x.key != e.key {
      assert x.asset != p.report.asset;
      if x.key == e.key {
        var s, t := Text.Norm(x.direction) + "|" + x.zone, Text.Norm(e.direction) + "|" + e.zone;
        assert x.key == x.asset + "|" + s && e.key == e.asset + "|" + t;
        KeyNamesAsset(x.asset, e.asset, s, t);
      }
    }
    PutFresh(kept, e);
  }

  /** A poll of the asset keeps the water marks exact; a poll of another asset leaves them alone. */
  lemma TouchKeepsExtremes(e: Event, polls: seq<Poll>, i: nat, n: nat)
    requires i <= n < |polls| && polls[n].report.asset == e.asset && Extremes(e, polls, i, n)
    ensures Extremes(Touch(e, polls[n].report), polls, i, n + 1)
  {
    var x := Touch(e, polls[n].report);
    var hi :| i <= hi < n && PricedPoll(polls, e.asset, hi) && polls[hi].report.price.value == e.high;
    var lo :| i <= lo < n && PricedPoll(polls, e.asset, lo) && polls[lo].report.price.value == e.low;
    var top := if x.high == e.high then hi else n;
    var bottom := if x.low == e.low then lo else n;
    assert PricedPoll(polls, x.asset, top) && polls[top].report.price.value == x.high;
    assert PricedPoll(polls, x.asset, bottom) && polls[bottom].report.price.value == x.low;
  }

  lemma SkipKeepsExtremes(e: Event, polls: seq<Poll>, i: nat, n: nat)
    requires i <= n < |polls| && polls[n].report.asset != e.asset && Extremes(e, polls, i, n)
    ensures Extremes(e, polls, i, n + 1)
  {
  }

  lemma KeptStaysOpen(c: Codec, e: Event, x: Event, polls: seq<Poll>, i: nat, n: nat, horizon: int)
    requires n < |polls| && OpenSince(c, e, polls, i, n, horizon) && KeptFrom(e, x, polls[n], horizon)
    ensures OpenSince(c, x, polls, i, n + 1, horizon)
  {
    if e.asset == polls[n].report.asset {
      TouchKeepsExtremes(e, polls, i, n);
    } else {
      SkipKeepsExtremes(e, polls, i, n);
    }
  }

  lemma ResolvedCloses(c: Codec, e: Event, x: Closed, polls: seq<Poll>, i: nat, n: nat, horizon: int)
    requires n < |polls| && OpenSince(c, e, polls, i, n, horizon) && ResolvedFrom(e, x, polls[n], horizon)
    ensures ClosedAt(c, x, polls, i, n, horizon)
  {
    TouchKeepsExtremes(e, polls, i, n);
  }

  lemma NewIsOpen(c: Codec, polls: seq<Poll>, n: nat, horizon: int)
    requires n < |polls| && Opens(polls[n], [])
    ensures OpenSince(c, NewEvent(c, polls[n].report, polls[n].now), polls, n, n + 1, horizon)
  {
    var e := NewEvent(c, polls[n].report, polls[n].now);
    assert PricedPoll(polls, e.asset, n);
  }

  lemma KeptStaysKeyed(events: seq<Event>, p: Poll, horizon: int)
    requires WellKeyed(events)
    ensures WellKeyed(Kept(events, p, horizon))
  {
    forall x | x in Kept(events, p, horizon)
      ensures '|' !in x.asset && x.key == EventKey(x.asset, x.direction, x.zone)
    {
      var e := KeptOrigin(events, p, horizon, x);
    }
  }

  lemma StepKeepsShape(c: Codec, s: Log, polls: seq<Poll>, n: nat, horizon: int)
    requires n < |polls| && Inv(c, s, polls, n, horizon) && '|' !in polls[n].report.asset
    ensures OneEach(Step(c, s, polls[n], horizon).open) && WellKeyed(Step(c, s, polls[n], horizon).open)
    ensures var r := Step(c, s, polls[n], horizon); r.started == |r.closed| + |r.open|
  {
    var p := polls[n];
    KeptStaysDistinct(s.open, p, horizon);
    KeptStaysKeyed(s.open, p, horizon);
    SettlePartitions(s.open, p, horizon);
    if Opens(p, Kept(s.open, p, horizon)) {
      OpeningNeverOverwrites(c, Kept(s.open, p, horizon), p);
    }
  }

  lemma StepKeepsOpen(c: Codec, s: Log, polls: seq<Poll>, n: nat, horizon: int, x: Event) returns (i: nat)
    requires n < |polls| && Inv(c, s, polls, n, horizon) && '|' !in polls[n].report.asset
    requires x in Step(c, s, polls[n], horizon).open
    ensures OpenSince(c, x, polls, i, n + 1, horizon)
  {
    hide OpenSince, KeptFrom;
    var p := polls[n];
    var kept := Kept(s.open, p, horizon);
    if Opens(p, kept) {
      KeptStaysKeyed(s.open, p, horizon);
      OpeningNeverOverwrites(c, kept, p);
    }
    if x in kept {
      var e := KeptOrigin(s.open, p, horizon, x);
      i :| OpenSince(c, e, polls, i, n, horizon);
      KeptStaysOpen(c, e, x, polls, i, n, horizon);
    } else {
      i := n;
      NewIsOpen(c, polls, n, horizon);
    }
  }

  lemma StepKeepsClosed(c: Codec, s: Log, polls: seq<Poll>, n: nat, horizon: int, x: Closed) returns (i: nat, j: nat)
    requires n < |polls| && Inv(c, s, polls, n, horizon)
    requires x in Step(c, s, polls[n], horizon).closed
    ensures j <= n && ClosedAt(c, x, polls, i, j, horizon)
  {
    hide OpenSince, ClosedAt, ResolvedFrom;
    if x in s.closed {
      i, j :| j < n && ClosedAt(c, x, polls, i, j, horizon);
    } else {
      var e := ResolvedOrigin(s.open, polls[n], horizon, x);
      i :| OpenSince(c, e, polls, i, n, horizon);
      j := n;
      ResolvedCloses(c, e, x, polls, i, n, horizon);
    }
  }

  /** Over any interleaving of assets: at most one open event per asset, opened events are the
      resolved ones plus the open ones, and every event's whole history is as it should be. */
  lemma {:induction false} RunKeepsInv(c: Codec, polls: seq<Poll>, n: nat, horizon: int)
    requires n <= |polls| && forall k :: 0 <= k < n ==> '|' !in polls[k].report.asset
    ensures Inv(c, Run(c, polls, n, horizon), polls, n, horizon)
  {
    hide OpenSince, ClosedAt, Step, OneEach, WellKeyed;
    if n > 0 {
      RunKeepsInv(c, polls, n - 1, horizon);
      var s := Run(c, polls, n - 1, horizon);
      StepKeepsShape(c, s, polls, n - 1, horizon);
      var r := Step(c, s, polls[n - 1], horizon);
      forall e | e in r.open ensures exists i: nat :: OpenSince(c, e, polls, i, n, horizon) {
        var i := StepKeepsOpen(c, s, polls, n - 1, horizon, e);
      }
      forall x | x in r.closed ensures exists i: nat, j: nat :: j < n && ClosedAt(c, x, polls, i, j, horizon) {
        var i, j := StepKeepsClosed(c, s, polls, n - 1, horizon, x);
      }
    } else {
      StartIsEmpty(c, polls, horizon);
    }
  }

  lemma StartIsEmpty(c: Codec, polls: seq<Poll>, horizon: int)
    ensures Inv(c, Log([], [], 0), polls, 0, horizon)
  {
  }

  /** The water marks bracket the entry, so neither excursion is ever negative. */
  lemma ExcursionsAreNonNegative(c: Codec, polls: seq<Poll>, n: nat, horizon: int)
    requires n <= |polls| && forall k :: 0 <= k < n ==> '|' !in polls[k].report.asset
    ensures forall e :: e in Run(c, polls, n, horizon).open ==> e.low <= e.entry <= e.high
    ensures forall x :: x in Run(c, polls, n, horizon).closed ==> x.mfe >= 0.0 && x.mae >= 0.0
  {
    hide Run, OneEach, WellKeyed, Undecided;
    RunKeepsInv(c, polls, n, horizon);
    var s := Run(c, polls, n, horizon);
    forall e | e in s.open ensures e.low <= e.entry <= e.high {
      var i: nat :| OpenSince(c, e, polls, i, n, horizon);
      assert PricedPoll(polls, e.asset, i);
    }
    forall x | x in s.closed ensures x.mfe >= 0.0 && x.mae >= 0.0 {
      var i: nat, j: nat :| j < n && ClosedAt(c, x, polls, i, j, horizon);
      assert PricedPoll(polls, x.event.asset, i);
    }
  }

  /** How far a level lies from the entry in the event's favourable direction. */
  function Reward(e: Event, level: real): real
  {
    if IsShort(e.direction) then e.entry - level else level - e.entry
  }

  /** A target hit has gone at least as far as the target, and an invalidation at least as far
      against. */
  predicate ReachesItsLevel(x: Closed)
  {
    && (x.reason == HitTp1 ==> x.event.tp1.Some? && x.mfe >= Reward(x.event, x.event.tp1.value))
    && (x.reason == HitInvalidation ==>
          x.event.invalidation.Some? && x.mae >= -Reward(x.event, x.event.invalidation.value))
  }

  lemma ClosedReachesLevel(c: Codec, x: Closed, polls: seq<Poll>, i: nat, j: nat, horizon: int)
    requires ClosedAt(c, x, polls, i, j, horizon)
    ensures ReachesItsLevel(x)
  {
    hide IsShort, OpenedAt;
    assert PricedPoll(polls, x.event.asset, j);
  }

  lemma ExcursionsReachTheLevel(c: Codec, polls: seq<Poll>, n: nat, horizon: int)
    requires n <= |polls| && forall k :: 0 <= k < n ==> '|' !in polls[k].report.asset
    ensures forall x :: x in Run(c, polls, n, horizon).closed ==> ReachesItsLevel(x)
  {
    hide ClosedAt, ReachesItsLevel;
    RunKeepsInv(c, polls, n, horizon);
    forall x | x in Run(c, polls, n, horizon).closed ensures ReachesItsLevel(x) {
      var i: nat, j: nat :| j < n && ClosedAt(c, x, polls, i, j, horizon);
      ClosedReachesLevel(c, x, polls, i, j, horizon);
    }
  }

  /** After a priced poll of an asset, every event of it that is still open is younger than the
      horizon, the one just opened included. */
  lemma PricedPollClearsHorizon(c: Codec, polls: seq<Poll>, n: nat, horizon: int, e: Event)
    requires 0 < n <= |polls| && horizon > 0 && forall k :: 0 <= k < n ==> '|' !in polls[k].report.asset
    requires polls[n - 1].report.price.Some?
    requires e in Run(c, polls, n, horizon).open && e.asset == polls[n - 1].report.asset
    ensures polls[n - 1].now - e.openedAt < horizon
  {
    hide IsShort, Reaches, Breaches, Flipped, Extremes, Run, OneEach, WellKeyed, ClosedAt, Opens;
    RunKeepsInv(c, polls, n, horizon);
    var i: nat :| OpenSince(c, e, polls, i, n, horizon);
    if i < n - 1 {
      assert Resolve(e, polls[n - 1].report, polls[n - 1].now, horizon).None?;
    }
  }
}
