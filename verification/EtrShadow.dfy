/** The forward shadow log: paper events opened on a zone entry and followed from poll to poll
    (src/etr/shadow.py). Times and the horizon are integers in one unit. */
module EtrShadow {
  import opened Wrappers
  import opened Seqs
  import opened Text
  import opened EtrModels
  import opened EtrDiff

  datatype Event = Event(
    asset: string, key: string, openedAt: int, entry: real, direction: string, zone: string,
    invalidation: Option<real>, tp1: Option<real>, high: real, low: real, polls: nat)

  datatype Reason = HitTp1 | HitInvalidation | BiasFlip | Expired

  datatype Closed = Closed(event: Event, reason: Reason, closedAt: int, exitPrice: Option<real>, mfe: real, mae: real)

  /** What one poll of one asset hands to the log. */
  datatype Poll = Poll(report: Report, changes: seq<Change>, now: int)

  /** The open events in the order of the stored dictionary, the log of closed ones, and the sum
      of the `opened` counts returned so far. */
  datatype Log = Log(open: seq<Event>, closed: seq<Closed>, started: nat)

  function EventKey(asset: string, direction: string, zone: string): string
  {
    asset + "|" + Norm(direction) + "|" + zone
  }

  predicate IsShort(direction: string)
  {
    var d := Norm(direction);
    Contains(d, "baj") || Contains(d, "sell") || Contains(d, "bear")
  }

  /** The bias has turned against the event's direction. */
  predicate Flipped(direction: string, bias: string)
  {
    var d, b := Norm(direction), Norm(bias);
    (Contains(d, "baj") && Contains(b, "alc")) || (Contains(d, "alc") && Contains(b, "baj"))
  }

  /** `_mfe_mae`. */
  function MfeMae(e: Event): (real, real)
  {
    if IsShort(e.direction) then (e.entry - e.low, e.high - e.entry) else (e.high - e.entry, e.entry - e.low)
  }

  /** The price is at or beyond a level, on the target side and on the stop side. */
  predicate Reaches(short: bool, price: real, level: Option<real>)
  {
    level.Some? && if short then price <= level.value else price >= level.value
  }

  predicate Breaches(short: bool, price: real, level: Option<real>)
  {
    level.Some? && if short then price >= level.value else price <= level.value
  }

  /** `_resolve_reason`: nothing resolves without a price. */
  function Resolve(e: Event, r: Report, now: int, horizon: int): Option<Reason>
  {
    if r.price.None? then None
    else if Reaches(IsShort(e.direction), r.price.value, e.tp1) then Some(HitTp1)
    else if Breaches(IsShort(e.direction), r.price.value, e.invalidation) then Some(HitInvalidation)
    else if Flipped(e.direction, r.bias) then Some(BiasFlip)
    else if now - e.openedAt >= horizon then Some(Expired)
    else None
  }

  /** One more poll of the event's asset. */
  function Touch(e: Event, r: Report): Event
  {
    if r.price.None? then e.(polls := e.polls + 1)
    else e.(high := Max(e.high, r.price.value), low := Min(e.low, r.price.value), polls := e.polls + 1)
  }

  function Close(e: Event, reason: Reason, r: Report, now: int): Closed
  {
    Closed(e, reason, now, r.price, MfeMae(e).0, MfeMae(e).1)
  }

  /** The events that stay open. */
  function Kept(events: seq<Event>, p: Poll, horizon: int): seq<Event>
  {
    if events == [] then []
    else
      var e := events[|events| - 1];
      Kept(events[..|events| - 1], p, horizon) +
      if e.asset != p.report.asset then [e]
      else if Resolve(e, p.report, p.now, horizon).None? then [Touch(e, p.report)]
      else []
  }

  /** The events that this poll resolves. */
  function Resolved(events: seq<Event>, p: Poll, horizon: int): seq<Closed>
  {
    if events == [] then []
    else
      var e := events[|events| - 1];
      Resolved(events[..|events| - 1], p, horizon) +
      if e.asset == p.report.asset && Resolve(e, p.report, p.now, horizon).Some?
      then [Close(Touch(e, p.report), Resolve(e, p.report, p.now, horizon).value, p.report, p.now)]
      else []
  }

  /** How many of the events are of this asset. */
  function CountOf(events: seq<Event>, asset: string): nat
  {
    if events == [] then 0
    else CountOf(events[..|events| - 1], asset) + if events[|events| - 1].asset == asset then 1 else 0
  }

  predicate HasAsset(events: seq<Event>, asset: string)
  {
    exists i :: 0 <= i < |events| && events[i].asset == asset
  }

  function NewEvent(c: Codec, r: Report, now: int): Event
    requires r.price.Some? && r.primary.Some? && r.primary.value.zone.Some?
  {
    var direction, zone := r.primary.value.direction, ZoneText(c, r.primary.value.zone.value);
    var named := if direction == "" then "Unknown" else direction;
    Event(r.asset, EventKey(r.asset, named, zone), now, r.price.value, named, zone,
          r.primary.value.invalidation, r.primary.value.tp1, r.price.value, r.price.value, 1)
  }

  /** A zone entry of an asset without an open event opens one, if the scenario names a direction. */
  predicate Opens(p: Poll, kept: seq<Event>)
  {
    && HasEntry(p.changes)
    && p.report.price.Some? && p.report.primary.Some? && p.report.primary.value.zone.Some?
    && p.report.primary.value.direction != ""
    && !HasAsset(kept, p.report.asset)
  }

  /** Assignment to a key of the ordered dictionary. */
  function Put(events: seq<Event>, e: Event): seq<Event>
  {
    if events == [] then [e]
    else if events[0].key == e.key then [e] + events[1..]
    else [events[0]] + Put(events[1..], e)
  }

  function Step(c: Codec, s: Log, p: Poll, horizon: int): Log
  {
    var kept := Kept(s.open, p, horizon);
    var closed := s.closed + Resolved(s.open, p, horizon);
    if Opens(p, kept) then Log(Put(kept, NewEvent(c, p.report, p.now)), closed, s.started + 1)
    else Log(kept, closed, s.started)
  }

  /** The log after the first `n` polls, of whatever assets and in whatever order. */
  function Run(c: Codec, polls: seq<Poll>, n: nat, horizon: int): Log
    requires n <= |polls|
  {
    if n == 0 then Log([], [], 0) else Step(c, Run(c, polls, n - 1, horizon), polls[n - 1], horizon)
  }

  /** The two persisted files. */
  class ShadowLog {
    var openEvents: seq<Event>
    var closedEvents: seq<Closed>
    ghost var startedSoFar: nat

    ghost function Contents(): Log
      reads this
    {
      Log(openEvents, closedEvents, startedSoFar)
    }

    constructor ()
      ensures Contents() == Log([], [], 0)
    {
      openEvents, closedEvents, startedSoFar := [], [], 0;
    }

    /** The loop over the stored events. */
    method Settle(p: Poll, horizon: int) returns (stillOpen: seq<Event>, resolved: nat, updated: nat)
      modifies this`closedEvents
      ensures stillOpen == Kept(openEvents, p, horizon)
      ensures closedEvents == old(closedEvents) + Resolved(openEvents, p, horizon)
      ensures resolved == |Resolved(openEvents, p, horizon)|
      ensures resolved + updated == CountOf(openEvents, p.report.asset)
    {
      hide Resolve, Touch, Close;
      stillOpen, resolved, updated := [], 0, 0;
      for i := 0 to |openEvents|
        invariant stillOpen == Kept(openEvents[..i], p, horizon)
        invariant closedEvents == old(closedEvents) + Resolved(openEvents[..i], p, horizon)
        invariant resolved == |Resolved(openEvents[..i], p, horizon)|
        invariant resolved + updated == CountOf(openEvents[..i], p.report.asset)
      {
        assert openEvents[..i + 1][..i] == openEvents[..i];
        var e := openEvents[i];
        if e.asset != p.report.asset {
          stillOpen := stillOpen + [e];
        } else {
          var reason := Resolve(e, p.report, p.now, horizon);
          e := Touch(e, p.report);
          if reason.Some? {
            closedEvents := closedEvents + [Close(e, reason.value, p.report, p.now)];
            resolved := resolved + 1;
          } else {
            stillOpen := stillOpen + [e];
            updated := updated + 1;
          }
        }
      }
      assert openEvents[..|openEvents|] == openEvents;
    }

    /** `process_shadow_for_report`, returning the counts of its summary. */
    method Process(c: Codec, p: Poll, horizon: int) returns (started: nat, resolved: nat, updated: nat)
      modifies this
      ensures Contents() == Step(c, old(Contents()), p, horizon)
      ensures started == Contents().started - old(Contents().started)
      ensures resolved == |closedEvents| - |old(closedEvents)|
      ensures resolved + updated == CountOf(old(openEvents), p.report.asset)
    {
      var stillOpen;
      stillOpen, resolved, updated := Settle(p, horizon);
      started := 0;
      if Opens(p, stillOpen) {
        stillOpen := Put(stillOpen, NewEvent(c, p.report, p.now));
        started := 1;
        startedSoFar := startedSoFar + 1;
      }
      openEvents := stillOpen;
    }
  }
}
