/** Why a shadow event is closed, on the words of the report and the levels of the event. */
module EtrReasons {
  import opened Wrappers
  import opened Market
  import opened Costs
  import opened Mirror
  import opened Text
  import opened EtrModels
  import opened EtrDiff
  import opened EtrShadow
  import opened EtrShadowRuns

  /** The stem that names a direction in the reports: alcista or bajista. */
  function Stem(side: Direction): string
  {
    if side == Long then "alc" else "baj"
  }

  predicate Names(text: string, side: Direction)
  {
    Contains(Norm(text), Stem(side))
  }

  /** The bias names the direction opposite to one that the event names. */
  predicate TurnedAgainst(direction: string, bias: string)
  {
    exists side :: Names(direction, side) && Names(bias, FlipSide(side))
  }

  /** An event is short if its direction says so in any of three ways, and long otherwise. */
  function SideOf(e: Event): Direction
  {
    if exists word :: word in ["baj", "sell", "bear"] && Contains(Norm(e.direction), word) then Short else Long
  }

  /** The price is at the level or beyond it in the event's direction. */
  predicate Beyond(e: Event, price: real, level: Option<real>)
  {
    level.Some? && Move(SideOf(e), level.value, price) >= 0.0
  }

  /** The price is at the level or behind it. */
  predicate Behind(e: Event, price: real, level: Option<real>)
  {
    level.Some? && Move(SideOf(e), level.value, price) <= 0.0
  }

  lemma SideMeans(e: Event)
    ensures IsShort(e.direction) <==> SideOf(e) == Short
  {
    hide Norm, Contains;
    var d := Norm(e.direction);
    assert "baj" in ["baj", "sell", "bear"] && "sell" in ["baj", "sell", "bear"] && "bear" in ["baj", "sell", "bear"];
  }

  lemma FlipMeans(direction: string, bias: string)
    ensures Flipped(direction, bias) <==> TurnedAgainst(direction, bias)
  {
    hide Norm, Contains;
    assert Names(direction, Long) && Names(bias, Short) ==> TurnedAgainst(direction, bias) by {
      assert FlipSide(Long) == Short;
    }
    assert Names(direction, Short) && Names(bias, Long) ==> TurnedAgainst(direction, bias) by {
      assert FlipSide(Short) == Long;
    }
  }

  /** A poll closes an event for the first of four reasons that holds, and only with a price: the
      target, the invalidation, a bias that names the other direction, the horizon. */
  lemma ReasonsExactly(e: Event, r: Report, now: int, horizon: int)
    ensures r.price.None? ==> Resolve(e, r, now, horizon) == None
    ensures r.price.Some? ==>
      var hit, lost, turned := Beyond(e, r.price.value, e.tp1), Behind(e, r.price.value, e.invalidation),
                               TurnedAgainst(e.direction, r.bias);
      var reason := Resolve(e, r, now, horizon);
      && (reason == Some(HitTp1) <==> hit)
      && (reason == Some(HitInvalidation) <==> lost && !hit)
      && (reason == Some(BiasFlip) <==> turned && !hit && !lost)
      && (reason == Some(Expired) <==> e.openedAt + horizon <= now && !hit && !lost && !turned)
  {
    hide IsShort, Flipped, TurnedAgainst, SideOf;
    SideMeans(e);
    FlipMeans(e.direction, r.bias);
  }

  /** Every event that a run has closed for a turned bias was closed on a priced poll of its asset, short
      of its target and clear of its invalidation, whose bias named the other direction; and on every
      priced poll before, the bias did not. */
  lemma FlipsAreTurns(c: Codec, polls: seq<Poll>, n: nat, horizon: int, x: Closed)
    requires n <= |polls| && forall k :: 0 <= k < n ==> '|' !in polls[k].report.asset
    requires x in Run(c, polls, n, horizon).closed
    ensures exists i: nat, j: nat :: j < n && ClosedAt(c, x, polls, i, j, horizon) && TurnsAt(x, polls, i, j)
  {
    hide Run, OneEach, WellKeyed, OpenSince, OpenedAt, Extremes, TurnedAgainst, SideOf, Resolve, Close;
    RunKeepsInv(c, polls, n, horizon);
    var i: nat, j: nat :| j < n && ClosedAt(c, x, polls, i, j, horizon);
    ReasonsExactly(x.event, polls[j].report, polls[j].now, horizon);
    forall k {:trigger polls[k]} | i < k < j && polls[k].report.asset == x.event.asset && polls[k].report.price.Some?
      ensures !TurnedAgainst(x.event.direction, polls[k].report.bias)
    {
      ReasonsExactly(x.event, polls[k].report, polls[k].now, horizon);
    }
    assert TurnsAt(x, polls, i, j);
  }

  ghost predicate TurnsAt(x: Closed, polls: seq<Poll>, i: nat, j: nat)
    requires j < |polls|
  {
    && (x.reason == BiasFlip ==>
          && polls[j].report.price.Some? && TurnedAgainst(x.event.direction, polls[j].report.bias)
          && !Beyond(x.event, polls[j].report.price.value, x.event.tp1)
          && !Behind(x.event, polls[j].report.price.value, x.event.invalidation))
    && forall k {:trigger polls[k]} ::
         i < k < j && polls[k].report.asset == x.event.asset && polls[k].report.price.Some? ==>
           !TurnedAgainst(x.event.direction, polls[k].report.bias)
  }

  /** The recorded excursions are the furthest the price went with the event and against it, on the
      priced polls of its asset from the one that opened it to the one that closed it. */
  ghost predicate ExcursionsOver(x: Closed, polls: seq<Poll>, i: nat, j: nat)
  {
    var e, side := x.event, SideOf(x.event);
    && (forall k :: i <= k <= j && PricedPoll(polls, e.asset, k) ==>
          -x.mae <= Move(side, e.entry, polls[k].report.price.value) <= x.mfe)
    && (exists k :: i <= k <= j && PricedPoll(polls, e.asset, k)
          && Move(side, e.entry, polls[k].report.price.value) == x.mfe)
    && (exists k :: i <= k <= j && PricedPoll(polls, e.asset, k)
          && Move(side, e.entry, polls[k].report.price.value) == -x.mae)
  }

  lemma ExcursionsAreExtremes(c: Codec, polls: seq<Poll>, n: nat, horizon: int, x: Closed)
    requires n <= |polls| && forall k :: 0 <= k < n ==> '|' !in polls[k].report.asset
    requires x in Run(c, polls, n, horizon).closed
    ensures exists i: nat, j: nat :: j < n && ClosedAt(c, x, polls, i, j, horizon) && ExcursionsOver(x, polls, i, j)
  {
    hide Run, OneEach, WellKeyed, OpenSince, OpenedAt, Undecided, Resolve, IsShort, SideOf;
    RunKeepsInv(c, polls, n, horizon);
    var i: nat, j: nat :| j < n && ClosedAt(c, x, polls, i, j, horizon);
    SideMeans(x.event);
    var e := x.event;
    var hi :| i <= hi < j + 1 && PricedPoll(polls, e.asset, hi) && polls[hi].report.price.value == e.high;
    var lo :| i <= lo < j + 1 && PricedPoll(polls, e.asset, lo) && polls[lo].report.price.value == e.low;
    var best, worst := if SideOf(e) == Long then hi else lo, if SideOf(e) == Long then lo else hi;
    assert Move(SideOf(e), e.entry, polls[best].report.price.value) == x.mfe;
    assert Move(SideOf(e), e.entry, polls[worst].report.price.value) == -x.mae;
    assert ExcursionsOver(x, polls, i, j);
  }

  /** What the poll that opened an event showed: a zone entry at a price, of a scenario that names a
      direction and a zone, with the levels of that scenario. */
  predicate ShownBy(c: Codec, e: Event, p: Poll)
  {
    && HasEntry(p.changes) && p.report.asset == e.asset && p.report.price == Some(e.entry) && p.now == e.openedAt
    && p.report.primary.Some?
    && var s := p.report.primary.value;
    && s.direction == e.direction != "" && s.zone.Some? && ZoneText(c, s.zone.value) == e.zone
    && s.invalidation == e.invalidation && s.tp1 == e.tp1
  }

  /** Every event of every run carries the terms of the poll that opened it, and has counted its polls. */
  lemma EventsCarryTheirPoll(c: Codec, polls: seq<Poll>, n: nat, horizon: int, e: Event)
    requires n <= |polls| && forall k :: 0 <= k < n ==> '|' !in polls[k].report.asset
    requires e in Run(c, polls, n, horizon).open
    ensures exists i: nat :: i < n && ShownBy(c, e, polls[i]) && e.polls == PollsOf(polls, e.asset, i, n)
  {
    hide Run, OneEach, WellKeyed, Undecided, EventKey, ZoneText, PollsOf;
    RunKeepsInv(c, polls, n, horizon);
    var i: nat :| OpenSince(c, e, polls, i, n, horizon);
    assert ShownBy(c, e, polls[i]);
  }

  // ------------------------------------------------------------ two directions, two biases

  predicate Plain(s: string)
  {
    forall i :: 0 <= i < |s| ==> !IsSpace(s[i]) && !('A' <= s[i] <= 'Z')
  }

  lemma {:induction false} PlainStays(s: string, started: bool)
    requires Plain(s)
    ensures Squeeze(Lower(s), started, false) == s
  {
    if s != [] {
      PlainStays(s[1..], true);
      assert Lower(s) == [s[0]] + Lower(s[1..]);
    }
  }

  /** A zone entry at 100 and a second poll at 101 with a bias, ten units of distance to both levels. */
  function Story(direction: string, bias: string): seq<Poll>
  {
    var step := if direction == "bajista" then -10.0 else 10.0;
    var s := Scenario(direction, "", Some(PriceZone(99.0, 102.0)), Some(100.0 - step), Some(100.0 + step), None);
    [Poll(Report("BTC", Some(100.0), None, direction, "", Some(s)), [Change(InPrimaryZone, "no", "yes", Action)], 0),
     Poll(Report("BTC", Some(101.0), None, bias, "", Some(s)), [], 1)]
  }

  lemma FirstPollOpens(c: Codec, direction: string, bias: string)
    requires direction != ""
    ensures
      var p := Story(direction, bias)[0];
      Run(c, Story(direction, bias), 1, 72) == Log([NewEvent(c, p.report, p.now)], [], 1)
  {
    hide EventKey, ZoneText;
    var polls := Story(direction, bias);
    var x := polls[0].changes[0];
    assert x in polls[0].changes && x.field == InPrimaryZone && x.after == "yes";
    assert Opens(polls[0], []);
    assert Run(c, polls, 1, 72) == Step(c, Run(c, polls, 0, 72), polls[0], 72);
  }

  lemma OneEventSettles(e: Event, p: Poll, horizon: int)
    requires e.asset == p.report.asset
    ensures
      var reason := Resolve(e, p.report, p.now, horizon);
      && Kept([e], p, horizon) == (if reason.None? then [EtrShadow.Touch(e, p.report)] else [])
      && Resolved([e], p, horizon) ==
         (if reason.Some? then [Close(EtrShadow.Touch(e, p.report), reason.value, p.report, p.now)] else [])
  {
    hide Resolve, EtrShadow.Touch, Close;
    assert [e][..0] == [];
  }

  lemma SecondPollDecides(c: Codec, direction: string, bias: string)
    requires direction != "" && (direction == "bajista" <==> IsShort(direction))
    ensures
      var s := Run(c, Story(direction, bias), 2, 72);
      if Flipped(direction, bias) then s.open == [] && |s.closed| == 1 && s.closed[0].reason == BiasFlip
      else |s.open| == 1 && s.closed == []
  {
    hide EventKey, ZoneText, Flipped, IsShort, Kept, Resolved, EtrShadow.Touch, Close;
    FirstPollOpens(c, direction, bias);
    var polls := Story(direction, bias);
    var e := NewEvent(c, polls[0].report, polls[0].now);
    assert Resolve(e, polls[1].report, 1, 72) == if Flipped(direction, bias) then Some(BiasFlip) else None;
    OneEventSettles(e, polls[1], 72);
    ClosedCarries(EtrShadow.Touch(e, polls[1].report), BiasFlip, polls[1].report, 1);
    assert !HasEntry(polls[1].changes);
    assert Run(c, polls, 2, 72) == Step(c, Run(c, polls, 1, 72), polls[1], 72);
  }

  lemma ClosedCarries(e: Event, reason: EtrShadow.Reason, r: Report, now: int)
    ensures Close(e, reason, r, now).reason == reason
  {
  }

  lemma NamesOf(text: string, side: Direction)
    requires text == "alcista" || text == "bajista"
    ensures Norm(text) == text && (Names(text, side) <==> text == if side == Long then "alcista" else "bajista")
    ensures IsShort(text) <==> text == "bajista"
  {
    hide Squeeze, Lower;
    PlainStays(text, false);
    LowerPlain(text);
    assert text == "alcista" ==> Stem(Long) <= text[0..];
    assert text == "bajista" ==> Stem(Short) <= text[0..];
    StemApart(text, "sell");
    StemApart(text, "bear");
    StemApart(text, if text == "alcista" then "baj" else "alc");
  }

  lemma {:induction false} LowerPlain(s: string)
    requires Plain(s)
    ensures Lower(s) == s
  {
    if s != [] {
      LowerPlain(s[1..]);
      assert s == [s[0]] + s[1..];
    }
  }

  lemma HeadMatches(text: string, sub: string, i: nat)
    requires i <= |text| && 3 <= |sub| && sub <= text[i..]
    ensures i + 2 < |text| && text[i] == sub[0] && text[i + 1] == sub[1] && text[i + 2] == sub[2]
  {
  }

  /** Neither word holds the other's stem, nor any of the English ones. */
  lemma StemApart(text: string, sub: string)
    requires text == "alcista" || text == "bajista"
    requires sub == "sell" || sub == "bear" || sub == (if text == "alcista" then "baj" else "alc")
    ensures !Contains(text, sub)
  {
    forall i | 0 <= i <= |text| ensures !(sub <= text[i..]) {
      if sub <= text[i..] {
        HeadMatches(text, sub, i);
        assert false;
      }
    }
  }

  lemma WordsTurn(direction: string, bias: string)
    requires direction == "alcista" || direction == "bajista"
    requires bias == "alcista" || bias == "bajista"
    ensures Flipped(direction, bias) <==> direction != bias
    ensures direction == "bajista" <==> IsShort(direction)
  {
    hide Norm, Contains, IsShort, Flipped, Names;
    NamesOf(direction, Long);
    NamesOf(direction, Short);
    NamesOf(bias, Long);
    NamesOf(bias, Short);
    FlipMeans(direction, bias);
    if direction != bias {
      var side := if direction == "alcista" then Long else Short;
      assert Names(direction, side) && Names(bias, FlipSide(side));
    }
  }

  /** One run of each direction with each bias: a rising event is closed by a falling bias and a falling
      one by a rising bias, and neither by its own. */
  lemma BiasOfEachDirection(c: Codec)
    ensures
      var s := Run(c, Story("alcista", "bajista"), 2, 72);
      s.open == [] && |s.closed| == 1 && s.closed[0].reason == BiasFlip
    ensures
      var s := Run(c, Story("bajista", "alcista"), 2, 72);
      s.open == [] && |s.closed| == 1 && s.closed[0].reason == BiasFlip
    ensures Run(c, Story("alcista", "alcista"), 2, 72).closed == []
    ensures Run(c, Story("bajista", "bajista"), 2, 72).closed == []
  {
    hide Run, Story, IsShort, Flipped;
    var up, down := "alcista", "bajista";
    WordsTurn(up, down);
    WordsTurn(down, up);
    WordsTurn(up, up);
    WordsTurn(down, down);
    SecondPollDecides(c, up, down);
    SecondPollDecides(c, down, up);
    SecondPollDecides(c, up, up);
    SecondPollDecides(c, down, down);
  }
}
