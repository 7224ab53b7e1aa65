/** Which zone entries are new, and which of them open an event. */
module EtrEdges {
  import opened Wrappers
  import opened EtrModels
  import opened EtrDiff
  import opened EtrService
  import opened EtrServiceRuns
  import Shadow = EtrShadow

  // ------------------------------------------------------------ entries without an exit

  /** The last fetched poll knew the price outside the zone. */
  predicate KnownOutside(p: AssetPoll)
    requires p.outcome.Fetched?
  {
    PriceInPrimaryZone(p.outcome.report) == Some(false)
  }

  /** A reported entry follows no known exit exactly when the asset's last fetched poll could not tell
      whether the price was in the zone. */
  lemma RearmedExactly(c: Codec, start: World, polls: seq<AssetPoll>, m: int, k: nat, cfg: Settings)
    requires k < |polls| && 0 <= m < k && LastFetched(polls, polls[k].asset, m, k)
    ensures EdgeAt(c, start, polls, k, cfg) && !KnownOutside(polls[m]) <==>
      polls[k].outcome.Fetched? && InZone(polls[k]) && PriceInPrimaryZone(polls[m].outcome.report) == None
  {
    EdgeIsTransition(c, start, polls, m, k, cfg);
  }

  /** Of two polls in the zone without a third between them, the second is reported exactly when some
      poll of the asset was fetched between them: outside, or without a price or a zone. */
  lemma ReportedAgainExactly(c: Codec, start: World, polls: seq<AssetPoll>, i: nat, k: nat, cfg: Settings)
    requires i < k < |polls| && polls[i].asset == polls[k].asset
    requires FetchedFor(polls, polls[k].asset, i) && InZone(polls[i])
    requires FetchedFor(polls, polls[k].asset, k) && InZone(polls[k])
    requires forall j :: i < j < k && FetchedFor(polls, polls[k].asset, j) ==> !InZone(polls[j])
    ensures EdgeAt(c, start, polls, k, cfg) <==> exists j :: i < j < k && FetchedFor(polls, polls[k].asset, j)
  {
    hide EdgeAt, InZone;
    var m := LastFetchedExists(polls, polls[k].asset, i, k);
    EdgeIsTransition(c, start, polls, m, k, cfg);
  }

  /** A report at a price, with a zone from 1 to 2. */
  function ZoneReport(price: Option<real>): Report
  {
    Report("btc", price, None, "alcista", "activo",
           Some(Scenario("alcista", "activo", Some(PriceZone(1.0, 2.0)), Some(0.5), Some(3.0), None)))
  }

  /** In the zone, without a price, and in the zone again. */
  const FLICKER := [
    AssetPoll("btc", Fetched(ZoneReport(Some(1.5)), false), 0),
    AssetPoll("btc", Fetched(ZoneReport(None), false), 1),
    AssetPoll("btc", Fetched(ZoneReport(Some(1.5)), false), 2)]

  /** The third poll reports an entry although the price was never known to have left. */
  lemma MissingPriceRearms(c: Codec, start: World, cfg: Settings)
    ensures EdgeAt(c, start, FLICKER, 2, cfg)
    ensures InZone(FLICKER[0]) && !KnownOutside(FLICKER[1]) && InZone(FLICKER[2])
  {
    hide EdgeAt;
    assert FetchedFor(FLICKER, "btc", 1);
    assert LastFetched(FLICKER, "btc", 1, 2);
    RearmedExactly(c, start, FLICKER, 1, 2, cfg);
  }

  // ------------------------------------------------------------ entries that open an event

  /** An open event of the asset that this poll does not resolve. */
  predicate OutlivesPoll(e: Shadow.Event, r: Report, now: int, horizon: int)
  {
    e.asset == r.asset && Shadow.Resolve(e, r, now, horizon).None?
  }

  lemma {:induction false} KeptHasAsset(events: seq<Shadow.Event>, p: Shadow.Poll, horizon: int)
    ensures Shadow.HasAsset(Shadow.Kept(events, p, horizon), p.report.asset) <==>
      exists i :: 0 <= i < |events| && OutlivesPoll(events[i], p.report, p.now, horizon)
  {
    hide Shadow.Resolve, Shadow.Touch;
    if events != [] {
      var n := |events| - 1;
      var rest, e := Shadow.Kept(events[..n], p, horizon), events[n];
      KeptHasAsset(events[..n], p, horizon);
      assert e.asset == p.report.asset ==> Shadow.Touch(e, p.report).asset == e.asset by {
        TouchKeepsAsset(e, p.report);
      }
      if Shadow.HasAsset(rest, p.report.asset) {
        var i :| 0 <= i < |rest| && rest[i].asset == p.report.asset;
        assert Shadow.Kept(events, p, horizon)[i] == rest[i];
      } else if OutlivesPoll(e, p.report, p.now, horizon) {
        assert Shadow.Kept(events, p, horizon)[|rest|].asset == p.report.asset;
      }
    }
  }

  lemma TouchKeepsAsset(e: Shadow.Event, r: Report)
    ensures Shadow.Touch(e, r).asset == e.asset
  {
  }

  /** Poll `k` is a zone entry that opens an event: the notification did not raise, the scenario names
      a direction, and no event of the asset outlives the poll. */
  ghost predicate OpensAt(c: Codec, start: World, polls: seq<AssetPoll>, k: nat, cfg: Settings)
    requires k < |polls|
  {
    && EdgeAt(c, start, polls, k, cfg) && polls[k].outcome.Fetched? && !polls[k].outcome.sendRaises
    && var r, open := polls[k].outcome.report, Run(c, start, polls, k, cfg).log.open;
    && DirectionOf(r) != ""
    && forall i :: 0 <= i < |open| ==> !OutlivesPoll(open[i], r, polls[k].now, cfg.horizon)
  }

  lemma EdgeHasZone(p: AssetPoll)
    requires p.outcome.Fetched? && InZone(p)
    ensures
      var r := p.outcome.report;
      r.price.Some? && r.primary.Some? && r.primary.value.zone.Some?
  {
  }

  /** A poll opens one event exactly when it is such an entry, and none otherwise. */
  lemma OpensExactly(c: Codec, start: World, polls: seq<AssetPoll>, k: nat, cfg: Settings)
    requires k < |polls|
    ensures Run(c, start, polls, k + 1, cfg).log.started
         == Run(c, start, polls, k, cfg).log.started + if OpensAt(c, start, polls, k, cfg) then 1 else 0
  {
    hide Run, ChangesOf, HasEntry, Shadow.NewEvent, Shadow.Kept, Shadow.HasAsset, Shadow.Put, Shadow.Resolved,
      OutlivesPoll, InZone, EdgeAt;
    var w, p := Run(c, start, polls, k, cfg), polls[k];
    assert Run(c, start, polls, k + 1, cfg) == Transition(c, w, p, cfg) by {
      NextWorld(c, start, polls, k, cfg);
    }
    assert EdgeAt(c, start, polls, k, cfg) <==> HasEntry(ChangesOf(c, w.state, p, cfg)) by {
      EdgeIsEntry(c, start, polls, k, cfg);
    }
    NoEntryInNothing();
    if EdgeAt(c, start, polls, k, cfg) {
      EdgeIsInZone(c, start, polls, k, cfg);
      EdgeHasZone(p);
      KeptHasAsset(w.log.open, ShadowPoll(c, w.state, p, cfg), cfg.horizon);
    }
  }

  lemma NextWorld(c: Codec, start: World, polls: seq<AssetPoll>, k: nat, cfg: Settings)
    requires k < |polls|
    ensures Run(c, start, polls, k + 1, cfg) == Transition(c, Run(c, start, polls, k, cfg), polls[k], cfg)
  {
    hide Transition;
  }

  lemma EdgeIsEntry(c: Codec, start: World, polls: seq<AssetPoll>, k: nat, cfg: Settings)
    requires k < |polls|
    ensures EdgeAt(c, start, polls, k, cfg) <==>
      HasEntry(ChangesOf(c, Run(c, start, polls, k, cfg).state, polls[k], cfg))
  {
    hide Run, ChangesOf, HasEntry;
  }

  ghost function Openings(c: Codec, start: World, polls: seq<AssetPoll>, n: nat, cfg: Settings): nat
    requires n <= |polls|
  {
    if n == 0 then 0
    else Openings(c, start, polls, n - 1, cfg) + if OpensAt(c, start, polls, n - 1, cfg) then 1 else 0
  }

  /** Over any history the shadow log has opened exactly as many events as there are such entries. */
  lemma {:induction false} OpeningsAreCounted(c: Codec, start: World, polls: seq<AssetPoll>, n: nat, cfg: Settings)
    requires n <= |polls|
    ensures Run(c, start, polls, n, cfg).log.started == start.log.started + Openings(c, start, polls, n, cfg)
  {
    hide OpensAt, Transition;
    if n > 0 {
      OpeningsAreCounted(c, start, polls, n - 1, cfg);
      OpensExactly(c, start, polls, n - 1, cfg);
    }
  }

  /** An entry whose notification raises leaves the log alone, and while the price stays in the zone no
      later poll reports it again: the flag has been stored. */
  lemma LostEntry(c: Codec, start: World, polls: seq<AssetPoll>, k: nat, n: nat, cfg: Settings)
    requires k < n < |polls| && polls[n].asset == polls[k].asset
    requires EdgeAt(c, start, polls, k, cfg) && polls[k].outcome.Fetched? && polls[k].outcome.sendRaises
    requires forall j :: k < j < n && FetchedFor(polls, polls[k].asset, j) ==> InZone(polls[j])
    ensures Run(c, start, polls, k + 1, cfg).log == Run(c, start, polls, k, cfg).log
    ensures !EdgeAt(c, start, polls, n, cfg)
  {
    hide Run, ChangesOf, HasEntry, EdgeAt, InZone, Stored;
    NextWorld(c, start, polls, k, cfg);
    EdgeIsEntry(c, start, polls, k, cfg);
    NoEntryInNothing();
    EdgeIsInZone(c, start, polls, k, cfg);
    var m := LastFetchedExists(polls, polls[k].asset, k, n);
    EdgeIsTransition(c, start, polls, m, n, cfg);
  }
}
