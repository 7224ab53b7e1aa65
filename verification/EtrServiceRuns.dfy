/** Zone-entry edges over any history of polls of any assets. */
module EtrServiceRuns {
  import opened Wrappers
  import opened EtrModels
  import opened EtrDiff
  import opened EtrService
  import Shadow = EtrShadow
  import ShadowRuns = EtrShadowRuns

  predicate FetchedFor(polls: seq<AssetPoll>, asset: string, k: int)
  {
    0 <= k < |polls| && polls[k].asset == asset && polls[k].outcome.Fetched?
  }

  predicate InZone(p: AssetPoll)
    requires p.outcome.Fetched?
  {
    PriceInPrimaryZone(p.outcome.report) == Some(true)
  }

  /** Poll `k` reports a zone entry of its asset. */
  predicate EdgeAt(c: Codec, start: World, polls: seq<AssetPoll>, k: nat, cfg: Settings)
    requires k < |polls|
  {
    HasEntry(ChangesOf(c, Run(c, start, polls, k, cfg).state, polls[k], cfg))
  }

  /** Poll `m` is the last poll of the asset before `n` that was fetched. */
  predicate LastFetched(polls: seq<AssetPoll>, asset: string, m: int, n: nat)
  {
    0 <= m < n && FetchedFor(polls, asset, m) && forall k :: m < k < n ==> !FetchedFor(polls, asset, k)
  }

  /** The stored snapshot of an asset is that of its last fetched poll, through any number of
      withheld or failed polls and whatever other assets do meanwhile. */
  lemma {:induction false} SnapshotIsLastFetched(c: Codec, start: World, polls: seq<AssetPoll>, m: int, n: nat,
                                                 cfg: Settings)
    requires n <= |polls| && 0 <= m < n && LastFetched(polls, polls[m].asset, m, n)
    ensures polls[m].asset in Run(c, start, polls, n, cfg).state
    ensures Run(c, start, polls, n, cfg).state[polls[m].asset] == Stored(polls[m].outcome.report)
  {
    hide Stored, Shadowed;
    if m < n - 1 {
      assert !FetchedFor(polls, polls[m].asset, n - 1);
      SnapshotIsLastFetched(c, start, polls, m, n - 1, cfg);
    }
  }

  lemma {:induction false} LastFetchedExists(polls: seq<AssetPoll>, asset: string, i: int, n: nat) returns (m: int)
    requires n <= |polls| && 0 <= i < n && FetchedFor(polls, asset, i)
    ensures i <= m < n && LastFetched(polls, asset, m, n)
  {
    m := n - 1;
    while !FetchedFor(polls, asset, m)
      invariant i <= m < n
      invariant forall k :: m < k < n ==> !FetchedFor(polls, asset, k)
      decreases m
    {
      m := m - 1;
    }
  }

  /** The zone flag and the round trip of the stored report tell the same story. */
  lemma WasInIsLastInZone(c: Codec, r: Report)
    ensures WasIn(ReportFromDict(c, Stored(r).report), Stored(r).inPrimaryZone) == PriceInPrimaryZone(r)
  {
    hide PriceInPrimaryZone, ReportToDict, ReportFromDict;
    ReportRoundTrip(c, r);
  }

  /** A zone entry is reported exactly when the asset's price is in the zone and it was not known
      to be at the asset's last fetched poll. */
  lemma EdgeIsTransition(c: Codec, start: World, polls: seq<AssetPoll>, m: int, k: nat, cfg: Settings)
    requires k < |polls| && 0 <= m < k && LastFetched(polls, polls[k].asset, m, k)
    ensures EdgeAt(c, start, polls, k, cfg) <==>
            polls[k].outcome.Fetched? && InZone(polls[k]) && !InZone(polls[m])
  {
    hide Run, Diff, PriceInPrimaryZone, ReportFromDict, ReportToDict, HasEntry, WasIn;
    var w := Run(c, start, polls, k, cfg);
    SnapshotIsLastFetched(c, start, polls, m, k, cfg);
    if polls[k].outcome.Fetched? {
      var before := w.state[polls[k].asset];
      WasInIsLastInZone(c, polls[m].outcome.report);
      EntryIsEdge(c, ReportFromDict(c, before.report), polls[k].outcome.report, cfg.thresholds, before.inPrimaryZone);
    } else {
      NoEntryInNothing();
    }
  }

  lemma NoEntryInNothing()
    ensures !HasEntry([])
  {
  }

  /** An edge needs a fetched poll, in the zone. */
  lemma EdgeIsInZone(c: Codec, start: World, polls: seq<AssetPoll>, k: nat, cfg: Settings)
    requires k < |polls| && EdgeAt(c, start, polls, k, cfg)
    ensures polls[k].outcome.Fetched? && InZone(polls[k])
  {
    hide Run, Diff, PriceInPrimaryZone, ReportFromDict, HasEntry, WasIn;
    NoEntryInNothing();
    var w := Run(c, start, polls, k, cfg);
    if polls[k].outcome.Fetched? && polls[k].asset in w.state {
      var before := w.state[polls[k].asset];
      EntryIsEdge(c, ReportFromDict(c, before.report), polls[k].outcome.report, cfg.thresholds, before.inPrimaryZone);
    }
  }

  /** Between any two zone entries of one asset lies a fetched poll of it that was not in the zone. */
  lemma EdgesAreSeparated(c: Codec, start: World, polls: seq<AssetPoll>, i: nat, k: nat, cfg: Settings) returns (m: int)
    requires i < k < |polls| && polls[i].asset == polls[k].asset
    requires EdgeAt(c, start, polls, i, cfg) && EdgeAt(c, start, polls, k, cfg)
    ensures i < m < k && FetchedFor(polls, polls[k].asset, m) && !InZone(polls[m])
  {
    hide EdgeAt, InZone;
    EdgeIsInZone(c, start, polls, i, cfg);
    m := LastFetchedExists(polls, polls[k].asset, i, k);
    EdgeIsTransition(c, start, polls, m, k, cfg);
  }

  /** Of each asset's polls the first ever only seeds: it reports nothing. */
  lemma {:induction false} FirstPollIsSilent(c: Codec, start: World, polls: seq<AssetPoll>, k: nat, cfg: Settings)
    requires k < |polls| && polls[k].asset !in start.state
    requires forall j :: 0 <= j < k ==> !FetchedFor(polls, polls[k].asset, j)
    ensures ChangesOf(c, Run(c, start, polls, k, cfg).state, polls[k], cfg) == []
  {
    NeverStored(c, start, polls, polls[k].asset, k, cfg);
  }

  lemma {:induction false} NeverStored(c: Codec, start: World, polls: seq<AssetPoll>, asset: string, n: nat,
                                       cfg: Settings)
    requires n <= |polls| && asset !in start.state
    requires forall j :: 0 <= j < n ==> !FetchedFor(polls, asset, j)
    ensures asset !in Run(c, start, polls, n, cfg).state
  {
    hide Stored, Shadowed;
    if n > 0 {
      NeverStored(c, start, polls, asset, n - 1, cfg);
      assert !FetchedFor(polls, asset, n - 1);
    }
  }

  function Edges(c: Codec, start: World, polls: seq<AssetPoll>, n: nat, cfg: Settings): nat
    requires n <= |polls|
  {
    if n == 0 then 0
    else Edges(c, start, polls, n - 1, cfg) + if EdgeAt(c, start, polls, n - 1, cfg) then 1 else 0
  }

  /** The shadow log never opens more events than there are zone entries. */
  lemma {:induction false} OpensAreEdges(c: Codec, start: World, polls: seq<AssetPoll>, n: nat, cfg: Settings)
    requires n <= |polls|
    ensures start.log.started <= Run(c, start, polls, n, cfg).log.started
         <= start.log.started + Edges(c, start, polls, n, cfg)
  {
    hide ChangesOf, HasEntry, Shadow.NewEvent, Shadow.Kept;
    if n > 0 {
      OpensAreEdges(c, start, polls, n - 1, cfg);
    }
  }

  /** The polls that reach the shadow log. */
  function ShadowPolls(c: Codec, start: World, polls: seq<AssetPoll>, n: nat, cfg: Settings): seq<Shadow.Poll>
    requires n <= |polls|
  {
    if n == 0 then []
    else
      var state := Run(c, start, polls, n - 1, cfg).state;
      ShadowPolls(c, start, polls, n - 1, cfg) +
      if Shadowed(c, state, polls[n - 1], cfg) then [ShadowPoll(c, state, polls[n - 1], cfg)] else []
  }

  lemma {:induction false} ShadowRunOnPrefix(c: Codec, a: seq<Shadow.Poll>, b: seq<Shadow.Poll>, n: nat, horizon: int)
    requires n <= |a| && n <= |b| && a[..n] == b[..n]
    ensures Shadow.Run(c, a, n, horizon) == Shadow.Run(c, b, n, horizon)
  {
    hide Shadow.Step;
    if n > 0 {
      assert a[n - 1] == a[..n][n - 1] == b[n - 1];
      assert a[..n - 1] == a[..n][..n - 1] == b[..n - 1];
      ShadowRunOnPrefix(c, a, b, n - 1, horizon);
    }
  }

  /** The service drives the shadow log as one run over those polls, so everything proved of such
      runs holds of the service. */
  lemma {:induction false} LogIsShadowRun(c: Codec, start: World, polls: seq<AssetPoll>, n: nat, cfg: Settings)
    requires n <= |polls| && start.log == Shadow.Log([], [], 0)
    ensures var fed := ShadowPolls(c, start, polls, n, cfg);
            Run(c, start, polls, n, cfg).log == Shadow.Run(c, fed, |fed|, cfg.horizon)
  {
    hide Shadow.Step, Shadowed, ShadowPoll;
    if n > 0 {
      LogIsShadowRun(c, start, polls, n - 1, cfg);
      var before, fed := ShadowPolls(c, start, polls, n - 1, cfg), ShadowPolls(c, start, polls, n, cfg);
      assert before[..|before|] == fed[..|before|];
      ShadowRunOnPrefix(c, before, fed, |before|, cfg.horizon);
    }
  }

  lemma {:induction false} ShadowPollsAreNamed(c: Codec, start: World, polls: seq<AssetPoll>, n: nat, cfg: Settings)
    requires n <= |polls|
    requires forall k :: 0 <= k < n && polls[k].outcome.Fetched? ==>
               '|' !in polls[k].outcome.report.asset
    ensures forall j :: 0 <= j < |ShadowPolls(c, start, polls, n, cfg)| ==>
              '|' !in ShadowPolls(c, start, polls, n, cfg)[j].report.asset
  {
    hide ChangesOf, Transition;
    if n > 0 {
      ShadowPollsAreNamed(c, start, polls, n - 1, cfg);
    }
  }

  /** Whatever the service does, each asset has at most one open event, every opened event is open
      or resolved, and there are never more of them than zone entries. */
  lemma {:induction false} ServiceKeepsShadowSound(c: Codec, start: World, polls: seq<AssetPoll>, n: nat, cfg: Settings)
    requires n <= |polls| && start.log == Shadow.Log([], [], 0)
    requires forall k :: 0 <= k < n && polls[k].outcome.Fetched? ==> '|' !in polls[k].outcome.report.asset
    ensures var log := Run(c, start, polls, n, cfg).log;
            && ShadowRuns.OneEach(log.open)
            && log.started == |log.open| + |log.closed| <= Edges(c, start, polls, n, cfg)
  {
    hide Run, Shadow.Run, Shadow.Step, Edges, ShadowRuns.OneEach, ShadowRuns.OpenSince, ShadowRuns.ClosedAt;
    var fed := ShadowPolls(c, start, polls, n, cfg);
    LogIsShadowRun(c, start, polls, n, cfg);
    ShadowPollsAreNamed(c, start, polls, n, cfg);
    ShadowRuns.RunKeepsInv(c, fed, |fed|, cfg.horizon);
    OpensAreEdges(c, start, polls, n, cfg);
  }
}
