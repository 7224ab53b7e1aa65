/** The per-asset transition of the poll loop: seed, diff, store, shadow (src/etr/service.py). */
module EtrService {
  import opened Wrappers
  import opened EtrModels
  import opened EtrDiff
  import Shadow = EtrShadow

  const VALID_ASSETS := {"btc", "gold", "nasdaq", "oil"}

  /** The stored snapshot of one asset: the report as JSON and the zone flag next to it. */
  datatype AssetState = AssetState(report: Json, inPrimaryZone: Option<bool>)

  /** What fetching an asset and notifying about it came to. `sendRaises` says that the notifier,
      if it is called at all, raises. */
  datatype Outcome =
    | Fetched(report: Report, sendRaises: bool)
    | Unavailable
    | Failed

  datatype AssetPoll = AssetPoll(asset: string, outcome: Outcome, now: int)

  datatype Settings = Settings(thresholds: Thresholds, horizon: int)

  datatype World = World(state: map<string, AssetState>, log: Shadow.Log)

  datatype PollResult = PollResult(seeded: bool, changes: seq<Change>, unavailable: bool, failed: bool)

  function Stored(r: Report): AssetState
  {
    AssetState(ReportToDict(r), PriceInPrimaryZone(r))
  }

  /** The changes a poll reports; the first poll of an asset reports none. */
  function ChangesOf(c: Codec, state: map<string, AssetState>, p: AssetPoll, cfg: Settings): seq<Change>
  {
    if !p.outcome.Fetched? || p.asset !in state then []
    else
      var previous := state[p.asset];
      Diff(c, ReportFromDict(c, previous.report), p.outcome.report, cfg.thresholds, previous.inPrimaryZone, 8)
  }

  /** The shadow log sees every fetched poll whose notification did not raise; the notifier is
      only called about a change. */
  predicate Shadowed(c: Codec, state: map<string, AssetState>, p: AssetPoll, cfg: Settings)
  {
    p.outcome.Fetched? && !(p.outcome.sendRaises && ChangesOf(c, state, p, cfg) != [])
  }

  function ShadowPoll(c: Codec, state: map<string, AssetState>, p: AssetPoll, cfg: Settings): Shadow.Poll
    requires p.outcome.Fetched?
  {
    Shadow.Poll(p.outcome.report, ChangesOf(c, state, p, cfg), p.now)
  }

  /** One asset of one poll: the snapshot is replaced by any fetched report and by nothing else. */
  function Transition(c: Codec, w: World, p: AssetPoll, cfg: Settings): World
  {
    World(
      if p.outcome.Fetched? then w.state[p.asset := Stored(p.outcome.report)] else w.state,
      if Shadowed(c, w.state, p, cfg)
      then Shadow.Step(c, w.log, ShadowPoll(c, w.state, p, cfg), cfg.horizon)
      else w.log)
  }

  function ResultOf(c: Codec, w: World, p: AssetPoll, cfg: Settings): PollResult
  {
    PollResult(
      p.outcome.Fetched? && p.asset !in w.state,
      ChangesOf(c, w.state, p, cfg),
      p.outcome.Unavailable?,
      p.outcome.Failed? || (p.outcome.Fetched? && !Shadowed(c, w.state, p, cfg)))
  }

  /** The world after the first `n` asset polls of a history, across any number of poll runs. */
  function Run(c: Codec, start: World, polls: seq<AssetPoll>, n: nat, cfg: Settings): World
    requires n <= |polls|
  {
    if n == 0 then start else Transition(c, Run(c, start, polls, n - 1, cfg), polls[n - 1], cfg)
  }

  function Results(c: Codec, start: World, polls: seq<AssetPoll>, n: nat, cfg: Settings): seq<PollResult>
    requires n <= |polls|
  {
    if n == 0 then []
    else Results(c, start, polls, n - 1, cfg) + [ResultOf(c, Run(c, start, polls, n - 1, cfg), polls[n - 1], cfg)]
  }

  class Service {
    var state: map<string, AssetState>
    const shadow: Shadow.ShadowLog

    ghost function Contents(): World
      reads this, shadow
    {
      World(state, shadow.Contents())
    }

    constructor (state: map<string, AssetState>)
      ensures Contents() == World(state, Shadow.Log([], [], 0)) && fresh(shadow)
    {
      this.state := state;
      shadow := new Shadow.ShadowLog();
    }

    /** The body of the loop over the assets. */
    method PollAsset(c: Codec, p: AssetPoll, cfg: Settings) returns (result: PollResult)
      modifies this, shadow
      ensures Contents() == Transition(c, old(Contents()), p, cfg)
      ensures result == ResultOf(c, old(Contents()), p, cfg)
    {
      hide Diff, Shadow.Step, ReportFromDict, ReportToDict, PriceInPrimaryZone;
      result := PollResult(false, [], false, false);
      match p.outcome
      case Unavailable =>
        result := result.(unavailable := true);
      case Failed =>
        result := result.(failed := true);
      case Fetched(report, sendRaises) =>
        if p.asset !in state {
          state := state[p.asset := AssetState(ReportToDict(report), PriceInPrimaryZone(report))];
          result := result.(seeded := true);
          var _, _, _ := shadow.Process(c, Shadow.Poll(report, [], p.now), cfg.horizon);
        } else {
          var previous := state[p.asset];
          var changes := DiffReports(
            c, Some(ReportFromDict(c, previous.report)), report, cfg.thresholds, previous.inPrimaryZone);
          result := result.(changes := changes);
          state := state[p.asset := AssetState(ReportToDict(report), PriceInPrimaryZone(report))];
          if sendRaises && changes != [] {
            result := result.(failed := true);
          } else {
            var _, _, _ := shadow.Process(c, Shadow.Poll(report, changes, p.now), cfg.horizon);
          }
        }
    }

    /** `poll_and_notify`: an unknown asset stops the run before anything is fetched. */
    method PollAndNotify(c: Codec, polls: seq<AssetPoll>, cfg: Settings) returns (results: Result<seq<PollResult>>)
      modifies this, shadow
      ensures (exists p :: p in polls && p.asset !in VALID_ASSETS) ==>
                results == Err(ValueError) && Contents() == old(Contents())
      ensures (forall p :: p in polls ==> p.asset in VALID_ASSETS) ==>
                && Contents() == Run(c, old(Contents()), polls, |polls|, cfg)
                && results == Ok(Results(c, old(Contents()), polls, |polls|, cfg))
    {
      hide Transition, ResultOf;
      for i := 0 to |polls|
        invariant Contents() == old(Contents())
        invariant forall j :: 0 <= j < i ==> polls[j].asset in VALID_ASSETS
      {
        if polls[i].asset !in VALID_ASSETS {
          return Err(ValueError);
        }
      }
      var all: seq<PollResult> := [];
      for i := 0 to |polls|
        invariant Contents() == Run(c, old(Contents()), polls, i, cfg)
        invariant all == Results(c, old(Contents()), polls, i, cfg)
      {
        var result := PollAsset(c, polls[i], cfg);
        all := all + [result];
      }
      results := Ok(all);
    }
  }
}
