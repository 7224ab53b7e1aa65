/** The HTF-Fib walk never reads ahead of its inputs, with pivots found by resampling and delayed
    confirmation on its own bars. `FibPipeline` takes this to raw bars. */
module FibCausality {
  import opened Wrappers
  import opened Seqs
  import opened Market
  import opened Brackets
  import opened Htf
  import opened Swing
  import opened SwingRuns
  import opened Pivots
  import opened FibModel
  import opened FibWalk
  import opened FibRuns

  // ------------------------------------------------------------ pivots by trading bar

  /** `events_by_time`: the events grouped by confirmation time, in their order. */
  function Group(events: seq<PivotEvent>): map<int, seq<PivotEvent>>
  {
    if events == [] then map[]
    else
      var m, e := Group(events[..|events| - 1]), events[|events| - 1];
      m[e.confirmationTime := (if e.confirmationTime in m then m[e.confirmationTime] else []) + [e]]
  }

  /** The grouping loop of `prepare_backtest_data`. */
  method GroupByTime(events: seq<PivotEvent>) returns (table: map<int, seq<PivotEvent>>)
    ensures table == Group(events)
  {
    table := map[];
    assert events[..0] == [];
    for i := 0 to |events|
      invariant table == Group(events[..i])
    {
      assert events[..i + 1][..i] == events[..i];
      var e := events[i];
      var earlier := if e.confirmationTime in table then table[e.confirmationTime] else [];
      table := table[e.confirmationTime := earlier + [e]];
    }
    assert events[..|events|] == events;
  }

  function ConfirmedAt(t: int): PivotEvent -> bool
  {
    (e: PivotEvent) => e.confirmationTime == t
  }

  function Lookup(m: map<int, seq<PivotEvent>>, t: int): seq<PivotEvent>
  {
    if t in m then m[t] else []
  }

  lemma {:induction false} LookupIsFilter(events: seq<PivotEvent>, t: int)
    ensures Lookup(Group(events), t) == Filter(events, ConfirmedAt(t))
  {
    if events != [] {
      var init, e := events[..|events| - 1], events[|events| - 1];
      LookupIsFilter(init, t);
      FilterConcat(init, [e], ConfirmedAt(t));
      assert events == init + [e];
    }
  }

  /** The table built from a series' own HTF bars. The pivots are found in key order, so the sort
      before the grouping changes nothing (`Pivots.FinalSortIsIdentity`). */
  function EventTable(bars: seq<Bar>, period: posint, left: posint, right: posint): map<int, seq<PivotEvent>>
  {
    Group(AllEvents(Resample(bars, period, |bars|), left, right))
  }

  /** Candidates confirmed no later than bar m - 1 read nothing of that bar but its time. */
  lemma {:induction false} EventsBelowAgree(a: seq<Bar>, b: seq<Bar>, m: nat, left: posint, right: posint, n: nat)
    requires 0 < m && SameStart(a, b, m - 1) && m <= |a| && m <= |b| && a[m - 1].ts == b[m - 1].ts
    requires n <= left || n + right < m
    ensures EventsBelow(a, left, right, n) == EventsBelow(b, left, right, n)
  {
    hide EventsAt;
    if n > left {
      EventsBelowAgree(a, b, m, left, right, n - 1);
      EventsAtAgree(a, b, m, n - 1, left, right);
    }
  }

  lemma EventsAtAgree(a: seq<Bar>, b: seq<Bar>, m: nat, c: nat, left: posint, right: posint)
    requires 0 < m && SameStart(a, b, m - 1) && m <= |a| && m <= |b| && a[m - 1].ts == b[m - 1].ts
    requires left <= c && ConfirmIndex(c, right) < m
    ensures EventsAt(a, c, left, right) == EventsAt(b, c, left, right)
  {
    hide IsPivotHigh, IsPivotLow;
    SameStartAt(a, b, m - 1, c);
    var confirmed := ConfirmIndex(c, right);
    if confirmed < m - 1 {
      SameStartAt(a, b, m - 1, confirmed);
    }
    PivotAgrees(a, b, m, c, left, right);
  }

  lemma PivotAgrees(a: seq<Bar>, b: seq<Bar>, m: nat, c: nat, left: posint, right: posint)
    requires 0 < m && SameStart(a, b, m - 1) && m <= |a| && m <= |b| && left <= c && ConfirmIndex(c, right) < m
    ensures IsPivotHigh(a, c, left, right) == IsPivotHigh(b, c, left, right)
    ensures IsPivotLow(a, c, left, right) == IsPivotLow(b, c, left, right)
  {
    SameStartAt(a, b, m - 1, c);
    ExtremesSameStart(a, b, m - 1, c - left, c);
    ExtremesSameStart(a, b, m - 1, c + 1, c + right + 1);
  }

  /** Which events a trading bar sees is settled by the candidates that the HTF bars up to its
      own bucket confirm. */
  lemma EventsSeen(bars: seq<Bar>, period: posint, left: posint, right: posint, i: nat)
    requires Chronological(bars) && i < |bars|
    ensures
      var full, m := Resample(bars, period, |bars|), |Resample(bars, period, i + 1)|;
      && m <= |full| && (CandidateEnd(m, right) <= left || CandidateEnd(m, right) + right < |full|)
      && Filter(AllEvents(full, left, right), ConfirmedAt(bars[i].ts))
         == Filter(EventsBelow(full, left, right, CandidateEnd(m, right)), ConfirmedAt(bars[i].ts))
  {
    hide EventsBelow, Resample;
    var full, m, t := Resample(bars, period, |bars|), |Resample(bars, period, i + 1)|, bars[i].ts;
    NextBucketIsLater(bars, period, i);
    ResampleChronological(bars, period, |bars|);
    var end, n := CandidateEnd(m, right), CandidateEnd(|full|, right);
    LaterEventsConfirmLater(full, left, right, end, n, t + 1);
    var early, all := EventsBelow(full, left, right, end), AllEvents(full, left, right);
    assert all == early + all[|early|..];
    FilterConcat(early, all[|early|..], ConfirmedAt(t));
    FilterNone(all[|early|..], ConfirmedAt(t));
  }

  /** A trading bar sees the same pivots in every series that agrees with it up to that bar. */
  lemma SeenEventsAgree(a: seq<Bar>, b: seq<Bar>, period: posint, left: posint, right: posint, k: nat, i: nat)
    requires Chronological(a) && Chronological(b) && SameStart(a, b, k) && i < k
    ensures Lookup(EventTable(a, period, left, right), a[i].ts) == Lookup(EventTable(b, period, left, right), b[i].ts)
  {
    hide Resample, AllEvents, EventsBelow, Group, Lookup, Filter;
    ResampleSameStart(a, b, period, k, i + 1);
    SameStartAt(a, b, k, i);
    SeenBelow(a, period, left, right, i);
    SeenBelow(b, period, left, right, i);
    CandidatesAgree(a, b, period, left, right, k, i);
  }

  /** What a trading bar looks up are the events of its time among the candidates confirmed by then. */
  lemma SeenBelow(bars: seq<Bar>, period: posint, left: posint, right: posint, i: nat)
    requires Chronological(bars) && i < |bars|
    ensures
      var full, end := Resample(bars, period, |bars|), CandidateEnd(|Resample(bars, period, i + 1)|, right);
      && (end <= left || end + right < |full|)
      && Lookup(EventTable(bars, period, left, right), bars[i].ts)
         == Filter(EventsBelow(full, left, right, end), ConfirmedAt(bars[i].ts))
  {
    hide Resample, AllEvents, EventsBelow, Group, Lookup, Filter;
    EventsSeen(bars, period, left, right, i);
    LookupIsFilter(AllEvents(Resample(bars, period, |bars|), left, right), bars[i].ts);
  }

  lemma CandidatesAgree(a: seq<Bar>, b: seq<Bar>, period: posint, left: posint, right: posint, k: nat, i: nat)
    requires Chronological(a) && Chronological(b) && SameStart(a, b, k) && i < k
    ensures
      var fa, fb := Resample(a, period, |a|), Resample(b, period, |b|);
      var end := CandidateEnd(|Resample(a, period, i + 1)|, right);
      && (end <= left || (end + right < |fa| && end + right < |fb|))
      && EventsBelow(fa, left, right, end) == EventsBelow(fb, left, right, end)
  {
    hide Resample, EventsBelow;
    var fa, fb, m := Resample(a, period, |a|), Resample(b, period, |b|), |Resample(a, period, i + 1)|;
    ResampleSameStart(a, b, period, k, i + 1);
    ResampleGrows(a, period, i + 1, |a|);
    ResampleGrows(b, period, i + 1, |b|);
    assert SameStart(fa, fb, m - 1);
    EventsBelowAgree(fa, fb, m, left, right, CandidateEnd(m, right));
  }

  // ------------------------------------------------------------ the walk

  predicate SameFeatures(d: Features, e: Features, i: nat)
    requires WellFormed(d) && WellFormed(e) && i < |d.bars| && i < |e.bars|
  {
    && d.ema50[i] == e.ema50[i] && d.ema200[i] == e.ema200[i]
    && d.rsi15[i] == e.rsi15[i] && d.rsi30[i] == e.rsi30[i] && d.rsi1h[i] == e.rsi1h[i]
    && d.usd[i] == e.usd[i] && d.atr[i] == e.atr[i]
  }

  ghost predicate Agree(d: Features, e: Features, k: nat)
  {
    && WellFormed(d) && WellFormed(e) && SameStart(d.bars, e.bars, k)
    && (forall i :: 0 <= i < k ==> SameFeatures(d, e, i))
    && (forall i :: 0 <= i < k ==> EventsOn(d, i) == EventsOn(e, i))
  }

  /** All of a bar but the entry test. */
  function Closing(d: Features, cfg: Config, prm: Params, i: nat, s: FibState): Result<FibState>
    requires WellFormed(d) && i < |d.bars|
  {
    match Fill(d, cfg, prm, i, s)
    case Err(x) => Err(x)
    case Ok(t) => Ok(Exit(d, cfg, prm, i, t, true))
  }

  lemma ClosingAgrees(d: Features, e: Features, cfg: Config, prm: Params, k: nat, i: nat, s: FibState)
    requires Agree(d, e, k) && i < k
    ensures Closing(d, cfg, prm, i, s) == Closing(e, cfg, prm, i, s)
  {
    SameStartAt(d.bars, e.bars, k, i);
    assert SameFeatures(d, e, i);
  }

  lemma ConditionsAgree(d: Features, e: Features, cfg: Config, k: nat, i: nat, s: Swing)
    requires Agree(d, e, k) && i < k
    ensures Readable(d, i, s) == Readable(e, i, s)
    ensures Readable(d, i, s) ==>
      && LongCondition(d, cfg, i, s) == LongCondition(e, cfg, i, s)
      && ShortCondition(d, cfg, i, s) == ShortCondition(e, cfg, i, s)
  {
    hide EventsOn;
    SameStartAt(d.bars, e.bars, k, i);
    if i > 0 {
      SameStartAt(d.bars, e.bars, k, i - 1);
    }
    assert SameFeatures(d, e, i);
  }

  lemma SwingAgrees(d: Features, e: Features, cfg: Config, k: nat, i: nat, h: History)
    requires Agree(d, e, k) && i < k
    ensures SwingOn(d, cfg, i, h) == SwingOn(e, cfg, i, h)
  {
    hide ConsumeAll, EventsOn, SameFeatures;
    SameStartAt(d.bars, e.bars, k, i);
  }

  lemma LookAgrees(d: Features, e: Features, cfg: Config, k: nat, i: nat, s: FibState)
    requires Agree(d, e, k) && i + 1 < k
    ensures Look(d, cfg, i, s) == Look(e, cfg, i, s)
  {
    hide SwingOn, Readable, LongCondition, ShortCondition, EventsOn;
    assert SameFeatures(d, e, i);
    SwingAgrees(d, e, cfg, k, i, s.history);
    ConditionsAgree(d, e, cfg, k, i, SwingOn(d, cfg, i, s.history).swing);
  }

  lemma {:induction false} RunAgrees(d: Features, e: Features, cfg: Config, prm: Params, k: nat, j: nat)
    requires Agree(d, e, k) && (j < k || j == 0)
    ensures Run(d, cfg, prm, j) == Run(e, cfg, prm, j)
  {
    hide Fill, Exit, Look, EventsOn, SameFeatures;
    if j > 0 {
      RunAgrees(d, e, cfg, prm, k, j - 1);
      match Run(d, cfg, prm, j - 1)
      case Err(_) =>
      case Ok(s) =>
        ClosingAgrees(d, e, cfg, prm, k, j - 1, s);
        var c := Closing(d, cfg, prm, j - 1, s);
        if c.Ok? {
          LookAgrees(d, e, cfg, k, j - 1, c.value);
        }
    }
  }

  function TradesOf(r: Result<FibState>): Result<seq<Trade>>
  {
    match r
    case Err(x) => Err(x)
    case Ok(s) => Ok(s.trades)
  }

  lemma LookKeepsTrades(d: Features, cfg: Config, i: nat, s: FibState)
    requires WellFormed(d) && i < |d.bars|
    ensures Look(d, cfg, i, s).trades == s.trades
  {
  }

  /** After `k` common bars the trades, or the exception, coincide, even when one series ends there. */
  lemma TradesAgree(d: Features, e: Features, cfg: Config, prm: Params, k: nat)
    requires Agree(d, e, k)
    ensures TradesOf(Run(d, cfg, prm, k)) == TradesOf(Run(e, cfg, prm, k))
  {
    hide Fill, Exit, Look, EventsOn, SameFeatures;
    if k > 0 {
      RunAgrees(d, e, cfg, prm, k, k - 1);
      match Run(d, cfg, prm, k - 1)
      case Err(_) =>
      case Ok(s) =>
        ClosingAgrees(d, e, cfg, prm, k, k - 1, s);
        var c := Closing(d, cfg, prm, k - 1, s);
        if c.Ok? {
          LookKeepsTrades(d, cfg, k - 1, c.value);
          LookKeepsTrades(e, cfg, k - 1, c.value);
        }
    }
  }

  /** What a bar adds to the trades exits on it. */
  ghost predicate Adds(before: seq<Trade>, after: seq<Trade>, i: nat)
  {
    before <= after && forall j :: |before| <= j < |after| ==> after[j].exitIndex == i
  }

  lemma StepAdds(d: Features, cfg: Config, prm: Params, i: nat, s: FibState)
    requires WellFormed(d) && i < |d.bars|
    ensures
      var r := StepBar(d, cfg, prm, i, s, true);
      r.Ok? ==> Adds(s.trades, r.value.trades, i)
  {
    hide Look;
    var c := Closing(d, cfg, prm, i, s);
    if c.Ok? {
      LookKeepsTrades(d, cfg, i, c.value);
    }
  }

  lemma {:induction false} LaterExitLater(d: Features, cfg: Config, prm: Params, k: nat, n: nat)
    requires WellFormed(d) && k <= n <= |d.bars| && Run(d, cfg, prm, n).Ok?
    ensures Run(d, cfg, prm, k).Ok?
    ensures Run(d, cfg, prm, k).value.trades <= Run(d, cfg, prm, n).value.trades
    ensures forall j :: |Run(d, cfg, prm, k).value.trades| <= j < |Run(d, cfg, prm, n).value.trades| ==>
                          Run(d, cfg, prm, n).value.trades[j].exitIndex >= k
  {
    hide StepBar;
    if k < n {
      LaterExitLater(d, cfg, prm, k, n - 1);
      StepAdds(d, cfg, prm, n - 1, Run(d, cfg, prm, n - 1).value);
    }
  }

  lemma {:induction false} SettledBefore(d: Features, cfg: Config, prm: Params, k: nat)
    requires WellFormed(d) && k <= |d.bars| && Run(d, cfg, prm, |d.bars|).Ok?
    ensures Run(d, cfg, prm, k).Ok?
    ensures Filter(Run(d, cfg, prm, |d.bars|).value.trades, ExitsBefore(k)) == Run(d, cfg, prm, k).value.trades
  {
    hide Run, OpenFill, FirstTouchExit;
    LaterExitLater(d, cfg, prm, k, |d.bars|);
    var all, early := Run(d, cfg, prm, |d.bars|).value.trades, Run(d, cfg, prm, k).value.trades;
    forall j | 0 <= j < |early| ensures ExitsBefore(k)(all[j]) {
      assert all[j] == early[j] && early[j] in early;
      TradesLeaveAtFirstTouch(d, cfg, prm, k, early[j]);
    }
    FilterSplit(all, |early|, ExitsBefore(k));
  }

  /** The same bars and indicators with the pivots of their own resampled bars. */
  function WithEvents(d: Features, period: posint, left: posint, right: posint): Features
  {
    d.(events := EventTable(d.bars, period, left, right))
  }

  ghost predicate SameInputs(d: Features, e: Features, k: nat)
  {
    && WellFormed(d) && WellFormed(e) && Chronological(d.bars) && Chronological(e.bars)
    && SameStart(d.bars, e.bars, k) && forall i :: 0 <= i < k ==> SameFeatures(d, e, i)
  }

  lemma PreparedAgree(d: Features, e: Features, period: posint, left: posint, right: posint, k: nat)
    requires SameInputs(d, e, k)
    ensures Agree(WithEvents(d, period, left, right), WithEvents(e, period, left, right), k)
  {
    hide EventTable, Chronological;
    var p, q := WithEvents(d, period, left, right), WithEvents(e, period, left, right);
    forall i | 0 <= i < k ensures EventsOn(p, i) == EventsOn(q, i) {
      SeenEventsAgree(d.bars, e.bars, period, left, right, k, i);
      assert Lookup(p.events, p.bars[i].ts) == Lookup(q.events, q.bars[i].ts);
    }
    forall i | 0 <= i < k ensures SameFeatures(p, q, i) {
      assert SameFeatures(d, e, i);
    }
  }

  /** An exception before bar `k` is the outcome of both runs. */
  lemma ErrorIsShared(d: Features, e: Features, cfg: Config, prm: Params, k: nat)
    requires Agree(d, e, k)
    ensures Run(d, cfg, prm, k).Err? <==> Run(e, cfg, prm, k).Err?
    ensures Run(d, cfg, prm, k).Err? ==> Run(d, cfg, prm, |d.bars|) == Run(e, cfg, prm, |e.bars|)
  {
    hide Run;
    TradesAgree(d, e, cfg, prm, k);
    if Run(d, cfg, prm, k).Err? {
      ErrorEndsRun(d, cfg, prm, k, |d.bars|);
      ErrorEndsRun(e, cfg, prm, k, |e.bars|);
    }
  }

  /** What two runs that share their first `k` bars have in common. */
  ghost predicate SameOutcomeBefore(r: Result<FibState>, v: Result<FibState>, k: nat)
  {
    r.Ok? && v.Ok? ==> Filter(r.value.trades, ExitsBefore(k)) == Filter(v.value.trades, ExitsBefore(k))
  }

  /** Causality: inputs that agree on their first `k` bars close the same trades before bar `k`, if
      neither run raises, with pivots found on each series' own higher-timeframe bars, whatever their
      last, unfinished bar becomes. An exception before bar `k` ends both runs alike. */
  lemma {:induction false} WalkIsCausal(d: Features, e: Features, cfg: Config, prm: Params,
                                        period: posint, left: posint, right: posint, k: nat)
    requires SameInputs(d, e, k)
    ensures
      var p, q := WithEvents(d, period, left, right), WithEvents(e, period, left, right);
      var r, v := Run(p, cfg, prm, |d.bars|), Run(q, cfg, prm, |e.bars|);
      && SameOutcomeBefore(r, v, k)
      && (Run(p, cfg, prm, k).Err? ==> r == v && r.Err?)
      && (Run(p, cfg, prm, k).Err? <==> Run(q, cfg, prm, k).Err?)
  {
    hide Run, EventTable;
    var p, q := WithEvents(d, period, left, right), WithEvents(e, period, left, right);
    PreparedAgree(d, e, period, left, right, k);
    TradesAgree(p, q, cfg, prm, k);
    ErrorIsShared(p, q, cfg, prm, k);
    if Run(p, cfg, prm, k).Err? {
      ErrorEndsRun(p, cfg, prm, k, |d.bars|);
    }
    if Run(p, cfg, prm, |d.bars|).Ok? && Run(q, cfg, prm, |e.bars|).Ok? {
      SettledBefore(p, cfg, prm, k);
      SettledBefore(q, cfg, prm, k);
    }
  }

  /** Trades entered by bar `c` are settled by bar c + maxHold + 1. */
  lemma {:induction false} EntrantsAreSettled(d: Features, cfg: Config, prm: Params, c: nat, k: nat)
    requires WellFormed(d) && c + cfg.maxHold + 2 == k <= |d.bars| && Run(d, cfg, prm, |d.bars|).Ok?
    ensures Run(d, cfg, prm, k).Ok?
    ensures Filter(Run(d, cfg, prm, |d.bars|).value.trades, EntersBy(c))
         == Filter(Run(d, cfg, prm, k).value.trades, EntersBy(c))
  {
    hide Run, OpenFill;
    LaterExitLater(d, cfg, prm, k, |d.bars|);
    var all, early := Run(d, cfg, prm, |d.bars|).value.trades, Run(d, cfg, prm, k).value.trades;
    assert all == early + all[|early|..];
    FilterConcat(early, all[|early|..], EntersBy(c));
    forall t | t in all[|early|..] ensures !EntersBy(c)(t) {
      var j :| |early| <= j < |all| && all[j] == t;
      TradesLeaveAtFirstTouch(d, cfg, prm, |d.bars|, t);
    }
    FilterNone(all[|early|..], EntersBy(c));
  }

  /** Bounded influence: inputs that agree through bar c + maxHold + 1 yield the same trades entered
      at or before bar `c`, whatever follows, if neither run raises. */
  lemma {:induction false} TailIsBounded(d: Features, e: Features, cfg: Config, prm: Params,
                                         period: posint, left: posint, right: posint, c: nat)
    requires SameInputs(d, e, c + cfg.maxHold + 2)
    ensures
      var r := Run(WithEvents(d, period, left, right), cfg, prm, |d.bars|);
      var v := Run(WithEvents(e, period, left, right), cfg, prm, |e.bars|);
      r.Ok? && v.Ok? ==> Filter(r.value.trades, EntersBy(c)) == Filter(v.value.trades, EntersBy(c))
  {
    hide Run, EventTable;
    var k := c + cfg.maxHold + 2;
    var p, q := WithEvents(d, period, left, right), WithEvents(e, period, left, right);
    PreparedAgree(d, e, period, left, right, k);
    TradesAgree(p, q, cfg, prm, k);
    if Run(p, cfg, prm, |d.bars|).Ok? && Run(q, cfg, prm, |e.bars|).Ok? {
      EntrantsAreSettled(p, cfg, prm, c, k);
      EntrantsAreSettled(q, cfg, prm, c, k);
    }
  }
}
