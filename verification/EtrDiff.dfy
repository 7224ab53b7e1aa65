/** Structural changes between two reports (src/etr/diff.py). */
module EtrDiff {
  import opened Wrappers
  import opened Seqs
  import opened EtrModels
  import opened Text

  datatype Severity = Info | Action

  datatype Field =
    | Bias | Estado | PrimaryDirection | PrimaryInvalidation | PrimaryZone | PrimaryStatus | ContextScore
    | InPrimaryZone

  datatype Change = Change(field: Field, before: string, after: string, severity: Severity)

  datatype Thresholds = Thresholds(low: real, high: real, delta: real)

  const DASH := "\U{2014}"

  function OrDash(s: string): string
  {
    if s == "" then DASH else s
  }

  function FmtNum(c: Codec, x: Option<real>): string
  {
    match x
    case None => DASH
    case Some(v) => c.g(v)
  }

  function DirectionOf(r: Report): string { if r.primary.Some? then r.primary.value.direction else "" }

  function StatusOf(r: Report): string { if r.primary.Some? then r.primary.value.status else "" }

  function InvalidationOf(r: Report): Option<real> { if r.primary.Some? then r.primary.value.invalidation else None }

  function ZoneStr(c: Codec, r: Report): string
  {
    if r.primary.Some? && r.primary.value.zone.Some? then ZoneText(c, r.primary.value.zone.value) else DASH
  }

  /** The score crosses a threshold or jumps by at least the delta. */
  predicate ScoreMoved(p: real, q: real, t: Thresholds)
  {
    || p > t.low >= q || p < t.low <= q
    || p < t.high <= q || p > t.high >= q
    || Abs(q - p) >= t.delta
  }

  predicate ScoreChanged(p: Report, q: Report, t: Thresholds)
  {
    p.score.Some? && q.score.Some? && ScoreMoved(p.score.value, q.score.value, t)
  }

  /** Whether the previous poll counts as in the zone: its stored flag, or else its report. */
  function WasIn(p: Report, flag: Option<bool>): Option<bool>
  {
    if flag.Some? then flag else PriceInPrimaryZone(p)
  }

  /** The edge: known to be in now, and not known to have been in before. */
  predicate EntersZone(p: Report, q: Report, flag: Option<bool>)
  {
    PriceInPrimaryZone(q) == Some(true) && WasIn(p, flag) != Some(true)
  }

  /** Which fields count as changed. */
  predicate Changed(c: Codec, p: Report, q: Report, t: Thresholds, flag: Option<bool>, f: Field)
  {
    match f
    case Bias => Norm(p.bias) != Norm(q.bias)
    case Estado => Norm(p.estado) != Norm(q.estado)
    case PrimaryDirection => Norm(DirectionOf(p)) != Norm(DirectionOf(q))
    case PrimaryInvalidation => FmtNum(c, InvalidationOf(p)) != FmtNum(c, InvalidationOf(q))
    case PrimaryZone => ZoneStr(c, p) != ZoneStr(c, q)
    case PrimaryStatus => Norm(StatusOf(p)) != Norm(StatusOf(q))
    case ContextScore => ScoreChanged(p, q, t)
    case InPrimaryZone => EntersZone(p, q, flag)
  }

  const FIELD_ORDER: seq<Field> :=
    [Bias, Estado, PrimaryDirection, PrimaryInvalidation, PrimaryZone, PrimaryStatus, ContextScore, InPrimaryZone]

  /** The change reported for a field: how it read before and how it reads now. */
  function ChangeOf(c: Codec, p: Report, q: Report, f: Field): (x: Change)
    ensures x.field == f
  {
    match f
    case Bias => Change(Bias, OrDash(p.bias), OrDash(q.bias), Action)
    case Estado => Change(Estado, OrDash(p.estado), OrDash(q.estado), Action)
    case PrimaryDirection => Change(PrimaryDirection, OrDash(DirectionOf(p)), OrDash(DirectionOf(q)), Action)
    case PrimaryInvalidation =>
      Change(PrimaryInvalidation, FmtNum(c, InvalidationOf(p)), FmtNum(c, InvalidationOf(q)), Action)
    case PrimaryZone => Change(PrimaryZone, ZoneStr(c, p), ZoneStr(c, q), Action)
    case PrimaryStatus => Change(PrimaryStatus, OrDash(StatusOf(p)), OrDash(StatusOf(q)), Info)
    case ContextScore => Change(ContextScore, FmtNum(c, p.score), FmtNum(c, q.score), Info)
    case InPrimaryZone => Change(InPrimaryZone, "no", "yes", Action)
  }

  /** The changes among the first `n` fields, in their fixed order. */
  function Diff(c: Codec, p: Report, q: Report, t: Thresholds, flag: Option<bool>, n: nat): seq<Change>
    requires n <= |FIELD_ORDER|
  {
    if n == 0 then []
    else
      Diff(c, p, q, t, flag, n - 1) +
      if Changed(c, p, q, t, flag, FIELD_ORDER[n - 1]) then [ChangeOf(c, p, q, FIELD_ORDER[n - 1])] else []
  }

  /** Appends a change when its field has changed. */
  method Note(changes: seq<Change>, when: bool, x: Change) returns (r: seq<Change>)
    ensures r == changes + if when then [x] else []
  {
    r := changes;
    if when {
      r := changes + [x];
    }
  }

  /** The textual fields, which come first. */
  method DiffTexts(c: Codec, p: Report, q: Report, ghost t: Thresholds, ghost flag: Option<bool>)
    returns (changes: seq<Change>)
    ensures changes == Diff(c, p, q, t, flag, 6)
  {
    hide Norm, FmtNum, ZoneStr, OrDash, DirectionOf, StatusOf, InvalidationOf;
    changes := [];
    assert changes == Diff(c, p, q, t, flag, 0);
    changes := Note(changes, Norm(p.bias) != Norm(q.bias), Change(Bias, OrDash(p.bias), OrDash(q.bias), Action));
    assert changes == Diff(c, p, q, t, flag, 1);
    changes := Note(changes, Norm(p.estado) != Norm(q.estado),
                    Change(Estado, OrDash(p.estado), OrDash(q.estado), Action));
    assert changes == Diff(c, p, q, t, flag, 2);
    changes := Note(changes, Norm(DirectionOf(p)) != Norm(DirectionOf(q)),
                    Change(PrimaryDirection, OrDash(DirectionOf(p)), OrDash(DirectionOf(q)), Action));
    assert changes == Diff(c, p, q, t, flag, 3);
    var before, after := FmtNum(c, InvalidationOf(p)), FmtNum(c, InvalidationOf(q));
    changes := Note(changes, before != after, Change(PrimaryInvalidation, before, after, Action));
    assert changes == Diff(c, p, q, t, flag, 4);
    changes := Note(changes, ZoneStr(c, p) != ZoneStr(c, q), Change(PrimaryZone, ZoneStr(c, p), ZoneStr(c, q), Action));
    assert changes == Diff(c, p, q, t, flag, 5);
    changes := Note(changes, Norm(StatusOf(p)) != Norm(StatusOf(q)),
                    Change(PrimaryStatus, OrDash(StatusOf(p)), OrDash(StatusOf(q)), Info));
  }

  /** `diff_reports`: nothing without a previous report. */
  method DiffReports(c: Codec, previous: Option<Report>, q: Report, t: Thresholds, flag: Option<bool>)
    returns (changes: seq<Change>)
    ensures changes == if previous.None? then [] else Diff(c, previous.value, q, t, flag, 8)
  {
    if previous.None? {
      return [];
    }
    var p := previous.value;
    changes := DiffTexts(c, p, q, t, flag);
    changes := Note(changes, ScoreChanged(p, q, t), Change(ContextScore, FmtNum(c, p.score), FmtNum(c, q.score), Info));
    assert changes == Diff(c, p, q, t, flag, 7);
    changes := Note(changes, EntersZone(p, q, flag), Change(InPrimaryZone, "no", "yes", Action));
  }

  /** What the shadow log looks for in a diff. */
  predicate HasEntry(changes: seq<Change>)
  {
    exists x :: x in changes && x.field == InPrimaryZone && x.after == "yes"
  }

  /** A diff holds exactly the changed fields, each with its own wording. */
  lemma {:induction false} DiffIsExact(c: Codec, p: Report, q: Report, t: Thresholds, flag: Option<bool>, n: nat,
                                       x: Change)
    requires n <= |FIELD_ORDER|
    ensures x in Diff(c, p, q, t, flag, n) <==>
            x.field in FIELD_ORDER[..n] && Changed(c, p, q, t, flag, x.field) && x == ChangeOf(c, p, q, x.field)
  {
    hide Changed;
    if n > 0 {
      DiffIsExact(c, p, q, t, flag, n - 1, x);
      assert FIELD_ORDER[..n] == FIELD_ORDER[..n - 1] + [FIELD_ORDER[n - 1]];
    }
  }

  /** The diff carries a zone entry exactly when the price is in the zone now and was not known
      to be in it before. */
  lemma EntryIsEdge(c: Codec, p: Report, q: Report, t: Thresholds, flag: Option<bool>)
    ensures HasEntry(Diff(c, p, q, t, flag, 8)) <==> EntersZone(p, q, flag)
  {
    var x := ChangeOf(c, p, q, InPrimaryZone);
    DiffIsExact(c, p, q, t, flag, 8, x);
    assert FIELD_ORDER[7] == InPrimaryZone;
    if HasEntry(Diff(c, p, q, t, flag, 8)) {
      var y :| y in Diff(c, p, q, t, flag, 8) && y.field == InPrimaryZone && y.after == "yes";
      DiffIsExact(c, p, q, t, flag, 8, y);
    }
  }

  /** Pure price noise is silent: if nothing but the price has moved, and it has not entered the
      zone, the diff is empty. */
  lemma OnlyPriceMoved(c: Codec, p: Report, price: Option<real>, t: Thresholds, flag: Option<bool>)
    requires t.delta > 0.0 && !EntersZone(p, p.(price := price), flag)
    ensures Diff(c, p, p.(price := price), t, flag, 8) == []
  {
    var q := p.(price := price);
    assert forall f :: !Changed(c, p, q, t, flag, f);
    NothingChanged(c, p, q, t, flag, 8);
  }

  lemma {:induction false} NothingChanged(c: Codec, p: Report, q: Report, t: Thresholds, flag: Option<bool>, n: nat)
    requires n <= |FIELD_ORDER| && forall f :: !Changed(c, p, q, t, flag, f)
    ensures Diff(c, p, q, t, flag, n) == []
  {
    hide Changed;
    if n > 0 {
      NothingChanged(c, p, q, t, flag, n - 1);
    }
  }
}
