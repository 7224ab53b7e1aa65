/** ETR reports and their JSON form (src/etr/models.py), restricted to the fields that the diff
    and the shadow log read. */
module EtrModels {
  import opened Wrappers

  datatype Json = JNull | JBool(b: bool) | JNum(n: real) | JStr(s: string) | JObj(fields: map<string, Json>)

  /** Library text conversions, left to the caller: `:g` formatting, `str` of a JSON value that
      is not a string, and `float` of a string. */
  datatype Codec = Codec(g: real -> string, show: Json -> string, parse: string -> Option<real>)

  datatype PriceZone = PriceZone(low: real, high: real)

  /** Inclusive, and indifferent to the order of the bounds. */
  predicate ZoneContains(z: PriceZone, price: real)
  {
    if z.low <= z.high then z.low <= price <= z.high else z.high <= price <= z.low
  }

  function ZoneText(c: Codec, z: PriceZone): string
  {
    c.g(z.low) + "\U{2013}" + c.g(z.high)
  }

  datatype Scenario = Scenario(
    direction: string, status: string, zone: Option<PriceZone>,
    invalidation: Option<real>, tp1: Option<real>, tp2: Option<real>)

  datatype Report = Report(
    asset: string, price: Option<real>, score: Option<real>, bias: string, estado: string,
    primary: Option<Scenario>)

  /** Unknown when the price or the zone is unknown. */
  function PriceInPrimaryZone(r: Report): Option<bool>
  {
    if r.price.None? || r.primary.None? || r.primary.value.zone.None? then None
    else Some(ZoneContains(r.primary.value.zone.value, r.price.value))
  }

  function NumJson(x: Option<real>): Json
  {
    match x
    case None => JNull
    case Some(v) => JNum(v)
  }

  function ZoneToDict(z: PriceZone): Json
  {
    JObj(map["low" := JNum(z.low), "high" := JNum(z.high)])
  }

  function ScenarioToDict(s: Scenario): Json
  {
    JObj(map[
      "direction" := JStr(s.direction), "status" := JStr(s.status),
      "activation_zone" := match s.zone { case Some(z) => ZoneToDict(z) case None => JNull },
      "invalidation" := NumJson(s.invalidation), "tp1" := NumJson(s.tp1), "tp2" := NumJson(s.tp2)])
  }

  function ReportToDict(r: Report): Json
  {
    JObj(map[
      "asset" := JStr(r.asset), "price" := NumJson(r.price), "context_score" := NumJson(r.score),
      "bias" := JStr(r.bias), "estado" := JStr(r.estado),
      "primary" := match r.primary { case Some(s) => ScenarioToDict(s) case None => JNull },
      "price_in_primary_zone" := match PriceInPrimaryZone(r) { case Some(b) => JBool(b) case None => JNull }])
  }

  /** `payload.get(key)`. */
  function Get(j: Json, key: string): Json
  {
    if j.JObj? && key in j.fields then j.fields[key] else JNull
  }

  predicate Falsy(j: Json)
  {
    match j
    case JNull => true
    case JBool(b) => !b
    case JNum(n) => n == 0.0
    case JStr(s) => s == ""
    case JObj(m) => m == map[]
  }

  /** `str(value or "")`. */
  function AsText(c: Codec, j: Json): string
  {
    if Falsy(j) then "" else if j.JStr? then j.s else c.show(j)
  }

  /** `_opt_float`: numbers and numeric strings, never booleans. */
  function AsFloat(c: Codec, j: Json): Option<real>
  {
    match j
    case JNum(n) => Some(n)
    case JStr(s) => if s == "" then None else c.parse(s)
    case _ => None
  }

  /** `float(value)` inside a handler: a failure counts as missing. */
  function ForceFloat(c: Codec, j: Json): Option<real>
  {
    match j
    case JNum(n) => Some(n)
    case JBool(b) => Some(if b then 1.0 else 0.0)
    case JStr(s) => c.parse(s)
    case _ => None
  }

  function ZoneFromDict(c: Codec, j: Json): Option<PriceZone>
  {
    if !j.JObj? then None
    else
      var low, high := ForceFloat(c, Get(j, "low")), ForceFloat(c, Get(j, "high"));
      if low.None? || high.None? then None else Some(PriceZone(low.value, high.value))
  }

  function ScenarioFromDict(c: Codec, j: Json): Option<Scenario>
  {
    if !j.JObj? then None
    else Some(Scenario(
      AsText(c, Get(j, "direction")), AsText(c, Get(j, "status")), ZoneFromDict(c, Get(j, "activation_zone")),
      AsFloat(c, Get(j, "invalidation")), AsFloat(c, Get(j, "tp1")), AsFloat(c, Get(j, "tp2"))))
  }

  function ReportFromDict(c: Codec, j: Json): Report
  {
    Report(
      AsText(c, Get(j, "asset")), AsFloat(c, Get(j, "price")), AsFloat(c, Get(j, "context_score")),
      AsText(c, Get(j, "bias")), AsText(c, Get(j, "estado")), ScenarioFromDict(c, Get(j, "primary")))
  }

  lemma ScenarioRoundTrip(c: Codec, s: Scenario)
    ensures ScenarioFromDict(c, ScenarioToDict(s)) == Some(s)
  {
    var j := ScenarioToDict(s);
    assert Get(j, "direction") == JStr(s.direction) && Get(j, "status") == JStr(s.status);
    assert Get(j, "invalidation") == NumJson(s.invalidation);
    assert Get(j, "tp1") == NumJson(s.tp1) && Get(j, "tp2") == NumJson(s.tp2);
    if s.zone.Some? {
      var z := ZoneToDict(s.zone.value);
      assert Get(j, "activation_zone") == z;
      assert Get(z, "low") == JNum(s.zone.value.low) && Get(z, "high") == JNum(s.zone.value.high);
    }
  }

  /** What a poll stores is what the next poll reads back, whatever the text conversions do. */
  lemma ReportRoundTrip(c: Codec, r: Report)
    ensures ReportFromDict(c, ReportToDict(r)) == r
  {
    var j := ReportToDict(r);
    assert Get(j, "asset") == JStr(r.asset) && Get(j, "bias") == JStr(r.bias) && Get(j, "estado") == JStr(r.estado);
    assert Get(j, "price") == NumJson(r.price) && Get(j, "context_score") == NumJson(r.score);
    if r.primary.Some? {
      ScenarioRoundTrip(c, r.primary.value);
      assert Get(j, "primary") == ScenarioToDict(r.primary.value);
    }
  }
}
