/**
 * Incident records as the dashboard receives them and as it renders them:
 * the raw record, the normaliser applied to every fetched record, the two
 * lookup tables (state positions and severity styles) and the rules that
 * decide which incidents get a marker and how it is styled
 * (DashboardPage.jsx).
 */
module Incidents {
  import opened Options
  import opened DisasterTypes
  import Text

  // ---------------------------------------------------------------------
  // JavaScript truthiness of optional fields: absent, 0 and "" are falsy.
  // ---------------------------------------------------------------------

  predicate TruthyNumber(n: Option<int>) {
    n.Some? && n.value != 0
  }

  // ---------------------------------------------------------------------
  // Raw records
  // ---------------------------------------------------------------------

  /**
   * The three flattened fields `nearest_resources_<kind>_0_location`,
   * `..._distance_km` and `..._resource_id` of one resource kind.
   */
  datatype RawResource = RawResource(location: Option<string>, distanceKm: Option<real>, resourceId: Option<string>)

  /** One incident object of the fetched payload; every field may be absent. */
  datatype RawIncident = RawIncident(
    incidentId: Option<string>,
    state: Option<string>,
    severityScore: Option<int>,         // enriched_severity_score_1_5
    description: Option<string>,        // enriched_clean_description
    timestamp: Option<string>,
    status: Option<string>,
    estPeopleAffected: Option<int>,     // enriched_est_people_affected
    urgencyScore: Option<real>,         // enriched_urgency_score
    populationDensity: Option<real>,    // enriched_population_density
    disasterRiskIndex: Option<real>,    // enriched_disaster_risk_index
    ambulances: RawResource,
    hospitals: RawResource,
    food: RawResource,
    shelters: RawResource,
    responseUnits: RawResource)

  /**
   * An element of the payload. Reading a property of `null` throws; any
   * other non-object value yields absent properties, which is the record
   * with every field absent.
   */
  datatype Element = NullElement | Object(raw: RawIncident)

  /** The parsed response body: an array of elements or a single one. */
  datatype Body = ArrayBody(items: seq<Element>) | SingleBody(item: Element)

  // ---------------------------------------------------------------------
  // Normalised records
  // ---------------------------------------------------------------------

  datatype ResourceRef = ResourceRef(location: string, distanceKm: Option<real>, resourceId: Option<string>)

  datatype Incident = Incident(
    incidentId: Option<string>,
    state: Option<string>,
    severity: int,
    description: string,
    disasterType: DisasterType,
    timestamp: Option<string>,
    status: Option<string>,
    estPeopleAffected: Option<int>,
    urgencyScore: Option<real>,
    populationDensity: Option<real>,
    disasterRiskIndex: Option<real>,
    nearestAmbulance: Option<ResourceRef>,
    nearestHospital: Option<ResourceRef>,
    nearestFood: Option<ResourceRef>,
    nearestShelter: Option<ResourceRef>,
    nearestResponseUnit: Option<ResourceRef>)

  const NoDescription: string := "No description available"

  /** A resource sub-record is built only when its location is truthy. */
  function NearestResource(r: RawResource): (ref: Option<ResourceRef>)
    ensures ref.Some? <==> TruthyText(r.location)
    ensures ref.Some? ==> ref.value == ResourceRef(r.location.value, r.distanceKm, r.resourceId)
  {
    if TruthyText(r.location) then Some(ResourceRef(r.location.value, r.distanceKm, r.resourceId)) else None
  }

  /** The record normaliser applied to each element of the payload. */
  function Normalize(raw: RawIncident): (inc: Incident)
    ensures inc.severity != 0
    ensures inc.description != ""
    ensures TruthyText(raw.description) ==> inc.description == raw.description.value
    ensures !TruthyText(raw.description) ==> inc.description == NoDescription
    ensures inc.disasterType == Unknown <==> !TruthyText(raw.description)
    ensures inc.incidentId == raw.incidentId && inc.state == raw.state
  {
    Incident(
      raw.incidentId,
      raw.state,
      if TruthyNumber(raw.severityScore) then raw.severityScore.value else 1,
      if TruthyText(raw.description) then raw.description.value else NoDescription,
      ExtractDisasterType(raw.description),
      raw.timestamp,
      raw.status,
      raw.estPeopleAffected,
      raw.urgencyScore,
      raw.populationDensity,
      raw.disasterRiskIndex,
      NearestResource(raw.ambulances),
      NearestResource(raw.hospitals),
      NearestResource(raw.food),
      NearestResource(raw.shelters),
      NearestResource(raw.responseUnits))
  }

  /**
   * Severity defaults to 1 when the source score is falsy; a truthy score is
   * kept verbatim, out of range or not, so only an in-range or falsy score
   * gives a severity in 1..5.
   */
  lemma SeverityDefault(raw: RawIncident)
    ensures !TruthyNumber(raw.severityScore) ==> Normalize(raw).severity == 1
    ensures TruthyNumber(raw.severityScore) ==> Normalize(raw).severity == raw.severityScore.value
    ensures 1 <= Normalize(raw).severity <= 5 <==>
      raw.severityScore.None? || raw.severityScore.value == 0 || 1 <= raw.severityScore.value <= 5
  {
  }

  /** The five resource sub-records of an incident, in popup order. */
  function Resources(inc: Incident): seq<Option<ResourceRef>> {
    [inc.nearestAmbulance, inc.nearestHospital, inc.nearestFood, inc.nearestShelter, inc.nearestResponseUnit]
  }

  function CountPresent(refs: seq<Option<ResourceRef>>): (n: nat)
    ensures n <= |refs|
  {
    if refs == [] then 0 else (if refs[0].Some? then 1 else 0) + CountPresent(refs[1..])
  }

  /** The count shown beside "Nearest Resources": the non-null sub-records. */
  function ResourceCount(inc: Incident): (n: nat)
    ensures n <= 5
  {
    CountPresent(Resources(inc))
  }

  function RawLocations(raw: RawIncident): seq<Option<string>> {
    [raw.ambulances.location, raw.hospitals.location, raw.food.location, raw.shelters.location,
     raw.responseUnits.location]
  }

  function CountTruthy(texts: seq<Option<string>>): (n: nat)
    ensures n <= |texts|
  {
    if texts == [] then 0 else (if TruthyText(texts[0]) then 1 else 0) + CountTruthy(texts[1..])
  }

  /** Counting present sub-records and truthy locations agree when they agree pointwise. */
  lemma {:induction false} CountsAgree(refs: seq<Option<ResourceRef>>, locs: seq<Option<string>>)
    requires |refs| == |locs|
    requires forall k :: 0 <= k < |refs| ==> (refs[k].Some? <==> TruthyText(locs[k]))
    ensures CountPresent(refs) == CountTruthy(locs)
  {
    if refs != [] {
      CountsAgree(refs[1..], locs[1..]);
    }
  }

  /** The popup's resource count is the number of truthy `_location` fields of the source. */
  lemma ResourceCountIsTruthyLocations(raw: RawIncident)
    ensures forall k :: 0 <= k < 5 ==> (Resources(Normalize(raw))[k].Some? <==> TruthyText(RawLocations(raw)[k]))
    ensures ResourceCount(Normalize(raw)) == CountTruthy(RawLocations(raw))
  {
    CountsAgree(Resources(Normalize(raw)), RawLocations(raw));
  }

  // ---------------------------------------------------------------------
  // The payload
  // ---------------------------------------------------------------------

  /** `Array.isArray(data) ? data : [data]` */
  function Elements(body: Body): (items: seq<Element>)
    ensures body.ArrayBody? ==> items == body.items
    ensures body.SingleBody? ==> items == [body.item]
  {
    match body
    case ArrayBody(items) => items
    case SingleBody(item) => [item]
  }

  /**
   * `items.map(normalise)`: None when some element is null, because reading
   * a property of null throws and the whole callback is abandoned.
   */
  function NormalizeAll(items: seq<Element>): (r: Option<seq<Incident>>)
    ensures r.Some? <==> forall i :: 0 <= i < |items| ==> items[i].Object?
    ensures r.Some? ==> |r.value| == |items|
    ensures r.Some? ==> forall i :: 0 <= i < |items| ==> r.value[i] == Normalize(items[i].raw)
  {
    if items == [] then Some([])
    else if items[0].NullElement? then None
    else
      match NormalizeAll(items[1..])
      case None => None
      case Some(rest) => Some([Normalize(items[0].raw)] + rest)
  }

  /** Normalisation keeps length and order; a non-array payload becomes a one-element list. */
  function NormalizeBody(body: Body): (r: Option<seq<Incident>>)
    ensures r.Some? <==> forall i :: 0 <= i < |Elements(body)| ==> Elements(body)[i].Object?
    ensures r.Some? ==> |r.value| == |Elements(body)|
    ensures r.Some? ==> forall i :: 0 <= i < |r.value| ==> r.value[i] == Normalize(Elements(body)[i].raw)
  {
    NormalizeAll(Elements(body))
  }

  /** A payload that is a single object normalises to a one-element list. */
  lemma SingleRecordBecomesOneIncident(raw: RawIncident)
    ensures NormalizeBody(SingleBody(Object(raw))) == Some([Normalize(raw)])
  {
    var r := NormalizeBody(SingleBody(Object(raw)));
    assert r.value == [Normalize(raw)];
  }

  // ---------------------------------------------------------------------
  // Lookup tables
  // ---------------------------------------------------------------------

  /** The keys of STATE_COORDS; the coordinates themselves are not modelled. */
  const StateCoordKeys: set<string> := {
    "Maharashtra", "Gujarat", "Delhi", "Odisha", "TamilNadu", "Karnataka",
    "Kerala", "WestBengal", "Rajasthan", "Bihar", "Assam"
  }

  datatype SeverityStyle = SeverityStyle(color: string, caption: string, glow: string)

  /** severityConfig */
  const SeverityTable: map<int, SeverityStyle> := map[
    1 := SeverityStyle("#10b981", "Low", "rgba(16, 185, 129, 0.4)"),
    2 := SeverityStyle("#22c55e", "Moderate", "rgba(34, 197, 94, 0.4)"),
    3 := SeverityStyle("#f59e0b", "High", "rgba(245, 158, 11, 0.4)"),
    4 := SeverityStyle("#f97316", "Critical", "rgba(249, 115, 22, 0.4)"),
    5 := SeverityStyle("#ef4444", "Severe", "rgba(239, 68, 68, 0.4)")
  ]

  // ---------------------------------------------------------------------
  // Marker rules
  // ---------------------------------------------------------------------

  /** `STATE_COORDS[incident.state]` is truthy. */
  predicate HasMarker(inc: Incident) {
    inc.state.Some? && inc.state.value in StateCoordKeys
  }

  /** The incidents that get a marker, in list order. */
  function Markers(incidents: seq<Incident>): (r: seq<Incident>)
    ensures |r| <= |incidents|
    ensures forall x :: x in r <==> x in incidents && HasMarker(x)
  {
    if incidents == [] then []
    else (if HasMarker(incidents[0]) then [incidents[0]] else []) + Markers(incidents[1..])
  }

  /**
   * Markers are taken in list order: the markers of a concatenation are the
   * markers of each part, one after the other, so with the one-incident case
   * `Markers` is the order-preserving filter of the list.
   */
  lemma {:induction false} MarkersKeepOrder(a: seq<Incident>, b: seq<Incident>)
    ensures Markers(a + b) == Markers(a) + Markers(b)
    ensures |a| == 1 ==> Markers(a) == if HasMarker(a[0]) then a else []
  {
    if a != [] {
      assert (a + b)[1..] == a[1..] + b;
      MarkersKeepOrder(a[1..], b);
    } else {
      assert a + b == b;
    }
    if |a| == 1 {
      assert a[1..] == [];
    }
  }

  /** An incident without a map position costs the map one marker. */
  lemma {:induction false} UnplacedIncidentHasNoMarker(incidents: seq<Incident>, i: nat)
    requires i < |incidents|
    requires !HasMarker(incidents[i])
    ensures |Markers(incidents)| < |incidents|
  {
    if i > 0 {
      UnplacedIncidentHasNoMarker(incidents[1..], i - 1);
    }
  }

  /** `incident.severity || 1` */
  function SeverityKey(inc: Incident): (key: int)
    ensures key != 0
    ensures inc.severity != 0 ==> key == inc.severity
  {
    if inc.severity == 0 then 1 else inc.severity
  }

  /** `severityConfig[severity] || severityConfig[1]`: out-of-range severities take the level-1 style. */
  function MarkerStyle(inc: Incident): (style: SeverityStyle)
    ensures style in SeverityTable.Values
    ensures 1 <= SeverityKey(inc) <= 5 ==> style == SeverityTable[SeverityKey(inc)]
    ensures !(1 <= SeverityKey(inc) <= 5) ==> style == SeverityTable[1]
  {
    var key := SeverityKey(inc);
    if key in SeverityTable then SeverityTable[key] else SeverityTable[1]
  }

  // ---------------------------------------------------------------------
  // Two records and what the normaliser makes of them
  // ---------------------------------------------------------------------

  const NoResource := RawResource(None, None, None)

  lemma KeralaFloodRecord()
    ensures var inc := Normalize(RawIncident(Some("I1"), Some("Kerala"), Some(3), Some("Heavy flood warning issued"),
                                             None, None, None, None, None, None,
                                             NoResource, NoResource, NoResource, NoResource, NoResource));
      inc.severity == 3 && inc.disasterType == Flood && inc.description == "Heavy flood warning issued" &&
      HasMarker(inc) && ResourceCount(inc) == 0
  {
    FloodWarningIsFlood();
  }

  lemma FloodWarningIsFlood()
    ensures ExtractDisasterType(Some("Heavy flood warning issued")) == Flood
  {
    LowerCaseWordFound("Heavy flood warning issued", "flood", 6);
    FloodWins("Heavy flood warning issued");
  }

  /** A lower-case word that occurs in a description occurs in its lower-cased form. */
  lemma LowerCaseWordFound(s: string, word: string, i: nat)
    requires i + |word| <= |s| && s[i..i + |word|] == word
    requires forall k :: 0 <= k < |word| ==> !Text.IsUpper(word[k])
    ensures Text.Contains(Text.Lower(s), word)
  {
    var t := Text.Lower(s);
    forall k | 0 <= k < |word|
      ensures t[i..i + |word|][k] == word[k]
    {
      assert s[i + k] == word[k];
    }
    Text.ContainsAt(t, word, i);
  }

  lemma BiharBareRecord()
    ensures var inc := Normalize(RawIncident(Some("I2"), Some("Bihar"), None, None, None, None, None, None, None, None,
                                             NoResource, NoResource, NoResource, NoResource, NoResource));
      inc.severity == 1 && inc.disasterType == Unknown && inc.description == NoDescription
  {
  }
}
