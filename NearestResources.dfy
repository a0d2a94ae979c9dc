/**
 * `predict` in inference.py: for every resource type, the (at most) three
 * resources nearest to the incident, nearest first. Entries whose
 * coordinates do not parse or that have no `resource_id` key are skipped,
 * and so is every entry when the incident's position is not a number.
 */
module NearestResources {
  import opened Options

  /** `float(r["latitude"])`: either a number or a failure (missing key, unparsable text). */
  datatype Coordinate = Unparsable | Degrees(value: real)

  /**
   * The incident's `lat` or `lon` as `haversine` receives it, without `float()`:
   * a number, or a value `math.radians` rejects (a string, `null`).
   */
  datatype IncidentValue = NotNumber | Number(value: real)

  /** A JSON field of a resource: no such key, the key with `null`, or the key with a string. */
  datatype JsonText = Missing | Null | Text(text: string)

  datatype Resource = Resource(
    latitude: Coordinate,
    longitude: Coordinate,
    resourceId: JsonText,
    location: JsonText)

  /** A JSON field that is present, as Python reads it: `None` for `null`. */
  function PyValue(f: JsonText): (v: Option<string>)
    requires !f.Missing?
    ensures v.Some? <==> f.Text?
    ensures v.Some? ==> v.value == f.text
  {
    if f.Text? then Some(f.text) else None
  }

  /** An entry of a result list; `None` stands for Python's `None`. */
  datatype Nearest = Nearest(resourceId: Option<string>, location: Option<string>, distanceKm: real)

  /**
   * The distance in km from the incident (first two arguments) to a
   * resource, as `round(haversine(...), 2)` computes it.
   */
  type DistanceFn = (real, real, real, real) -> real

  /**
   * The resource's part of the `try` body completes: both coordinates parse
   * and the `resource_id` key exists (a `null` id raises nothing and is kept).
   */
  predicate Usable(r: Resource) {
    r.latitude.Degrees? && r.longitude.Degrees? && !r.resourceId.Missing?
  }

  /** The whole `try` body completes: the resource is usable and `haversine` gets numbers. */
  predicate Kept(lat: IncidentValue, lon: IncidentValue, r: Resource) {
    lat.Number? && lon.Number? && Usable(r)
  }

  /** `r.get("location", "Unknown")`: the default only when the key is missing. */
  function LocationOf(r: Resource): (loc: Option<string>)
    ensures r.location.Missing? ==> loc == Some("Unknown")
    ensures r.location.Null? ==> loc.None?
    ensures r.location.Text? ==> loc == Some(r.location.text)
  {
    if r.location.Missing? then Some("Unknown") else PyValue(r.location)
  }

  /** The entry the `try` body appends for a usable resource. */
  function Entry(lat: IncidentValue, lon: IncidentValue, r: Resource, distance: DistanceFn): Nearest
    requires Kept(lat, lon, r)
  {
    Nearest(PyValue(r.resourceId), LocationOf(r),
            distance(lat.value, lon.value, r.latitude.value, r.longitude.value))
  }

  /** The `distances` list after the inner loop over `rs`. */
  function Candidates(lat: IncidentValue, lon: IncidentValue, rs: seq<Resource>, distance: DistanceFn): (c: seq<Nearest>)
    ensures |c| <= |rs|
  {
    if rs == [] then []
    else
      var last := rs[|rs| - 1];
      Candidates(lat, lon, rs[..|rs| - 1], distance) + (if Kept(lat, lon, last) then [Entry(lat, lon, last, distance)] else [])
  }

  function CountKept(lat: IncidentValue, lon: IncidentValue, rs: seq<Resource>): (n: nat)
    ensures n <= |rs|
  {
    if rs == [] then 0 else CountKept(lat, lon, rs[..|rs| - 1]) + (if Kept(lat, lon, rs[|rs| - 1]) then 1 else 0)
  }

  /** A resource whose `resource_id` is `null` is kept, with id `None`; one without the key is skipped. */
  lemma NullIdKept(lat: IncidentValue, lon: IncidentValue, r: Resource, distance: DistanceFn)
    requires lat.Number? && lon.Number?
    requires r.latitude.Degrees? && r.longitude.Degrees? && r.resourceId.Null?
    ensures Candidates(lat, lon, [r], distance) == [Entry(lat, lon, r, distance)]
    ensures Entry(lat, lon, r, distance).resourceId.None?
    ensures Candidates(lat, lon, [r.(resourceId := Missing)], distance) == []
  {
    assert [r][..0] == [];
    assert [r.(resourceId := Missing)][..0] == [];
  }

  /** A failing entry is skipped without affecting the others: candidates are built piecewise. */
  lemma {:induction false} CandidatesAppend(lat: IncidentValue, lon: IncidentValue, a: seq<Resource>, b: seq<Resource>, distance: DistanceFn)
    ensures Candidates(lat, lon, a + b, distance) == Candidates(lat, lon, a, distance) + Candidates(lat, lon, b, distance)
    decreases |b|
  {
    if b != [] {
      assert (a + b)[..|a + b| - 1] == a + b[..|b| - 1];
      CandidatesAppend(lat, lon, a, b[..|b| - 1], distance);
    } else {
      assert a + b == a;
    }
  }

  /** One candidate per usable resource, each built from a usable resource. */
  lemma {:induction false} CandidatesFromKept(lat: IncidentValue, lon: IncidentValue, rs: seq<Resource>, distance: DistanceFn)
    ensures |Candidates(lat, lon, rs, distance)| == CountKept(lat, lon, rs)
    ensures forall e :: e in Candidates(lat, lon, rs, distance) ==>
      exists i :: 0 <= i < |rs| && Kept(lat, lon, rs[i]) && e == Entry(lat, lon, rs[i], distance)
  {
    if rs != [] {
      var init := rs[..|rs| - 1];
      CandidatesFromKept(lat, lon, init, distance);
      forall e | e in Candidates(lat, lon, rs, distance)
        ensures exists i :: 0 <= i < |rs| && Kept(lat, lon, rs[i]) && e == Entry(lat, lon, rs[i], distance)
      {
        if e in Candidates(lat, lon, init, distance) {
          var i :| 0 <= i < |init| && Kept(lat, lon, init[i]) && e == Entry(lat, lon, init[i], distance);
          assert rs[i] == init[i];
        } else {
          assert Kept(lat, lon, rs[|rs| - 1]) && e == Entry(lat, lon, rs[|rs| - 1], distance);
        }
      }
    }
  }

  // ---------------------------------------------------------------------
  // sorted(distances, key=lambda x: x["distance_km"]): a stable sort
  // ---------------------------------------------------------------------

  predicate SortedByDistance(s: seq<Nearest>) {
    forall i, j :: 0 <= i < j < |s| ==> s[i].distanceKm <= s[j].distanceKm
  }

  /** Puts `x` before the first entry that is not nearer than it. */
  function Insert(x: Nearest, s: seq<Nearest>): (r: seq<Nearest>)
    ensures multiset(r) == multiset(s) + multiset{x}
  {
    if s == [] || x.distanceKm <= s[0].distanceKm then [x] + s
    else
      assert s == [s[0]] + s[1..];
      [s[0]] + Insert(x, s[1..])
  }

  lemma {:induction false} InsertSorted(x: Nearest, s: seq<Nearest>)
    requires SortedByDistance(s)
    ensures SortedByDistance(Insert(x, s))
  {
    if s != [] && x.distanceKm > s[0].distanceKm {
      InsertSorted(x, s[1..]);
      InsertKeepsBound(x, s[1..], s[0].distanceKm);
      ConsSorted(s[0], Insert(x, s[1..]));
    }
  }

  /** Insertion adds no entry nearer than a bound that `x` and all of `s` respect. */
  lemma InsertKeepsBound(x: Nearest, s: seq<Nearest>, bound: real)
    requires bound <= x.distanceKm
    requires forall e :: e in s ==> bound <= e.distanceKm
    ensures forall e :: e in Insert(x, s) ==> bound <= e.distanceKm
  {
    forall e | e in Insert(x, s)
      ensures bound <= e.distanceKm
    {
      assert e in multiset(Insert(x, s));
    }
  }

  /** An entry no farther than every entry of a sorted list can go in front of it. */
  lemma ConsSorted(h: Nearest, t: seq<Nearest>)
    requires SortedByDistance(t)
    requires forall e :: e in t ==> h.distanceKm <= e.distanceKm
    ensures SortedByDistance([h] + t)
  {
    var r := [h] + t;
    forall i, j | 0 <= i < j < |r|
      ensures r[i].distanceKm <= r[j].distanceKm
    {
      if i > 0 {
        assert r[i] == t[i - 1] && r[j] == t[j - 1];
      } else {
        assert r[j] == t[j - 1];
      }
    }
  }

  /** Insertion sort; the first entry is inserted last, ahead of its ties. */
  function SortByDistance(s: seq<Nearest>): (r: seq<Nearest>)
    ensures multiset(r) == multiset(s)
    ensures SortedByDistance(r)
  {
    if s == [] then []
    else
      assert s == [s[0]] + s[1..];
      InsertSorted(s[0], SortByDistance(s[1..]));
      Insert(s[0], SortByDistance(s[1..]))
  }

  /** The entries at distance `d`, in order. */
  function AtDistance(s: seq<Nearest>, d: real): seq<Nearest> {
    if s == [] then []
    else (if s[0].distanceKm == d then [s[0]] else []) + AtDistance(s[1..], d)
  }

  lemma {:induction false} InsertAtDistance(x: Nearest, s: seq<Nearest>, d: real)
    requires SortedByDistance(s)
    ensures AtDistance(Insert(x, s), d) == if x.distanceKm == d then [x] + AtDistance(s, d) else AtDistance(s, d)
  {
    if s == [] || x.distanceKm <= s[0].distanceKm {
      assert ([x] + s)[1..] == s;
    } else {
      InsertAtDistance(x, s[1..], d);
      assert ([s[0]] + Insert(x, s[1..]))[1..] == Insert(x, s[1..]);
    }
  }

  /** The sort is stable: entries at equal distance keep their input order. */
  lemma {:induction false} SortIsStable(s: seq<Nearest>, d: real)
    ensures AtDistance(SortByDistance(s), d) == AtDistance(s, d)
  {
    if s != [] {
      SortIsStable(s[1..], d);
      InsertAtDistance(s[0], SortByDistance(s[1..]), d);
    }
  }

  function Min(a: nat, b: nat): nat {
    if a <= b then a else b
  }

  /** `[:3]` */
  function FirstThree(s: seq<Nearest>): (r: seq<Nearest>)
    ensures |r| == Min(3, |s|)
    ensures r == s[..|r|]
  {
    s[..Min(3, |s|)]
  }

  /** The result list of one resource type. */
  function NearestThree(lat: IncidentValue, lon: IncidentValue, rs: seq<Resource>, distance: DistanceFn): (r: seq<Nearest>)
    ensures |r| <= 3
    ensures SortedByDistance(r)
  {
    FirstThree(SortByDistance(Candidates(lat, lon, rs, distance)))
  }

  /** Three entries, or fewer when fewer resources of that type are kept. */
  lemma NearestThreeLength(lat: IncidentValue, lon: IncidentValue, rs: seq<Resource>, distance: DistanceFn)
    ensures |NearestThree(lat, lon, rs, distance)| == Min(3, CountKept(lat, lon, rs))
    ensures |NearestThree(lat, lon, rs, distance)| <= |rs|
  {
    var c := Candidates(lat, lon, rs, distance);
    CandidatesFromKept(lat, lon, rs, distance);
    assert |SortByDistance(c)| == |multiset(SortByDistance(c))| == |multiset(c)| == |c|;
  }

  /**
   * Every entry is built from a usable input resource of that type; its
   * location defaults to "Unknown" when the key is missing.
   */
  lemma NearestThreeFromInput(lat: IncidentValue, lon: IncidentValue, rs: seq<Resource>, distance: DistanceFn)
    ensures forall e :: e in NearestThree(lat, lon, rs, distance) ==>
      exists i :: 0 <= i < |rs| && Kept(lat, lon, rs[i]) && e == Entry(lat, lon, rs[i], distance)
  {
    var c := Candidates(lat, lon, rs, distance);
    var sorted := SortByDistance(c);
    CandidatesFromKept(lat, lon, rs, distance);
    forall e | e in NearestThree(lat, lon, rs, distance)
      ensures e in c
    {
      assert e in multiset(sorted);
    }
  }

  /** In a sorted list, no entry after position k is nearer than an entry before it. */
  lemma PrefixIsNearest(sorted: seq<Nearest>, k: nat)
    requires SortedByDistance(sorted) && k <= |sorted|
    ensures forall x, y :: x in sorted[..k] && y in sorted[k..] ==> x.distanceKm <= y.distanceKm
  {
    forall x, y | x in sorted[..k] && y in sorted[k..]
      ensures x.distanceKm <= y.distanceKm
    {
      var i :| 0 <= i < k && sorted[..k][i] == x;
      var j :| 0 <= j < |sorted| - k && sorted[k..][j] == y;
      assert sorted[i] == x && sorted[k + j] == y;
    }
  }

  /** A prefix of a sorted list is drawn from it, and nothing it leaves out is nearer. */
  lemma PrefixKeepsNearest(sorted: seq<Nearest>, k: nat)
    requires SortedByDistance(sorted) && k <= |sorted|
    ensures multiset(sorted[..k]) <= multiset(sorted)
    ensures forall x, y :: x in sorted[..k] && y in multiset(sorted) - multiset(sorted[..k]) ==>
      x.distanceKm <= y.distanceKm
  {
    assert multiset(sorted) == multiset(sorted[..k]) + multiset(sorted[k..]) by {
      assert sorted == sorted[..k] + sorted[k..];
    }
    assert multiset(sorted) - multiset(sorted[..k]) == multiset(sorted[k..]);
    PrefixIsNearest(sorted, k);
  }

  /**
   * The result holds the smallest distances: it is drawn from the candidates,
   * and no candidate left out is nearer than an entry kept.
   */
  lemma NearestThreeAreNearest(lat: IncidentValue, lon: IncidentValue, rs: seq<Resource>, distance: DistanceFn)
    ensures multiset(NearestThree(lat, lon, rs, distance)) <= multiset(Candidates(lat, lon, rs, distance))
    ensures forall x, y ::
      (x in NearestThree(lat, lon, rs, distance) &&
       y in multiset(Candidates(lat, lon, rs, distance)) - multiset(NearestThree(lat, lon, rs, distance)))
      ==> x.distanceKm <= y.distanceKm
  {
    var c := Candidates(lat, lon, rs, distance);
    var sorted := SortByDistance(c);
    var k := Min(3, |sorted|);
    assert NearestThree(lat, lon, rs, distance) == sorted[..k];
    assert multiset(c) == multiset(sorted);
    PrefixKeepsNearest(sorted, k);
  }

  /**
   * A position that is not a number makes `haversine` raise inside the `try`
   * for every resource, so every entry is skipped and every list is empty.
   */
  lemma {:induction false} NonNumericPositionKeepsNothing(lat: IncidentValue, lon: IncidentValue, rs: seq<Resource>, distance: DistanceFn)
    requires lat.NotNumber? || lon.NotNumber?
    ensures Candidates(lat, lon, rs, distance) == []
    ensures NearestThree(lat, lon, rs, distance) == []
    decreases |rs|
  {
    if rs != [] {
      NonNumericPositionKeepsNothing(lat, lon, rs[..|rs| - 1], distance);
    }
  }

  /** The inner loop of `predict`: the `distances` list built for one resource type. */
  method CollectDistances(x: IncidentValue, y: IncidentValue, rlist: seq<Resource>, distance: DistanceFn)
    returns (distances: seq<Nearest>)
    ensures distances == Candidates(x, y, rlist, distance)
  {
    distances := [];
    var i := 0;
    while i < |rlist|
      invariant 0 <= i <= |rlist|
      invariant distances == Candidates(x, y, rlist[..i], distance)
    {
      var r := rlist[i];
      if r.latitude.Degrees? && r.longitude.Degrees? && x.Number? && y.Number? {
        var km := distance(x.value, y.value, r.latitude.value, r.longitude.value);
        if !r.resourceId.Missing? {
          var location := if r.location.Missing? then Some("Unknown") else PyValue(r.location);
          distances := distances + [Nearest(PyValue(r.resourceId), location, km)];
        }
      }
      assert rlist[..i + 1][..i] == rlist[..i];
      i := i + 1;
    }
    assert rlist[..|rlist|] == rlist;
  }

  /**
   * predict: `None` when the incident has no `lat` or `lon` key (the lookup
   * raises before the loop); otherwise one result list per resource type,
   * holding the nearest three kept resources of that type.
   */
  method Predict(lat: Option<IncidentValue>, lon: Option<IncidentValue>, resources: map<string, seq<Resource>>, distance: DistanceFn)
    returns (results: Option<map<string, seq<Nearest>>>)
    ensures results.None? <==> lat.None? || lon.None?
    ensures results.Some? ==> results.value.Keys == resources.Keys
    ensures results.Some? ==> forall rtype :: rtype in results.value ==>
      results.value[rtype] == NearestThree(lat.value, lon.value, resources[rtype], distance)
    ensures results.Some? && (lat.value.NotNumber? || lon.value.NotNumber?) ==>
      forall rtype :: rtype in results.value ==> results.value[rtype] == []
  {
    if lat.None? || lon.None? {
      return None;
    }
    var x, y := lat.value, lon.value;
    var lists: map<string, seq<Nearest>> := map[];
    var pending := resources.Keys;
    while pending != {}
      invariant pending <= resources.Keys
      invariant lists.Keys == resources.Keys - pending
      invariant forall rtype :: rtype in lists ==> lists[rtype] == NearestThree(x, y, resources[rtype], distance)
      decreases pending
    {
      var rtype :| rtype in pending;
      var distances := CollectDistances(x, y, resources[rtype], distance);
      lists := lists[rtype := FirstThree(SortByDistance(distances))];
      pending := pending - {rtype};
    }
    if x.NotNumber? || y.NotNumber? {
      forall rtype | rtype in lists
        ensures lists[rtype] == []
      {
        NonNumericPositionKeepsNothing(x, y, resources[rtype], distance);
      }
    }
    results := Some(lists);
  }
}
