/**
 * `getSeverityStats`: the number of incidents at each severity, folded into
 * a dictionary, and the five stat cards read from it (DashboardPage.jsx).
 */
module SeverityStats {
  import opened Incidents

  /** The number of incidents whose `severity || 1` is `level`. */
  function Count(incidents: seq<Incident>, level: int): (n: nat)
    ensures n <= |incidents|
  {
    if incidents == [] then 0
    else Count(incidents[..|incidents| - 1], level) + (if SeverityKey(incidents[|incidents| - 1]) == level then 1 else 0)
  }

  /** The sum of a dictionary's counts. */
  ghost function Total(m: map<int, nat>): nat
    decreases |m|
  {
    if m.Keys == {} then 0 else NonEmptyHasKey(m); var k :| k in m.Keys; m[k] + Total(m - {k})
  }

  lemma NonEmptyHasKey(m: map<int, nat>)
    requires m.Keys != {}
    ensures exists k :: k in m.Keys
  {
    if forall k :: k !in m.Keys {
      assert false;
    }
  }

  /** Total does not depend on the key it happens to take apart first. */
  lemma TotalRemove(m: map<int, nat>, k: int)
    requires k in m
    ensures Total(m) == m[k] + Total(m - {k})
    decreases |m|
  {
    var j :| j in m && Total(m) == m[j] + Total(m - {j});
    if j != k {
      assert |m - {j}| < |m|;
      TotalRemove(m - {j}, k);
      TotalRemove(m - {k}, j);
      assert m - {j} - {k} == m - {k} - {j};
    }
  }

  lemma TotalUpdate(m: map<int, nat>, k: int, v: nat)
    ensures Total(m[k := v]) == Total(m) - (if k in m then m[k] else 0) + v
  {
    TotalRemove(m[k := v], k);
    assert m[k := v] - {k} == m - {k};
    if k in m {
      TotalRemove(m, k);
    } else {
      assert m - {k} == m;
    }
  }

  /** `stats` holds, for every severity that occurs, how many incidents have it, and nothing else. */
  ghost predicate CountsOf(incidents: seq<Incident>, stats: map<int, nat>) {
    && (forall level :: level in stats <==> Count(incidents, level) > 0)
    && (forall level :: level in stats ==> stats[level] == Count(incidents, level))
  }

  /**
   * getSeverityStats: every present key has a count of at least one, and the
   * counts add up to the number of incidents.
   */
  method GetSeverityStats(incidents: seq<Incident>) returns (stats: map<int, nat>)
    ensures CountsOf(incidents, stats)
    ensures forall level :: level in stats ==> stats[level] >= 1
    ensures Total(stats) == |incidents|
  {
    stats := map[];
    var i := 0;
    while i < |incidents|
      invariant 0 <= i <= |incidents|
      invariant CountsOf(incidents[..i], stats)
      invariant Total(stats) == i
    {
      var severity := SeverityKey(incidents[i]);
      var previous := if severity in stats then stats[severity] else 0;
      TotalUpdate(stats, severity, previous + 1);
      stats := stats[severity := previous + 1];
      assert incidents[..i + 1][..i] == incidents[..i];
      i := i + 1;
    }
    assert incidents[..|incidents|] == incidents;
  }

  /** `stats[level] || 0` */
  function StatCard(stats: map<int, nat>, level: int): nat {
    if level in stats then stats[level] else 0
  }

  /** One card per level of severityConfig, in order 1..5. */
  function StatCards(stats: map<int, nat>): (cards: seq<nat>)
    ensures |cards| == 5
    ensures forall i :: 0 <= i < 5 ==> cards[i] == StatCard(stats, i + 1)
  {
    [StatCard(stats, 1), StatCard(stats, 2), StatCard(stats, 3), StatCard(stats, 4), StatCard(stats, 5)]
  }

  /** Every card shows the number of incidents at its level, 0 when there are none. */
  lemma StatCardsShowCounts(incidents: seq<Incident>, stats: map<int, nat>)
    requires CountsOf(incidents, stats)
    ensures forall i :: 0 <= i < 5 ==> StatCards(stats)[i] == Count(incidents, i + 1)
  {
  }

  /** When every severity is in 1..5, the five cards add up to the number of incidents. */
  lemma {:induction false} FiveLevelsCoverAll(incidents: seq<Incident>)
    requires forall i :: 0 <= i < |incidents| ==> 1 <= SeverityKey(incidents[i]) <= 5
    ensures Count(incidents, 1) + Count(incidents, 2) + Count(incidents, 3) + Count(incidents, 4) +
            Count(incidents, 5) == |incidents|
  {
    if incidents != [] {
      FiveLevelsCoverAll(incidents[..|incidents| - 1]);
    }
  }

  /**
   * The stats count every incident, including those whose state has no map
   * position, so the cards can total more than the markers drawn.
   */
  lemma StatsCountUnplacedIncidents(incidents: seq<Incident>, stats: map<int, nat>, i: nat)
    requires Total(stats) == |incidents|
    requires i < |incidents| && !HasMarker(incidents[i])
    ensures |Markers(incidents)| < Total(stats)
  {
    UnplacedIncidentHasNoMarker(incidents, i);
  }
}
