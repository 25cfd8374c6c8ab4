/**
 * The in-memory incident store behind the incident endpoints
 * (backend/app/routes/incidents.py): a dictionary from incident id to
 * incident, the newest-first listing, the per-severity and per-status
 * statistics, and the analysis that moves an incident through ANALYZING
 * to ANALYZED.
 */
module IncidentRoutes {
  import opened Wrappers
  import opened SeqUtil
  import opened IncidentModels
  import AiEngine

  // ---- Tallies -------------------------------------------------------------

  /** `d[k] = d.get(k, 0) + 1`. */
  function Bump(d: map<string, nat>, k: string): (r: map<string, nat>)
    ensures r.Keys == d.Keys + {k}
    ensures r[k] == (if k in d then d[k] else 0) + 1
    ensures forall j :: j in d && j != k ==> r[j] == d[j]
  {
    d[k := (if k in d then d[k] else 0) + 1]
  }

  /** The dictionary a loop of `d[k] = d.get(k, 0) + 1` over `keys` builds. */
  function Tally(keys: seq<string>): map<string, nat>
  {
    if keys == [] then map[] else Bump(Tally(keys[..|keys| - 1]), keys[|keys| - 1])
  }

  /** A tally has a key exactly for each value that occurs, and counts its
      occurrences. */
  lemma {:induction false} TallyCounts(keys: seq<string>)
    ensures forall k :: k in Tally(keys) <==> k in keys
    ensures forall k :: k in Tally(keys) ==> Tally(keys)[k] == Count(keys, k) && Tally(keys)[k] >= 1
  {
    if keys != [] {
      var p := keys[..|keys| - 1];
      var x := keys[|keys| - 1];
      assert keys == p + [x];
      TallyCounts(p);
      forall k ensures k in keys <==> k in p || k == x {
      }
    }
  }

  /** The sum of `t[k]` over the keys listed in `ks`. */
  function SumOver(t: map<string, nat>, ks: seq<string>): nat
    requires forall k :: k in ks ==> k in t
  {
    if ks == [] then 0 else SumOver(t, ks[..|ks| - 1]) + t[ks[|ks| - 1]]
  }

  lemma {:induction false} SumOverAppend(t: map<string, nat>, ks: seq<string>, y: string)
    requires forall k :: k in ks ==> k in t
    requires y in t
    ensures SumOver(t, ks + [y]) == SumOver(t, ks) + t[y]
  {
    assert (ks + [y])[..|ks|] == ks;
  }

  /** Changing an entry that `ks` does not list leaves the sum alone. */
  lemma {:induction false} SumOverOther(t: map<string, nat>, ks: seq<string>, x: string, v: nat)
    requires forall k :: k in ks ==> k in t
    requires x !in ks
    ensures SumOver(t[x := v], ks) == SumOver(t, ks)
  {
    if ks != [] {
      SumOverOther(t, ks[..|ks| - 1], x, v);
    }
  }

  /** Changing an entry that `ks` lists once changes the sum by the same
      amount. */
  lemma {:induction false} SumOverUpdate(t: map<string, nat>, ks: seq<string>, x: string, v: nat)
    requires forall k :: k in ks ==> k in t
    requires NoDuplicates(ks) && x in ks
    ensures SumOver(t[x := v], ks) + t[x] == SumOver(t, ks) + v
  {
    var p := ks[..|ks| - 1];
    var y := ks[|ks| - 1];
    assert ks == p + [y];
    if y == x {
      assert x !in p by {
        forall i | 0 <= i < |p| ensures p[i] != x {
          assert ks[i] != ks[|ks| - 1];
        }
      }
      SumOverOther(t, p, x, v);
    } else {
      assert NoDuplicates(p) by {
        forall i, j | 0 <= i < j < |p| ensures p[i] != p[j] {
          assert ks[i] != ks[j];
        }
      }
      SumOverUpdate(t, p, x, v);
    }
  }

  /** Every value's first occurrence is a key of the tally. */
  lemma TallyCoversFirstOccurrences(keys: seq<string>)
    ensures forall k :: k in FirstOccurrences(keys) ==> k in Tally(keys)
  {
    TallyCounts(keys);
    forall k | k in FirstOccurrences(keys) ensures k in keys {
      var fo := FirstOccurrences(keys);
      var i :| 0 <= i < |fo| && fo[i] == k;
    }
  }

  /** The counts of a tally, over its keys in first-seen order (the order
      of the Python dictionary), add up to the number of values tallied. */
  lemma {:induction false} TallySum(keys: seq<string>)
    ensures forall k :: k in FirstOccurrences(keys) ==> k in Tally(keys)
    ensures SumOver(Tally(keys), FirstOccurrences(keys)) == |keys|
  {
    TallyCoversFirstOccurrences(keys);
    if keys != [] {
      var p := keys[..|keys| - 1];
      var x := keys[|keys| - 1];
      TallySum(p);
      TallyCounts(p);
      var t := Tally(p);
      var fo := FirstOccurrences(p);
      if x in fo {
        assert x in t;
        SumOverUpdate(t, fo, x, t[x] + 1);
      } else {
        assert x !in p;
        SumOverOther(t, fo, x, 1);
        SumOverAppend(t[x := 1], fo, x);
      }
    }
  }

  /** The `severity.value` of each incident, in order. */
  function SeverityValues(incs: seq<Incident>): (r: seq<string>)
    ensures |r| == |incs| && forall i :: 0 <= i < |incs| ==> r[i] == incs[i].severity.Value()
  {
    if incs == [] then [] else SeverityValues(incs[..|incs| - 1]) + [incs[|incs| - 1].severity.Value()]
  }

  /** The `status.value` of each incident, in order. */
  function StatusValues(incs: seq<Incident>): (r: seq<string>)
    ensures |r| == |incs| && forall i :: 0 <= i < |incs| ==> r[i] == incs[i].status.Value()
  {
    if incs == [] then [] else StatusValues(incs[..|incs| - 1]) + [incs[|incs| - 1].status.Value()]
  }

  /** One more value extends the tally of a prefix by one. */
  lemma TallyPrefixStep(keys: seq<string>, i: nat)
    requires i < |keys|
    ensures Tally(keys[..i + 1]) == Bump(Tally(keys[..i]), keys[i])
  {
    assert keys[..i + 1][..i] == keys[..i];
  }

  /** What `get_stats` returns. */
  datatype Stats = Stats(totalIncidents: nat, bySeverity: map<string, nat>, byStatus: map<string, nat>)

  /** Newest first: `sorted` with `reverse=True` is still stable, so it is
      the ascending stable sort on the negated creation time. */
  function NewestFirstKey(i: Incident): int
  {
    -i.createdAt
  }

  class IncidentStore {
    /** `_incidents`. */
    var incidents: map<string, Incident>
    /** The dictionary's insertion order. */
    var order: seq<string>

    ghost predicate Valid()
      reads this
    {
      NoDuplicates(order)
      && (forall k :: k in incidents <==> k in order)
      && (forall k :: k in incidents ==> incidents[k].id == k)
    }

    /** `dict.values()`, in insertion order. */
    function Values(): (vs: seq<Incident>)
      reads this
      requires Valid()
      ensures |vs| == |order| == |incidents|
      ensures forall i :: 0 <= i < |order| ==> vs[i] == incidents[order[i]]
    {
      NoDuplicatesCard(order, incidents);
      ValuesOf(incidents, order)
    }

    constructor()
      ensures Valid() && incidents == map[] && order == []
    {
      incidents := map[];
      order := [];
    }

    /** `add_incident(incident)`: inserts or replaces under the incident's
        id; a replaced incident keeps its place in the order. */
    method AddIncident(incident: Incident)
      requires Valid()
      modifies this
      ensures Valid()
      ensures incidents == old(incidents)[incident.id := incident]
      ensures order == if incident.id in old(incidents) then old(order) else old(order) + [incident.id]
    {
      if incident.id !in incidents {
        order := order + [incident.id];
      }
      incidents := incidents[incident.id := incident];
    }

    /** `get_incident(incident_id)`: the stored incident, or `None` where
        the endpoint answers 404 "Incident not found". */
    function GetIncident(incidentId: string): (r: Option<Incident>)
      reads this
      requires Valid()
      ensures r.Some? <==> incidentId in incidents
      ensures r.Some? ==> r.value == incidents[incidentId] && r.value.id == incidentId
    {
      if incidentId in incidents then Some(incidents[incidentId]) else None
    }

    /** `list_incidents()`: every stored incident, newest first; incidents
        created at the same time keep their insertion order. */
    function ListIncidents(): (r: seq<Incident>)
      reads this
      requires Valid()
      ensures |r| == |incidents|
      ensures multiset(r) == multiset(Values())
      ensures forall i, j :: 0 <= i < j < |r| ==> r[i].createdAt >= r[j].createdAt
      ensures forall t :: WithKey(r, NewestFirstKey, t) == WithKey(Values(), NewestFirstKey, t)
    {
      SortByKeySpec(Values(), NewestFirstKey);
      SortByKey(Values(), NewestFirstKey)
    }

    /** `analyze(incident_id)`: `None` (404) for an unknown id and nothing
        changes; otherwise the incident is marked ANALYZING, analysed, and
        stored back ANALYZED with the analysis. */
    method Analyze(incidentId: string, apiKey: string, groq: AiEngine.GroqAnswer, prose: AiEngine.Prose)
      returns (r: Option<Incident>)
      requires Valid()
      modifies this
      ensures Valid()
      ensures order == old(order)
      ensures incidentId !in old(incidents) ==> r == None && incidents == old(incidents)
      ensures incidentId in old(incidents) ==>
                var analyzing := old(incidents)[incidentId].(status := Analyzing);
                var done := analyzing.(rootCauseAnalysis := Some(AiEngine.AnalyzeIncident(analyzing, apiKey, groq, prose)),
                                       status := Analyzed);
                r == Some(done) && incidents == old(incidents)[incidentId := done]
    {
      if incidentId !in incidents {
        return None;
      }
      var incident := incidents[incidentId].(status := Analyzing);
      incidents := incidents[incidentId := incident];
      var rca := AiEngine.AnalyzeIncident(incident, apiKey, groq, prose);
      var done := incident.(rootCauseAnalysis := Some(rca), status := Analyzed);
      Overwrite(old(incidents), incidentId, incident, done);
      incidents := incidents[incidentId := done];
      r := Some(done);
    }

    /** Writing a key twice leaves the second value. */
    static lemma Overwrite(m: map<string, Incident>, k: string, a: Incident, b: Incident)
      ensures m[k := a][k := b] == m[k := b]
    {
    }

    /** `get_stats()`: the number of incidents, and how many have each
        severity and each status value. */
    method GetStats() returns (s: Stats)
      requires Valid()
      ensures s.totalIncidents == |incidents|
      ensures s.bySeverity == Tally(SeverityValues(Values()))
      ensures s.byStatus == Tally(StatusValues(Values()))
    {
      var vals := Values();
      var sevs := SeverityValues(vals);
      var stats := StatusValues(vals);
      var bySeverity: map<string, nat> := map[];
      var byStatus: map<string, nat> := map[];
      // sevs[i] and stats[i] are vals[i].severity.value and vals[i].status.value.
      for i := 0 to |vals|
        invariant bySeverity == Tally(sevs[..i])
        invariant byStatus == Tally(stats[..i])
      {
        TallyPrefixStep(sevs, i);
        TallyPrefixStep(stats, i);
        var sev := sevs[i];
        var stat := stats[i];
        bySeverity := Bump(bySeverity, sev);
        byStatus := Bump(byStatus, stat);
      }
      assert sevs[..|vals|] == sevs && stats[..|vals|] == stats;
      s := Stats(|incidents|, bySeverity, byStatus);
    }
  }

  /** A severity value occurs among the stored incidents' values exactly
      when some stored incident has it. */
  lemma SeverityValuesOfStore(store: IncidentStore)
    requires store.Valid()
    ensures forall k :: k in SeverityValues(store.Values()) <==>
              exists id :: id in store.incidents && store.incidents[id].severity.Value() == k
  {
    var vals := store.Values();
    var sevs := SeverityValues(vals);
    forall k ensures k in sevs <==> exists id :: id in store.incidents && store.incidents[id].severity.Value() == k {
      if k in sevs {
        var i :| 0 <= i < |sevs| && sevs[i] == k;
        assert store.order[i] in store.incidents;
      }
      if exists id :: id in store.incidents && store.incidents[id].severity.Value() == k {
        var id :| id in store.incidents && store.incidents[id].severity.Value() == k;
        var i := IndexOf(store.order, id);
        assert sevs[i] == k;
      }
    }
  }

  /** A status value occurs among the stored incidents' values exactly when
      some stored incident has it. */
  lemma StatusValuesOfStore(store: IncidentStore)
    requires store.Valid()
    ensures forall k :: k in StatusValues(store.Values()) <==>
              exists id :: id in store.incidents && store.incidents[id].status.Value() == k
  {
    var vals := store.Values();
    var stats := StatusValues(vals);
    forall k ensures k in stats <==> exists id :: id in store.incidents && store.incidents[id].status.Value() == k {
      if k in stats {
        var i :| 0 <= i < |stats| && stats[i] == k;
        assert store.order[i] in store.incidents;
      }
      if exists id :: id in store.incidents && store.incidents[id].status.Value() == k {
        var id :| id in store.incidents && store.incidents[id].status.Value() == k;
        var i := IndexOf(store.order, id);
        assert stats[i] == k;
      }
    }
  }

  /** The `by_severity` statistics: a severity value is tallied exactly
      when some stored incident has it, each count is at least one, and the
      counts add up to the number of incidents. */
  lemma SeverityStatsSpec(store: IncidentStore, bySeverity: map<string, nat>)
    requires store.Valid()
    requires bySeverity == Tally(SeverityValues(store.Values()))
    ensures forall k :: k in bySeverity <==>
              exists id :: id in store.incidents && store.incidents[id].severity.Value() == k
    ensures forall k :: k in bySeverity ==> bySeverity[k] >= 1
    ensures var order := FirstOccurrences(SeverityValues(store.Values()));
            (forall k :: k in order ==> k in bySeverity) && SumOver(bySeverity, order) == |store.incidents|
  {
    TallyCounts(SeverityValues(store.Values()));
    TallySum(SeverityValues(store.Values()));
    SeverityValuesOfStore(store);
  }

  /** The `by_status` statistics, in the same terms. */
  lemma StatusStatsSpec(store: IncidentStore, byStatus: map<string, nat>)
    requires store.Valid()
    requires byStatus == Tally(StatusValues(store.Values()))
    ensures forall k :: k in byStatus <==>
              exists id :: id in store.incidents && store.incidents[id].status.Value() == k
    ensures forall k :: k in byStatus ==> byStatus[k] >= 1
    ensures var order := FirstOccurrences(StatusValues(store.Values()));
            (forall k :: k in order ==> k in byStatus) && SumOver(byStatus, order) == |store.incidents|
  {
    TallyCounts(StatusValues(store.Values()));
    TallySum(StatusValues(store.Values()));
    StatusValuesOfStore(store);
  }
}
