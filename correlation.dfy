/**
 * The event correlation engine (backend/app/correlation/engine.py): one
 * batch of log events becomes one incident with a scenario tag, a
 * severity, a timeline and the list of affected services.
 */
module Correlation {
  import opened Wrappers
  import opened TextUtil
  import opened SeqUtil
  import opened EventModels
  import opened IncidentModels

  // ---- SEVERITY_MAP -------------------------------------------------------

  /** `SEVERITY_MAP.get(value)`: event severity value to incident severity. */
  function SeverityMapGet(value: string): Option<Severity>
  {
    if value == "critical" then Some(Severity.Critical)
    else if value == "high" then Some(Severity.High)
    else if value == "medium" then Some(Severity.Medium)
    else if value == "low" then Some(Severity.Low)
    else if value == "info" then Some(Severity.Low)
    else None
  }

  /** Every event level is mapped; `info` becomes LOW and every other level
      becomes the incident severity of the same name. */
  lemma SeverityMapSpec()
    ensures forall l: SeverityLevel :: SeverityMapGet(l.Value()).Some?
    ensures SeverityMapGet(SeverityLevel.Info.Value()) == Some(Severity.Low)
    ensures forall l: SeverityLevel :: l != SeverityLevel.Info ==>
              SeverityMapGet(l.Value()).value.Value() == l.Value()
  {
  }

  /** The incident severity an event counts as. */
  function EventSeverity(e: LogEvent): Severity
  {
    match e.severity
    case Critical => Severity.Critical
    case High => Severity.High
    case Medium => Severity.Medium
    case Low => Severity.Low
    case Info => Severity.Low
  }

  lemma EventSeverityIsMapped(e: LogEvent)
    ensures SeverityMapGet(e.severity.Value()) == Some(EventSeverity(e))
  {
  }

  // ---- Scenario detection -------------------------------------------------

  datatype ScenarioPattern = ScenarioPattern(id: string, keywords: seq<string>, title: string)

  datatype Scenario = Scenario(id: string, title: string)

  /** SCENARIO_PATTERNS, in declaration order (the order decides ties). */
  const ScenarioPatterns: seq<ScenarioPattern> := [
    ScenarioPattern("vault_auth_failure",
      ["vault", "sealed", "unreachable", "authenticate with vault"],
      "Vault Authentication Failure — Cascading Service Disruption"),
    ScenarioPattern("database_jwt_missing",
      ["jwt", "signing key", "token validation", "unauthorized"],
      "JWT Signing Key Missing — Authentication Cascade"),
    ScenarioPattern("api_auth_cascade",
      ["tls", "certificate", "expired", "handshake"],
      "TLS Certificate Expiry — API Authentication Cascade")
  ]

  const UnknownScenario := Scenario("unknown", "Correlated Incident — Multiple Service Failures")

  /** The keyword hits a pattern needs to be chosen. */
  const MatchThreshold: nat := 2

  /** The scenario ids correlation can emit. */
  function ScenarioIds(): (ids: seq<string>)
    ensures |ids| == |ScenarioPatterns|
    ensures forall i :: 0 <= i < |ids| ==> ids[i] == ScenarioPatterns[i].id
  {
    ["vault_auth_failure", "database_jwt_missing", "api_auth_cascade"]
  }

  lemma ScenarioIdsDistinct()
    ensures NoDuplicates(ScenarioIds())
    ensures UnknownScenario.id !in ScenarioIds()
  {
  }

  /** `" ".join(e.message.lower() for e in events)`. */
  function AllMessages(events: seq<LogEvent>): string
  {
    Join(" ", seq(|events|, i requires 0 <= i < |events| => Lower(events[i].message)))
  }

  /** `sum(1 for kw in keywords if kw in text)`. */
  function KeywordHits(keywords: seq<string>, text: string): (n: nat)
    ensures n <= |keywords|
    ensures n == 0 <==> forall k :: 0 <= k < |keywords| ==> !Contains(text, keywords[k])
  {
    if keywords == [] then 0
    else KeywordHits(keywords[..|keywords| - 1], text)
         + (if Contains(text, keywords[|keywords| - 1]) then 1 else 0)
  }

  ghost predicate Hit(p: ScenarioPattern, text: string)
  {
    KeywordHits(p.keywords, text) >= MatchThreshold
  }

  /** The loop over the patterns, returning at the first one that reaches
      the threshold. */
  function DetectIn(patterns: seq<ScenarioPattern>, text: string): Scenario
  {
    if patterns == [] then UnknownScenario
    else if KeywordHits(patterns[0].keywords, text) >= MatchThreshold
    then Scenario(patterns[0].id, patterns[0].title)
    else DetectIn(patterns[1..], text)
  }

  /** `detect_scenario(events)`. */
  function DetectScenario(events: seq<LogEvent>): Scenario
  {
    DetectIn(ScenarioPatterns, AllMessages(events))
  }

  /** The first pattern, in order, with at least two hits is chosen. */
  lemma {:induction false} DetectInFirst(patterns: seq<ScenarioPattern>, text: string, i: nat)
    requires i < |patterns| && Hit(patterns[i], text)
    requires forall j :: 0 <= j < i ==> !Hit(patterns[j], text)
    ensures DetectIn(patterns, text) == Scenario(patterns[i].id, patterns[i].title)
  {
    if i > 0 {
      assert !Hit(patterns[0], text);
      assert patterns[1..][i - 1] == patterns[i];
      forall j | 0 <= j < i - 1 ensures !Hit(patterns[1..][j], text) {
        assert patterns[1..][j] == patterns[j + 1];
      }
      DetectInFirst(patterns[1..], text, i - 1);
    }
  }

  /** With no pattern reaching the threshold the scenario is the unknown one. */
  lemma {:induction false} DetectInNone(patterns: seq<ScenarioPattern>, text: string)
    requires forall j :: 0 <= j < |patterns| ==> !Hit(patterns[j], text)
    ensures DetectIn(patterns, text) == UnknownScenario
  {
    if patterns != [] {
      assert !Hit(patterns[0], text);
      forall j | 0 <= j < |patterns| - 1 ensures !Hit(patterns[1..][j], text) {
        assert patterns[1..][j] == patterns[j + 1];
      }
      DetectInNone(patterns[1..], text);
    }
  }

  /** `detect_scenario` in the terms of the source: the result is the first
      pattern with two hits on the joined lower-cased messages, else
      "unknown" with the generic title. */
  lemma DetectScenarioSpec(events: seq<LogEvent>)
    ensures var text := AllMessages(events);
            var sc := DetectScenario(events);
            (sc.id == UnknownScenario.id <==> forall j :: 0 <= j < |ScenarioPatterns| ==> !Hit(ScenarioPatterns[j], text))
            && (sc.id == UnknownScenario.id ==> sc == UnknownScenario)
            && (sc.id != UnknownScenario.id ==>
                  exists i :: 0 <= i < |ScenarioPatterns| && sc == Scenario(ScenarioPatterns[i].id, ScenarioPatterns[i].title)
                              && Hit(ScenarioPatterns[i], text)
                              && forall j :: 0 <= j < i ==> !Hit(ScenarioPatterns[j], text))
  {
    var text := AllMessages(events);
    var ps := ScenarioPatterns;
    ScenarioIdsDistinct();
    if !Hit(ps[0], text) && !Hit(ps[1], text) && !Hit(ps[2], text) {
      DetectInNone(ps, text);
    } else if Hit(ps[0], text) {
      DetectInFirst(ps, text, 0);
    } else if Hit(ps[1], text) {
      DetectInFirst(ps, text, 1);
    } else {
      DetectInFirst(ps, text, 2);
    }
  }

  /** When exactly one pattern reaches the threshold, it is the one chosen. */
  lemma UniqueMatchIsDetected(events: seq<LogEvent>, i: nat)
    requires i < |ScenarioPatterns|
    requires Hit(ScenarioPatterns[i], AllMessages(events))
    requires forall j :: 0 <= j < |ScenarioPatterns| && j != i ==> !Hit(ScenarioPatterns[j], AllMessages(events))
    ensures DetectScenario(events).id == ScenarioPatterns[i].id
  {
    DetectInFirst(ScenarioPatterns, AllMessages(events), i);
  }

  // ---- Severity roll-up ---------------------------------------------------

  /** The rank order critical > high > medium > low. */
  function Rank(s: Severity): nat
  {
    match s
    case Critical => 3
    case High => 2
    case Medium => 1
    case Low => 0
  }

  const SeverityOrder: seq<Severity> := [Severity.Critical, Severity.High, Severity.Medium, Severity.Low]

  /** `any(SEVERITY_MAP.get(e.severity.value) == sev for e in events)`. */
  function AnyMapsTo(events: seq<LogEvent>, sev: Severity): (b: bool)
  {
    if events == [] then false
    else SeverityMapGet(events[0].severity.Value()) == Some(sev) || AnyMapsTo(events[1..], sev)
  }

  lemma {:induction false} AnyMapsToIff(events: seq<LogEvent>, sev: Severity)
    ensures AnyMapsTo(events, sev) <==> exists k :: 0 <= k < |events| && EventSeverity(events[k]) == sev
  {
    if events != [] {
      AnyMapsToIff(events[1..], sev);
      EventSeverityIsMapped(events[0]);
      if exists k :: 0 <= k < |events[1..]| && EventSeverity(events[1..][k]) == sev {
        var k :| 0 <= k < |events[1..]| && EventSeverity(events[1..][k]) == sev;
        assert events[k + 1] == events[1..][k];
      }
      if exists k :: 0 <= k < |events| && EventSeverity(events[k]) == sev {
        var k :| 0 <= k < |events| && EventSeverity(events[k]) == sev;
        if k > 0 { assert events[1..][k - 1] == events[k]; }
      }
    }
  }

  function FirstPresent(order: seq<Severity>, events: seq<LogEvent>): Severity
  {
    if order == [] then Severity.Low
    else if AnyMapsTo(events, order[0]) then order[0]
    else FirstPresent(order[1..], events)
  }

  /** `determine_severity(events)`. */
  function DetermineSeverity(events: seq<LogEvent>): Severity
  {
    FirstPresent(SeverityOrder, events)
  }

  /** The incident takes the highest-ranked severity among its events, and
      LOW when there are none. */
  lemma DetermineSeveritySpec(events: seq<LogEvent>)
    ensures events == [] ==> DetermineSeverity(events) == Severity.Low
    ensures forall k :: 0 <= k < |events| ==> Rank(EventSeverity(events[k])) <= Rank(DetermineSeverity(events))
    ensures events != [] ==> exists k :: 0 <= k < |events| && EventSeverity(events[k]) == DetermineSeverity(events)
  {
    AnyMapsToIff(events, Severity.Critical);
    AnyMapsToIff(events, Severity.High);
    AnyMapsToIff(events, Severity.Medium);
    AnyMapsToIff(events, Severity.Low);
    var o := SeverityOrder;
    assert o[1..] == [Severity.High, Severity.Medium, Severity.Low];
    assert o[1..][1..] == [Severity.Medium, Severity.Low];
    assert o[1..][1..][1..] == [Severity.Low];
    assert o[1..][1..][1..][1..] == [];
    var r := DetermineSeverity(events);
    if !AnyMapsTo(events, Severity.Critical) {
      assert r == FirstPresent(o[1..], events);
      if !AnyMapsTo(events, Severity.High) {
        assert r == FirstPresent(o[1..][1..], events);
        if !AnyMapsTo(events, Severity.Medium) {
          assert r == FirstPresent(o[1..][1..][1..], events);
          assert r == Severity.Low;
          if events != [] {
            assert EventSeverity(events[0]) == Severity.Low;
          }
        }
      }
    }
  }

  // ---- Timeline -----------------------------------------------------------

  function EventTime(e: LogEvent): int
  {
    e.timestamp
  }

  function EntryTime(t: TimelineEntry): int
  {
    t.timestamp
  }

  /** The timeline entry of one event: its time, service, message and
      severity value. */
  function ToEntry(e: LogEvent): (t: TimelineEntry)
    ensures t.timestamp == e.timestamp && t.sourceService == e.sourceService
    ensures t.event == e.message && t.severity == e.severity.Value()
  {
    TimelineEntry(e.timestamp, e.sourceService, e.message, e.severity.Value())
  }

  function ToEntries(events: seq<LogEvent>): (ts: seq<TimelineEntry>)
    ensures |ts| == |events|
    ensures forall i :: 0 <= i < |events| ==> ts[i] == ToEntry(events[i])
  {
    seq(|events|, i requires 0 <= i < |events| => ToEntry(events[i]))
  }

  /** `build_timeline(events)`: the entries of the events sorted by time. */
  function BuildTimeline(events: seq<LogEvent>): seq<TimelineEntry>
  {
    ToEntries(SortByKey(events, EventTime))
  }

  lemma {:induction false} ToEntriesWithKey(events: seq<LogEvent>, k: int)
    ensures WithKey(ToEntries(events), EntryTime, k) == ToEntries(WithKey(events, EventTime, k))
  {
    if events != [] {
      var p := events[..|events| - 1];
      ToEntriesWithKey(p, k);
      assert ToEntries(events)[..|events| - 1] == ToEntries(p);
    }
  }

  lemma ToEntriesSnoc(s: seq<LogEvent>, y: LogEvent)
    ensures ToEntries(s + [y]) == ToEntries(s) + [ToEntry(y)]
  {
  }

  lemma {:induction false} ToEntriesInsert(r: seq<LogEvent>, x: LogEvent)
    ensures multiset(ToEntries(InsertByKey(r, x, EventTime)))
            == multiset(ToEntries(r)) + multiset{ToEntry(x)}
  {
    if r == [] {
    } else if EventTime(r[|r| - 1]) <= EventTime(x) {
      ToEntriesSnoc(r, x);
    } else {
      var r' := r[..|r| - 1];
      var last := r[|r| - 1];
      assert r == r' + [last];
      ToEntriesInsert(r', x);
      ToEntriesSnoc(InsertByKey(r', x, EventTime), last);
      ToEntriesSnoc(r', last);
    }
  }

  /** Sorting permutes the events, so it permutes their entries. */
  lemma {:induction false} ToEntriesSort(s: seq<LogEvent>)
    ensures multiset(ToEntries(SortByKey(s, EventTime))) == multiset(ToEntries(s))
  {
    if s != [] {
      var p := s[..|s| - 1];
      assert s == p + [s[|s| - 1]];
      ToEntriesSort(p);
      ToEntriesInsert(SortByKey(p, EventTime), s[|s| - 1]);
      ToEntriesSnoc(p, s[|s| - 1]);
    }
  }

  /** The timeline has one entry per event, ascending by time; its entries
      are exactly the events' entries; events with equal timestamps keep
      their input order (the sort is stable). */
  lemma BuildTimelineSpec(events: seq<LogEvent>)
    ensures |BuildTimeline(events)| == |events|
    ensures forall i, j :: 0 <= i < j < |events| ==>
              BuildTimeline(events)[i].timestamp <= BuildTimeline(events)[j].timestamp
    ensures multiset(BuildTimeline(events)) == multiset(ToEntries(events))
    ensures forall k :: WithKey(BuildTimeline(events), EntryTime, k) == ToEntries(WithKey(events, EventTime, k))
  {
    var sorted := SortByKey(events, EventTime);
    SortByKeySpec(events, EventTime);
    ToEntriesSort(events);
    forall k ensures WithKey(BuildTimeline(events), EntryTime, k) == ToEntries(WithKey(events, EventTime, k)) {
      ToEntriesWithKey(sorted, k);
    }
    forall i, j | 0 <= i < j < |events|
      ensures BuildTimeline(events)[i].timestamp <= BuildTimeline(events)[j].timestamp
    {
      assert EventTime(sorted[i]) <= EventTime(sorted[j]);
    }
  }

  // ---- Affected services --------------------------------------------------

  function SourceServices(events: seq<LogEvent>): (ss: seq<string>)
    ensures |ss| == |events|
    ensures forall i :: 0 <= i < |events| ==> ss[i] == events[i].sourceService
  {
    seq(|events|, i requires 0 <= i < |events| => events[i].sourceService)
  }

  /** The affected services of a batch: each source service once, in the
      order in which it first appears after sorting the events by time. */
  function AffectedServices(events: seq<LogEvent>): seq<string>
  {
    FirstOccurrences(SourceServices(SortByKey(events, EventTime)))
  }

  /** Every source service of the batch appears exactly once, and nothing
      else does; services are ordered by their first appearance in the
      time-sorted events. */
  lemma AffectedServicesSpec(events: seq<LogEvent>)
    ensures NoDuplicates(AffectedServices(events))
    ensures forall s :: s in AffectedServices(events) <==> exists k :: 0 <= k < |events| && events[k].sourceService == s
    ensures forall i, j :: 0 <= i < j < |AffectedServices(events)| ==>
              IndexOf(SourceServices(SortByKey(events, EventTime)), AffectedServices(events)[i])
              < IndexOf(SourceServices(SortByKey(events, EventTime)), AffectedServices(events)[j])
  {
    FirstOccurrencesSpec(SourceServices(SortByKey(events, EventTime)));
    AffectedServicesMembers(events);
  }

  /** The affected services are exactly the batch's source services. */
  lemma AffectedServicesMembers(events: seq<LogEvent>)
    ensures forall s :: s in AffectedServices(events) <==> exists k :: 0 <= k < |events| && events[k].sourceService == s
  {
    var sorted := SortByKey(events, EventTime);
    var all := SourceServices(sorted);
    SortByKeySpec(events, EventTime);
    forall s ensures s in AffectedServices(events) <==> exists k :: 0 <= k < |events| && events[k].sourceService == s {
      if s in AffectedServices(events) {
        var m := IndexOf(all, s);
        assert sorted[m] in multiset(events);
        var k :| 0 <= k < |events| && events[k] == sorted[m];
      }
      if exists k :: 0 <= k < |events| && events[k].sourceService == s {
        var k :| 0 <= k < |events| && events[k].sourceService == s;
        assert events[k] in multiset(sorted);
        var m :| 0 <= m < |sorted| && sorted[m] == events[k];
        assert all[m] == s;
      }
    }
  }

  /** `extract_affected_services(events)`: the loop that walks the sorted
      events with a `seen` set and appends each new service. */
  method ExtractAffectedServices(events: seq<LogEvent>) returns (services: seq<string>)
    ensures services == AffectedServices(events)
    ensures NoDuplicates(services)
    ensures forall s :: s in services <==> exists k :: 0 <= k < |events| && events[k].sourceService == s
  {
    var sorted := SortByKey(events, EventTime);
    ghost var all := SourceServices(sorted);
    var seen: set<string> := {};
    services := [];
    var i := 0;
    while i < |sorted|
      invariant 0 <= i <= |sorted|
      invariant services == FirstOccurrences(all[..i])
      invariant forall x :: x in seen <==> x in services
    {
      var s := sorted[i].sourceService;
      FirstOccurrencesPrefix(all, i);
      if s !in seen {
        seen := seen + {s};
        services := services + [s];
      }
      i := i + 1;
    }
    assert all[..i] == all;
    AffectedServicesMembers(events);
  }

  // ---- Correlation --------------------------------------------------------

  function EventIds(events: seq<LogEvent>): (ids: seq<string>)
    ensures |ids| == |events|
    ensures forall i :: 0 <= i < |events| ==> ids[i] == events[i].id
  {
    seq(|events|, i requires 0 <= i < |events| => events[i].id)
  }

  /**
   * `correlate_events(events)`: a new DETECTED incident (fresh id, created
   * at `now` and updated at the clock's next reading `later`) whose title and scenario come from `detect_scenario`, whose
   * severity is the highest among the events, whose timeline is sorted by
   * time, whose event ids are in input order and whose affected services
   * are de-duplicated in first-seen order.
   */
  method CorrelateEvents(events: seq<LogEvent>, freshId: string, now: int, later: int) returns (incident: Incident)
    ensures incident.id == freshId && incident.createdAt == now && incident.updatedAt == later
    ensures incident.status == Detected
    ensures incident.rootCauseAnalysis == None
    ensures incident.title == DetectScenario(events).title
    ensures incident.scenarioType == DetectScenario(events).id
    ensures incident.severity == DetermineSeverity(events)
    ensures incident.eventIds == EventIds(events)
    ensures incident.timeline == BuildTimeline(events)
    ensures incident.affectedServices == AffectedServices(events)
  {
    var scenario := DetectScenario(events);
    var severity := DetermineSeverity(events);
    var timeline := BuildTimeline(events);
    var affected := ExtractAffectedServices(events);
    incident := NewIncident(freshId, scenario.title, severity, now, later).(
      eventIds := EventIds(events),
      timeline := timeline,
      affectedServices := affected,
      scenarioType := scenario.id);
  }
}
