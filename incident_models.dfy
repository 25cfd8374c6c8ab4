/** Incidents and root-cause analyses (backend/app/models/incidents.py). */
module IncidentModels {
  import opened Wrappers

  /** Incident severity: the event levels without `info`. */
  datatype Severity = Critical | High | Medium | Low {

    function Value(): string
    {
      match this
      case Critical => "critical"
      case High => "high"
      case Medium => "medium"
      case Low => "low"
    }
  }

  const AllSeverities: seq<Severity> := [Critical, High, Medium, Low]

  /** `Severity(value)`, or `None` where Python raises `ValueError`. */
  function ParseSeverity(value: string): (r: Option<Severity>)
    ensures r.Some? ==> r.value.Value() == value
  {
    if value == "critical" then Some(Critical)
    else if value == "high" then Some(High)
    else if value == "medium" then Some(Medium)
    else if value == "low" then Some(Low)
    else None
  }

  /** Four members, four distinct values, and no member named `info`. */
  lemma SeverityMembers()
    ensures |AllSeverities| == 4
    ensures forall s: Severity :: s in AllSeverities
    ensures forall i, j :: 0 <= i < j < 4 ==> AllSeverities[i].Value() != AllSeverities[j].Value()
    ensures forall s: Severity :: ParseSeverity(s.Value()) == Some(s)
    ensures ParseSeverity("info") == None
  {
    forall s: Severity ensures s in AllSeverities {
      match s
      case Critical => assert AllSeverities[0] == s;
      case High => assert AllSeverities[1] == s;
      case Medium => assert AllSeverities[2] == s;
      case Low => assert AllSeverities[3] == s;
    }
  }

  /** The lifecycle of an incident, from detection to resolution. */
  datatype IncidentStatus = Detected | Analyzing | Analyzed | ActionsPending | Resolved {

    function Value(): string
    {
      match this
      case Detected => "detected"
      case Analyzing => "analyzing"
      case Analyzed => "analyzed"
      case ActionsPending => "actions_pending"
      case Resolved => "resolved"
    }
  }

  const AllIncidentStatuses: seq<IncidentStatus> :=
    [Detected, Analyzing, Analyzed, ActionsPending, Resolved]

  lemma IncidentStatusMembers()
    ensures |AllIncidentStatuses| == 5
    ensures forall s: IncidentStatus :: s in AllIncidentStatuses
    ensures forall i, j :: 0 <= i < j < 5 ==>
              AllIncidentStatuses[i].Value() != AllIncidentStatuses[j].Value()
    ensures AllIncidentStatuses[0] == Detected && AllIncidentStatuses[4] == Resolved
  {
    forall s: IncidentStatus ensures s in AllIncidentStatuses {
      match s
      case Detected => assert AllIncidentStatuses[0] == s;
      case Analyzing => assert AllIncidentStatuses[1] == s;
      case Analyzed => assert AllIncidentStatuses[2] == s;
      case ActionsPending => assert AllIncidentStatuses[3] == s;
      case Resolved => assert AllIncidentStatuses[4] == s;
    }
  }

  /** One entry of an incident's timeline; `severity` is the event's
      severity value as a string. */
  datatype TimelineEntry = TimelineEntry(
    timestamp: int,
    sourceService: string,
    event: string,
    severity: string)

  datatype RootCauseAnalysis = RootCauseAnalysis(
    summary: string,
    reasoningChain: seq<string>,
    rootCause: string,
    confidenceScore: real,
    affectedServices: seq<string>,
    impactDescription: string)

  /** `RootCauseAnalysis()` with every field defaulted. */
  function DefaultRootCauseAnalysis(): (r: RootCauseAnalysis)
    ensures r.summary == "" && r.rootCause == "" && r.impactDescription == ""
    ensures r.reasoningChain == [] && r.affectedServices == []
    ensures r.confidenceScore == 0.0
  {
    RootCauseAnalysis("", [], "", 0.0, [], "")
  }

  datatype Incident = Incident(
    id: string,
    title: string,
    severity: Severity,
    status: IncidentStatus,
    createdAt: int,
    updatedAt: int,
    eventIds: seq<string>,
    timeline: seq<TimelineEntry>,
    rootCauseAnalysis: Option<RootCauseAnalysis>,
    affectedServices: seq<string>,
    scenarioType: string)

  /** An `Incident` given only its required fields: a fresh id, DETECTED,
      with no analysis and empty collections. `created_at` and `updated_at`
      each read the clock on their own, in field order, giving `now` and
      then `later`. */
  function NewIncident(freshId: string, title: string, severity: Severity, now: int, later: int): (i: Incident)
    ensures i.id == freshId && i.title == title && i.severity == severity
    ensures i.status == Detected
    ensures i.createdAt == now && i.updatedAt == later
    ensures i.eventIds == [] && i.timeline == [] && i.affectedServices == []
    ensures i.rootCauseAnalysis == None
    ensures i.scenarioType == ""
  {
    Incident(freshId, title, severity, Detected, now, later, [], [], None, [], "")
  }
}
