/** Log events and alerts (backend/app/models/events.py). */
module EventModels {
  import opened Wrappers
  import opened Json

  /** The severity an ingested log event carries. */
  datatype SeverityLevel = Critical | High | Medium | Low | Info {

    /** The enum's string value. */
    function Value(): string
    {
      match this
      case Critical => "critical"
      case High => "high"
      case Medium => "medium"
      case Low => "low"
      case Info => "info"
    }
  }

  const AllSeverityLevels: seq<SeverityLevel> := [Critical, High, Medium, Low, Info]

  /** `SeverityLevel(value)`: the member with that value, or `None` where
      Python raises `ValueError`. */
  function ParseSeverityLevel(value: string): (r: Option<SeverityLevel>)
    ensures r.Some? ==> r.value.Value() == value
  {
    if value == "critical" then Some(Critical)
    else if value == "high" then Some(High)
    else if value == "medium" then Some(Medium)
    else if value == "low" then Some(Low)
    else if value == "info" then Some(Info)
    else None
  }

  /** The enum has exactly five members, with five distinct values, and
      parsing a member's value gives the member back. */
  lemma SeverityLevelMembers()
    ensures |AllSeverityLevels| == 5
    ensures forall s: SeverityLevel :: s in AllSeverityLevels
    ensures forall i, j :: 0 <= i < j < 5 ==>
              AllSeverityLevels[i].Value() != AllSeverityLevels[j].Value()
    ensures forall s: SeverityLevel :: ParseSeverityLevel(s.Value()) == Some(s)
  {
    forall s: SeverityLevel ensures s in AllSeverityLevels {
      match s
      case Critical => assert AllSeverityLevels[0] == s;
      case High => assert AllSeverityLevels[1] == s;
      case Medium => assert AllSeverityLevels[2] == s;
      case Low => assert AllSeverityLevels[3] == s;
      case Info => assert AllSeverityLevels[4] == s;
    }
  }

  /** The request body of `POST /api/ingest`. */
  datatype LogEventCreate = LogEventCreate(
    sourceService: string,
    severity: SeverityLevel,
    message: string,
    metadata: map<string, Json>,
    timestamp: Option<int>)

  /** A `LogEventCreate` given only its required fields. */
  function NewLogEventCreate(sourceService: string, message: string): (e: LogEventCreate)
    ensures e.sourceService == sourceService && e.message == message
    ensures e.severity == Info
    ensures e.metadata == map[]
    ensures e.timestamp == None
  {
    LogEventCreate(sourceService, Info, message, map[], None)
  }

  /** A stored log event. Timestamps are integers supplied by the caller. */
  datatype LogEvent = LogEvent(
    id: string,
    sourceService: string,
    severity: SeverityLevel,
    message: string,
    metadata: map<string, Json>,
    timestamp: int,
    ingestedAt: int)

  /** A `LogEvent` given its required fields: the id is a fresh uuid, and
      `timestamp` and `ingested_at` each read the clock on their own, in
      field order, giving `now` and then `later`. */
  function NewLogEvent(freshId: string, sourceService: string, severity: SeverityLevel,
                       message: string, now: int, later: int): (e: LogEvent)
    ensures e.id == freshId
    ensures e.sourceService == sourceService && e.severity == severity && e.message == message
    ensures e.metadata == map[]
    ensures e.timestamp == now && e.ingestedAt == later
  {
    LogEvent(freshId, sourceService, severity, message, map[], now, later)
  }

  /** An alert derived from log events. */
  datatype Alert = Alert(
    id: string,
    alertType: string,
    sourceService: string,
    severity: SeverityLevel,
    message: string,
    triggeredByEvents: seq<string>,
    timestamp: int)

  /** An `Alert` given its required fields: no triggering events yet. */
  function NewAlert(freshId: string, alertType: string, sourceService: string,
                    severity: SeverityLevel, message: string, now: int): (a: Alert)
    ensures a.id == freshId && a.alertType == alertType && a.sourceService == sourceService
    ensures a.severity == severity && a.message == message
    ensures a.triggeredByEvents == []
    ensures a.timestamp == now
  {
    Alert(freshId, alertType, sourceService, severity, message, [], now)
  }
}
