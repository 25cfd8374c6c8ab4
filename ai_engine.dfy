/**
 * The deterministic fallback of the reasoning engine
 * (backend/app/reasoning/ai_engine.py): canned root-cause analyses for the
 * three known scenarios, a generic analysis for any other, and the canned
 * immediate actions. The language-model call itself is an oracle answer.
 */
module AiEngine {
  import opened Wrappers
  import opened IncidentModels
  import Correlation

  /** One entry of MOCK_RESPONSES. The keys read with `mock.get(...)` may be
      absent (`None`). */
  datatype MockResponse = MockResponse(
    rootCause: string,
    summary: string,
    reasoningChain: seq<string>,
    confidenceScore: real,
    affectedServices: seq<string>,
    impactDescription: Option<string>,
    recommendedImmediateActions: Option<seq<string>>)

  /** The places in a canned analysis that hold prose: reasoning steps and
      immediate actions are numbered from 1. */
  datatype ProseField = RootCause | Summary | Step(n: nat) | Impact | ImmediateAction(n: nat)

  /** The sentences of the canned analyses, by scenario and place. */
  type Prose = (string, ProseField) -> string

  /** A canned analysis: five reasoning steps, an impact description and
      five immediate actions, with the given confidence and services. */
  function Canned(key: string, confidence: real, services: seq<string>, prose: Prose): (m: MockResponse)
    ensures m.confidenceScore == confidence && m.affectedServices == services
    ensures m.rootCause == prose(key, RootCause) && m.summary == prose(key, Summary)
    ensures |m.reasoningChain| == 5
    ensures forall i :: 0 <= i < 5 ==> m.reasoningChain[i] == prose(key, Step(i + 1))
    ensures m.impactDescription == Some(prose(key, Impact))
    ensures m.recommendedImmediateActions.Some? && |m.recommendedImmediateActions.value| == 5
    ensures forall i :: 0 <= i < 5 ==>
              m.recommendedImmediateActions.value[i] == prose(key, ImmediateAction(i + 1))
  {
    MockResponse(
      prose(key, RootCause),
      prose(key, Summary),
      [prose(key, Step(1)), prose(key, Step(2)), prose(key, Step(3)),
       prose(key, Step(4)), prose(key, Step(5))],
      confidence,
      services,
      Some(prose(key, Impact)),
      Some([prose(key, ImmediateAction(1)), prose(key, ImmediateAction(2)),
            prose(key, ImmediateAction(3)), prose(key, ImmediateAction(4)),
            prose(key, ImmediateAction(5))]))
  }

  /** MOCK_RESPONSES: the three canned analyses with their confidences and
      affected services. */
  function MockResponses(prose: Prose): map<string, MockResponse>
  {
    map[
      "vault_auth_failure" :=
        Canned("vault_auth_failure", 0.95, ["vault", "eso", "database", "auth_service", "api_gateway"], prose),
      "database_jwt_missing" :=
        Canned("database_jwt_missing", 0.92, ["vault", "auth_service", "user_service", "api_gateway"], prose),
      "api_auth_cascade" :=
        Canned("api_auth_cascade", 0.93, ["cert_manager", "api_gateway", "auth_service", "user_service"], prose)
    ]
  }

  /** The fallback analysis of `_build_mock_rca`, before it takes the
      incident's affected services. */
  const GenericTemplate := MockResponse(
    "Unable to determine root cause — insufficient event data or unknown scenario",
    "Multiple service failures detected across the infrastructure. Manual investigation recommended.",
    ["1. Multiple error events detected across services",
     "2. Event correlation suggests a cascading failure pattern",
     "3. Root cause could not be automatically determined"],
    0.3,
    [],
    Some("Service degradation detected. Impact scope unknown."),
    None)

  /** The analysis `_build_mock_rca` falls back to for a scenario without a
      canned one; it keeps the incident's affected services. */
  function GenericMock(affectedServices: seq<string>): (m: MockResponse)
    ensures m.affectedServices == affectedServices
    ensures m.confidenceScore == 0.3 && |m.reasoningChain| == 3
    ensures m.impactDescription.Some? && m.recommendedImmediateActions == None
  {
    GenericTemplate.(affectedServices := affectedServices)
  }

  /** The analysis built from a table entry. */
  function RcaOf(mock: MockResponse): (r: RootCauseAnalysis)
    ensures r.summary == mock.summary && r.reasoningChain == mock.reasoningChain
    ensures r.rootCause == mock.rootCause && r.confidenceScore == mock.confidenceScore
    ensures r.affectedServices == mock.affectedServices
    ensures r.impactDescription == mock.impactDescription.GetOr("")
  {
    RootCauseAnalysis(mock.summary, mock.reasoningChain, mock.rootCause, mock.confidenceScore,
                      mock.affectedServices, mock.impactDescription.GetOr(""))
  }

  /** `_build_mock_rca(incident)`. */
  function BuildMockRca(incident: Incident, prose: Prose): RootCauseAnalysis
  {
    var table := MockResponses(prose);
    if incident.scenarioType in table then RcaOf(table[incident.scenarioType])
    else RcaOf(GenericMock(incident.affectedServices))
  }

  /** What the language-model path yields: an analysis, or an exception. */
  datatype GroqAnswer = GroqAnalysis(rca: RootCauseAnalysis) | GroqFailed

  /** `analyze_incident(incident)`: the model's analysis when an API key is
      configured and the call succeeds, otherwise the mock. */
  function AnalyzeIncident(incident: Incident, apiKey: string, groq: GroqAnswer, prose: Prose): (r: RootCauseAnalysis)
    ensures apiKey == "" ==> r == BuildMockRca(incident, prose)
    ensures groq.GroqFailed? ==> r == BuildMockRca(incident, prose)
    ensures apiKey != "" && groq.GroqAnalysis? ==> r == groq.rca
  {
    if apiKey != "" && groq.GroqAnalysis? then groq.rca else BuildMockRca(incident, prose)
  }

  /** Positional arguments `_analyze_with_groq` passes to
      `build_incident_prompt`, and the most that function accepts. */
  const PromptArgumentsPassed := 5
  const PromptParametersAccepted := 3

  /** The live path as written: the prompt is built before the client is
      called, and a call with too many positional arguments raises
      `TypeError`, so no answer of the model gets through. */
  function LivePathAsWritten(groq: GroqAnswer): (a: GroqAnswer)
    ensures a.GroqFailed?
  {
    if PromptArgumentsPassed > PromptParametersAccepted then GroqFailed else groq
  }

  /** `analyze_incident` as written: the live path always raises, the
      `except` falls back, and the result is the mock whatever the key. */
  function AnalyzeIncidentAsWritten(incident: Incident, apiKey: string, groq: GroqAnswer, prose: Prose): (r: RootCauseAnalysis)
    ensures r == BuildMockRca(incident, prose)
  {
    AnalyzeIncident(incident, apiKey, LivePathAsWritten(groq), prose)
  }

  /** With a key set and a model answer that differs from the mock, the
      code as written returns the mock, not the answer `AnalyzeIncident`
      gives. */
  lemma AsWrittenIgnoresModel(incident: Incident, apiKey: string, rca: RootCauseAnalysis, prose: Prose)
    requires apiKey != "" && rca != BuildMockRca(incident, prose)
    ensures AnalyzeIncident(incident, apiKey, GroqAnalysis(rca), prose) == rca
    ensures AnalyzeIncidentAsWritten(incident, apiKey, GroqAnalysis(rca), prose) != rca
  {
  }

  const FallbackActions: seq<string> := [
    "Investigate affected services manually",
    "Check service logs for additional error details",
    "Escalate to on-call engineer"
  ]

  /** `get_mock_actions(scenario_type)`. */
  function GetMockActions(scenarioType: string, prose: Prose): seq<string>
  {
    var table := MockResponses(prose);
    if scenarioType in table && table[scenarioType].recommendedImmediateActions.Some?
    then table[scenarioType].recommendedImmediateActions.value
    else FallbackActions
  }

  // ---- Properties of the table ---------------------------------------------

  /** A canned analysis has five reasoning steps, a confidence within
      [0, 1], an impact description and five immediate actions. */
  ghost predicate WellShaped(m: MockResponse)
  {
    |m.reasoningChain| == 5 && 0.0 <= m.confidenceScore <= 1.0
    && m.impactDescription.Some?
    && m.recommendedImmediateActions.Some? && |m.recommendedImmediateActions.value| == 5
  }

  /** MOCK_RESPONSES is keyed by exactly the scenario ids correlation emits
      other than "unknown", every entry is well shaped, and each entry's
      prose is its own scenario's. */
  lemma MockResponsesSpec(prose: Prose)
    ensures forall id :: id in Correlation.ScenarioIds() <==> id in MockResponses(prose)
    ensures Correlation.UnknownScenario.id !in MockResponses(prose)
    ensures forall k :: k in MockResponses(prose) ==> WellShaped(MockResponses(prose)[k])
    ensures forall k :: k in MockResponses(prose) ==> MockResponses(prose)[k].rootCause == prose(k, RootCause)
  {
  }

  /** For a known scenario every field of the analysis is the table's; for
      any other the analysis keeps the incident's affected services, has
      three reasoning steps and confidence 0.3. */
  lemma BuildMockRcaSpec(incident: Incident, prose: Prose)
    ensures incident.scenarioType in MockResponses(prose) ==>
              BuildMockRca(incident, prose) == RcaOf(MockResponses(prose)[incident.scenarioType])
              && |BuildMockRca(incident, prose).reasoningChain| == 5
              && 0.0 <= BuildMockRca(incident, prose).confidenceScore <= 1.0
              && BuildMockRca(incident, prose).impactDescription == prose(incident.scenarioType, Impact)
    ensures incident.scenarioType !in MockResponses(prose) ==>
              BuildMockRca(incident, prose) == RcaOf(GenericMock(incident.affectedServices))
              && BuildMockRca(incident, prose).affectedServices == incident.affectedServices
              && BuildMockRca(incident, prose).confidenceScore == 0.3
              && |BuildMockRca(incident, prose).reasoningChain| == 3
  {
    MockResponsesSpec(prose);
  }

  /** A known scenario's five immediate actions, or the three fixed ones. */
  lemma GetMockActionsSpec(scenarioType: string, prose: Prose)
    ensures scenarioType in MockResponses(prose) ==>
              GetMockActions(scenarioType, prose) == MockResponses(prose)[scenarioType].recommendedImmediateActions.value
              && |GetMockActions(scenarioType, prose)| == 5
              && forall i :: 0 <= i < 5 ==>
                   GetMockActions(scenarioType, prose)[i] == prose(scenarioType, ImmediateAction(i + 1))
    ensures scenarioType !in MockResponses(prose) ==> GetMockActions(scenarioType, prose) == FallbackActions
    ensures |FallbackActions| == 3
  {
    MockResponsesSpec(prose);
  }
}
