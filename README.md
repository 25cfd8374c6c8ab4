# DevSick core, modelled in Dafny

DevSick is an incident-response backend. Log events from services are
correlated into an incident. The incident gets a scenario from keyword
patterns, a severity, a timeline and the list of affected services. A
reasoning engine attaches a root-cause analysis to it. The engine is meant to
query a language model when an API key is set and fall back to canned
analyses otherwise; as written, the live path always raises before the model
is called, so the canned analysis is what comes back (see "## Findings"). A recommendation engine turns
the scenario's playbook into remediation actions awaiting approval, and an
approval manager moves those actions through PENDING, APPROVED, REJECTED and
ROLLED_BACK. A governance executor validates each remediation command and
writes it to a hash-sealed audit log. It runs the command only when it is
not in dry-run mode. A safety wrapper demands a justification, and it runs a
call live only when the call carries the approval secret. On top of it, the
Surgeon maps a free-text action description to one executor call. A service
dependency graph answers upstream, downstream, impact-path and
shortest-chain queries. The incident routes keep the in-memory incident
store and its statistics.

One Dafny module stands for each core source file:

- `EventModels`, `IncidentModels` and `ActionModels`: the records and
  enumerations with their defaults.
- `Correlation`: the correlation engine.
- `DependencyGraphs`: the service graph, as a class over maps and sequences
  whose two searches are `while` loops with invariants.
- `Recommendations`: the playbook table and the action-building loop.
- `Approval`: the approval manager, as a class.
- `Executors` and `Sandbox`: the executor and its safety wrapper, as classes
  whose audit log is a sequence field.
- `Surgeons`: the Surgeon.
- `AiEngine`: the reasoning engine's deterministic part.
- `IncidentRoutes`: the incident store, as a class.

Shared helpers live in `TextUtil`, `SeqUtil`, `Json` and `Wrappers`.
`TextUtil` covers Python's `lower`, `strip`, `split`, `in` on strings and
`str` of integers. `SeqUtil` covers order-keeping de-duplication, filtering
and a stable sort by an integer key.

Two points about what the code does and does not do:

- The frontend offers an auto-pilot toggle that posts to
  `/api/governance/toggle` (frontend/src/api/client.js:38-39). No router
  registered in backend/app/main.py:28-32 handles that path, and
  `ApprovalManager` has no auto-approval. Every action therefore stays
  PENDING until a caller approves or rejects it.
- Python dicts keep insertion order, and that order is visible in
  `get_all`, `to_dict` and the listings. The model therefore keeps each
  mutable store's key order as an `order` sequence beside its map.

## Model

| member | source | states |
|---|---|---|
| EventModels.ParseSeverityLevel | backend/app/models/events.py:9-14 | a parsed level has exactly the given value string |
| EventModels.SeverityLevelMembers | backend/app/models/events.py:9-14 | there are five levels with pairwise distinct values, and parsing each level's value gives that level back |
| EventModels.NewLogEventCreate | backend/app/models/events.py:17-23 | the event keeps service and message; severity defaults to INFO, metadata to empty, timestamp to none |
| EventModels.NewLogEvent | backend/app/models/events.py:26-34 | the event gets the fresh id, the given fields and empty metadata; its timestamp and ingestion time are two separate clock readings, in field order |
| EventModels.NewAlert | backend/app/models/events.py:40-48 | the alert gets the fresh id, the given fields, no triggering events and the current time |
| IncidentModels.ParseSeverity | backend/app/models/incidents.py:9-13 | a parsed severity has exactly the given value string |
| IncidentModels.SeverityMembers | backend/app/models/incidents.py:9-13 | there are four severities with distinct values, each parses back, and "info" is not an incident severity |
| IncidentModels.IncidentStatusMembers | backend/app/models/incidents.py:16-21 | there are five statuses with distinct values, from DETECTED first to RESOLVED last |
| IncidentModels.DefaultRootCauseAnalysis | backend/app/models/incidents.py:32-39 | every text of an analysis defaults to empty, every list to empty, and the confidence to 0.0 |
| IncidentModels.NewIncident | backend/app/models/incidents.py:42-54 | a new incident is DETECTED, has no events, timeline, services, analysis or scenario; its creation and update times are two separate clock readings, in field order |
| ActionModels.ApprovalStatusMembers | backend/app/models/actions.py:9-13 | there are four approval statuses with distinct values |
| ActionModels.RiskLevelMembers | backend/app/models/actions.py:16-20 | there are four risk levels with distinct values |
| ActionModels.NewRemediationAction | backend/app/models/actions.py:23-35 | an action is PENDING and unapproved; a missing hint or rollback text is empty and a missing risk is MEDIUM |
| TextUtil.Lower | backend/app/correlation/engine.py:45 | lower-casing keeps the length and maps each character by itself, changing only A-Z |
| TextUtil.ContainsIff | backend/app/correlation/engine.py:48 | substring containment holds exactly when the pattern occurs at some position |
| TextUtil.StripBounds | backend/app/governance/sandbox.py:22 | the stripped text is the slice between the leading and the trailing whitespace run, and its first and last characters are not whitespace |
| TextUtil.StripSpec | backend/app/governance/sandbox.py:22 | the stripped text is a contiguous slice of the input with no whitespace at either end, and everything around it is whitespace |
| TextUtil.StripEmptyIff | backend/app/governance/executor.py:38 | the stripped text is empty exactly when the input is all whitespace |
| TextUtil.Words | backend/app/reasoning/surgeon.py:23 | `split()` yields non-empty tokens that contain no whitespace |
| TextUtil.WordsSpec | backend/app/reasoning/surgeon.py:23 | `split()` yields the maximal non-whitespace runs of the text, left to right: joined together they are the text without its whitespace, and each token is a slice of the text bounded by whitespace or by its ends, after the previous token's slice |
| TextUtil.WordsEmptyIff | backend/app/reasoning/surgeon.py:23 | `split()` is empty exactly when the text is all whitespace |
| TextUtil.IntToString | backend/app/governance/executor.py:172 | `str` of a non-negative integer is its decimal digits, with no leading zero except for 0 itself, whose decimal value is the integer; a negative integer gives a minus sign followed by the digits of its absolute value |
| SeqUtil.FirstOccurrencesSpec | backend/app/correlation/engine.py:80-85 | de-duplication lists each element once, exactly the elements of the input, in order of first occurrence |
| SeqUtil.NoDuplicatesCard | backend/app/governance/approval.py:68-70 | a duplicate-free key list that covers a map has the map's size |
| SeqUtil.FilterComplete | backend/app/knowledge/dependency_graph.py:106-108 | filtering keeps every element that satisfies the predicate |
| SeqUtil.Count | backend/app/routes/incidents.py:71-72 | an element's count is at most the length, and positive exactly when the element occurs |
| SeqUtil.SortByKeySpec | backend/app/correlation/engine.py:66 | the stable sort keeps the length and the multiset, orders by key, and keeps the order within each key |
| Correlation.SeverityMapSpec | backend/app/correlation/engine.py:18-24 | every event level maps to an incident severity; INFO maps to LOW and every other level to the same-named severity |
| Correlation.EventSeverityIsMapped | backend/app/correlation/engine.py:58 | an event's incident severity is the table's entry for its level |
| Correlation.ScenarioIds | backend/app/correlation/engine.py:27-40 | the scenario ids, in table order |
| Correlation.ScenarioIdsDistinct | backend/app/correlation/engine.py:27-40 | the three scenario ids are distinct, and none is "unknown" |
| Correlation.KeywordHits | backend/app/correlation/engine.py:48 | the hit count is at most the number of keywords, and zero exactly when no keyword occurs in the text |
| Correlation.DetectInFirst | backend/app/correlation/engine.py:47-50 | the first pattern in table order with at least two keyword hits wins |
| Correlation.DetectInNone | backend/app/correlation/engine.py:47-52 | with no pattern reaching two hits, the result is "unknown" |
| Correlation.DetectScenarioSpec | backend/app/correlation/engine.py:43-52 | the same, over the lower-cased space-joined messages of all events |
| Correlation.UniqueMatchIsDetected | backend/app/correlation/engine.py:43-52 | when exactly one pattern reaches the threshold, that scenario is detected |
| Correlation.AnyMapsToIff | backend/app/correlation/engine.py:58-60 | a severity is present exactly when some event maps to it |
| Correlation.DetermineSeveritySpec | backend/app/correlation/engine.py:55-61 | no events gives LOW; otherwise the result is the highest severity any event maps to |
| Correlation.ToEntry | backend/app/correlation/engine.py:67-74 | a timeline entry keeps the event's timestamp, service, message and level value; `BuildTimelineSpec` builds on it |
| Correlation.ToEntries | backend/app/correlation/engine.py:67-74 | one entry per event, in order |
| Correlation.BuildTimelineSpec | backend/app/correlation/engine.py:64-75 | the timeline has one entry per event, ordered by timestamp, holds exactly the events' entries, and keeps event order among equal timestamps |
| Correlation.SourceServices | backend/app/correlation/engine.py:82-85 | the source service of each event, in order; `AffectedServicesSpec` builds on it |
| Correlation.AffectedServicesMembers | backend/app/correlation/engine.py:78-86 | a service is listed exactly when some event has it as its source |
| Correlation.AffectedServicesSpec | backend/app/correlation/engine.py:78-86 | the affected services are the events' source services, each once, in order of first appearance among the events sorted by time |
| Correlation.ExtractAffectedServices | backend/app/correlation/engine.py:78-86 | the loop with its seen-set yields exactly that list |
| Correlation.EventIds | backend/app/correlation/engine.py:105 | one id per event, in order; `CorrelateEvents` uses it |
| Correlation.CorrelateEvents | backend/app/correlation/engine.py:89-110 | the new incident is created and updated at two clock readings, is DETECTED, has no analysis, and takes its title and scenario from detection, its severity, timeline, services and event ids from the events |
| DependencyGraphs.LoadServicesSpec | backend/app/knowledge/dependency_graph.py:65-74 | every listed service becomes a node, the last listing winning, and gets adjacency and reverse entries, empty unless one existed; existing lists and edges are unchanged; unlisted nodes are kept |
| DependencyGraphs.LoadDependenciesSpec | backend/app/knowledge/dependency_graph.py:76-84 | every edge is appended, and each extends its source's adjacency and its target's reverse list in order |
| DependencyGraphs.TargetsOfSpec | backend/app/knowledge/dependency_graph.py:81-82 | b is among a's targets exactly when some dependency goes from a to b |
| DependencyGraphs.LoadServicesWellFormed | backend/app/knowledge/dependency_graph.py:65-74 | loading services keeps the node order duplicate-free and in step with the node map |
| DependencyGraphs.LoadDependenciesWellFormed | backend/app/knowledge/dependency_graph.py:76-84 | loading dependencies keeps the graph well formed |
| DependencyGraphs.ImpactDone | backend/app/knowledge/dependency_graph.py:94-110 | when the queue empties, the path starts at the root, holds exactly the services reachable over the reverse lists, each later entry is listed by an earlier one, and the entries are in breadth-first discovery order |
| DependencyGraphs.BreadthFirstUnique | backend/app/knowledge/dependency_graph.py:94-110 | two paths from the same root with the same services, each once, both discovered-earlier and breadth-first, are equal: the impact path's contract fixes it entirely |
| DependencyGraphs.BreadthFirstExample | backend/app/knowledge/dependency_graph.py:99-108 | on X -> [A, B], A -> [C] the queue order X, A, B, C is breadth-first and the depth-first order X, A, C, B is not |
| DependencyGraphs.ChainFound | backend/app/knowledge/dependency_graph.py:120-122 | reaching the target, the route is a walk over adjacency from the start to the target, and no walk is shorter |
| DependencyGraphs.ChainExhausted | backend/app/knowledge/dependency_graph.py:128 | an exhausted queue means the target is unreachable |
| DependencyGraphs.DictOfSpec | backend/app/knowledge/dependency_graph.py:130-135 | `to_dict` lists every node once in insertion order and every edge in order |
| DependencyGraphs.ToDictRoundTrip | backend/app/knowledge/dependency_graph.py:55-84 | for a graph loaded from services and dependencies, loading the services and dependencies of its `to_dict` into an empty graph rebuilds the whole graph: nodes, node order, edges and both adjacency maps |
| DependencyGraphs.ContextLines | backend/app/knowledge/dependency_graph.py:139 | the context starts with its header line |
| DependencyGraphs.KnownIds | backend/app/knowledge/dependency_graph.py:140-142 | the kept ids are exactly the listed ids that name a node |
| DependencyGraphs.ContextLinesSpec | backend/app/knowledge/dependency_graph.py:137-150 | the context is the header followed by one line per known listed id, in the order listed |
| DependencyGraphs.DependencyGraph.constructor | backend/app/knowledge/dependency_graph.py:49-53 | a new graph is empty |
| DependencyGraphs.DependencyGraph.LoadFromData | backend/app/knowledge/dependency_graph.py:55-84 | the new graph is the old one with the services, then the dependencies, loaded |
| DependencyGraphs.DependencyGraph.AddServices | backend/app/knowledge/dependency_graph.py:65-73 | the loop leaves the graph with each service loaded in turn, as `LoadServices` states |
| DependencyGraphs.DependencyGraph.AddDependencies | backend/app/knowledge/dependency_graph.py:75-84 | the loop leaves the graph with each dependency appended in turn, as `LoadDependencies` states |
| DependencyGraphs.DependencyGraph.GetUpstream | backend/app/knowledge/dependency_graph.py:86-88 | a service's adjacency list, or empty for an unknown id |
| DependencyGraphs.DependencyGraph.GetDownstream | backend/app/knowledge/dependency_graph.py:90-92 | a service's reverse list, or empty for an unknown id |
| DependencyGraphs.DependencyGraph.GetImpactPath | backend/app/knowledge/dependency_graph.py:94-110 | the path starts at the root, lists no service twice, holds exactly the services that transitively depend on the root, each later entry is downstream of an earlier one, and the entries come in the order the queue first receives them: by the first earlier entry that lists them, then by position in that entry's list |
| DependencyGraphs.DependencyGraph.GetDependencyChain | backend/app/knowledge/dependency_graph.py:112-128 | the chain is empty exactly when the target is unreachable; otherwise it is a fewest-hop walk from start to target, and `[from]` when both are the same |
| DependencyGraphs.DependencyGraph.GetServiceContext | backend/app/knowledge/dependency_graph.py:137-150 | the text is the context lines joined by newlines |
| Recommendations.ActionFor | backend/app/recommendations/engine.py:127-135 | the action names the incident, copies the item's texts and risk, and is PENDING and unapproved |
| Recommendations.VaultPlaybookWellStated | backend/app/recommendations/engine.py:13-42 | four items, every optional key stated, none CRITICAL, only the unseal/restart HIGH, and that one first |
| Recommendations.JwtPlaybookWellStated | backend/app/recommendations/engine.py:43-72 | four items, every optional key stated, none CRITICAL or HIGH |
| Recommendations.TlsPlaybookWellStated | backend/app/recommendations/engine.py:73-102 | four items, every optional key stated, none CRITICAL or HIGH |
| Recommendations.FallbackWellStated | backend/app/recommendations/engine.py:108-124 | the fallback is manual investigation and then escalation, both LOW |
| Recommendations.PlaybooksWellStated | backend/app/recommendations/engine.py:12-103 | every playbook has four well-stated items, and so is the fallback well stated |
| Recommendations.Coverage | backend/app/recommendations/engine.py:12-103 | the playbooks are keyed by exactly the scenario ids correlation detects, and "unknown" has none |
| Recommendations.BuildActions | backend/app/recommendations/engine.py:126-136 | the loop yields one action per item, in order, the i-th with the i-th fresh id and clock reading |
| Recommendations.GenerateRecommendations | backend/app/recommendations/engine.py:106-138 | one PENDING, unapproved action per item of the scenario's playbook or of the fallback, naming the incident |
| Recommendations.PlaybookForWellStated | backend/app/recommendations/engine.py:125 | whatever the scenario, the chosen playbook is well stated and has at least two items |
| Recommendations.UnknownScenarioFallback | backend/app/recommendations/engine.py:125 | a scenario without a playbook gets the two LOW fallback items |
| Recommendations.DetectedScenarioHasPlaybook | backend/app/recommendations/engine.py:125 | a detected scenario gets its own four-item playbook, never the fallback |
| Approval.Apply | backend/app/governance/approval.py:40-66 | approve and reject succeed only on a PENDING action and rollback only on an APPROVED one; each sets its status, and approve/reject record who and when |
| Approval.Terminal | backend/app/governance/approval.py:40-66 | REJECTED and ROLLED_BACK admit no request |
| Approval.LegalIsReachable | backend/app/governance/approval.py:40-66 | every legal transition is made by some request |
| Approval.Stage | backend/app/governance/approval.py:40-66 | stages run from 0 (PENDING) to 2 |
| Approval.RunBounded | backend/app/governance/approval.py:40-66 | any request sequence makes at most two successful transitions, and the stage never goes back |
| Approval.RegisteredKeys | backend/app/governance/approval.py:17-20 | after registering, the keys are the old keys plus the new actions' ids |
| Approval.RegisteredLast | backend/app/governance/approval.py:17-20 | the last registered action with an id is the one stored |
| Approval.RegisteredOthers | backend/app/governance/approval.py:17-20 | an action not re-registered is unchanged |
| Approval.RegisteredSpec | backend/app/governance/approval.py:17-20 | the three facts above together |
| SeqUtil.ValuesOf | backend/app/governance/approval.py:68-70 | the stored values of the ids, one per id, in order |
| Approval.Selected | backend/app/governance/approval.py:26-38 | the selection holds exactly the stored actions that match the criterion |
| Approval.SelectedOrder | backend/app/governance/approval.py:26-38 | the selection keeps insertion order |
| Approval.ApprovalManager.constructor | backend/app/governance/approval.py:14-15 | a new manager is empty |
| Approval.ApprovalManager.RegisterActions | backend/app/governance/approval.py:17-20 | the store is the registered map, and new ids are appended to the order |
| Approval.ApprovalManager.GetAction | backend/app/governance/approval.py:22-24 | the stored action, or none exactly when the id is unknown |
| Approval.ApprovalManager.GetAll | backend/app/governance/approval.py:68-70 | every stored action once, in insertion order |
| Approval.ApprovalManager.GetActionsForIncident | backend/app/governance/approval.py:26-31 | exactly the stored actions of that incident, in insertion order |
| Approval.ApprovalManager.GetPendingActions | backend/app/governance/approval.py:33-38 | exactly the stored PENDING actions, in insertion order |
| Approval.ApprovalManager.Transition | backend/app/governance/approval.py:40-66 | only the addressed entry can change, by the request's transition; an unknown id or an illegal transition changes nothing |
| Approval.ApprovalManager.ApproveAction | backend/app/governance/approval.py:40-48 | a PENDING action becomes APPROVED with approver and time; anything else gives none |
| Approval.ApprovalManager.RejectAction | backend/app/governance/approval.py:50-58 | a PENDING action becomes REJECTED with rejector and time; anything else gives none |
| Approval.ApprovalManager.RollbackAction | backend/app/governance/approval.py:60-66 | an APPROVED action becomes ROLLED_BACK; anything else gives none |
| Approval.ApprovalManager.Clear | backend/app/governance/approval.py:72-74 | the store becomes empty |
| Executors.ValidateK8sManifest | backend/app/governance/executor.py:37-43 | a manifest passes exactly when it is not blank and contains both "apiVersion:" and "kind:", and each failure has its message |
| Executors.FirstContained | backend/app/governance/executor.py:48-50 | the first forbidden pattern found, or none exactly when no pattern occurs |
| Executors.ValidateSshCommand | backend/app/governance/executor.py:46-51 | a command passes exactly when its lower-cased form contains no forbidden pattern; a rejection names the first forbidden pattern in list order that occurs |
| Executors.ValidateWebhookUrl | backend/app/governance/executor.py:54-57 | a URL passes exactly when it starts with "https://" or "http://"; `ValidationComesFirst` shows a rejected URL is never audited or posted |
| Executors.OperationNamesSpec | backend/app/governance/executor.py:80-162 | each operation is defined under its own one of the five method names, and all five are executor attributes that `getattr` finds |
| Executors.Validate | backend/app/governance/executor.py:80-174 | each operation's validation; scaling and restarting need a non-empty name |
| Executors.AuditDetails | backend/app/governance/executor.py:80-174 | every audit record states the mode it ran in |
| Executors.DryRunResult | backend/app/governance/executor.py:80-174 | a dry run succeeds, is marked dry run and has no error output |
| Executors.KubectlResult | backend/app/governance/executor.py:86-94 | a kubectl call succeeds exactly when it finished with status 0, and reports the tool's output or the failure; `LiveFailuresAreResults` builds on it |
| Executors.SshResult | backend/app/governance/executor.py:136-160 | an ssh call succeeds when the system client exits 0 or whenever the paramiko path runs, and reports a missing client |
| Executors.HttpResult | backend/app/governance/executor.py:166-174 | a webhook succeeds exactly on a status below 300 and reports the status code; `LiveFailuresAreResults` builds on it |
| Executors.ValidationComesFirst | backend/app/governance/executor.py:80-174 | a call that fails validation raises before anything is audited |
| Executors.ValidatedCallIsAudited | backend/app/governance/executor.py:80-174 | a validated call audits exactly one record named after the operation, in its mode, and returns a result in that mode |
| Executors.DryRunUsesNoTool | backend/app/governance/executor.py:80-174 | in dry-run mode the answer does not depend on the tools, and a returned result succeeds |
| Executors.LiveFailuresAreResults | backend/app/governance/executor.py:80-174 | in live mode a missing tool or a raised exception gives an unsuccessful result, not an exception |
| Executors.Executor.Seal | backend/app/governance/executor.py:72-76 | an audit entry carries its record and the digest of the record's sorted-key JSON |
| Executors.Executor.constructor | backend/app/governance/executor.py:68-70 | a new executor has the given mode, an empty log, and the default log path when none is given |
| Executors.Executor.Audit | backend/app/governance/executor.py:72-78 | the log grows by exactly the sealed record, and the mode is unchanged |
| Executors.Executor.Perform | backend/app/governance/executor.py:80-174 | the answer is the operation's expected outcome in the current mode, and a validated call appends its one sealed record |
| Executors.Executor.PatchK8sManifestCall | backend/app/governance/executor.py:80-94 | the same, for patching a manifest |
| Executors.Executor.ScaleDeploymentCall | backend/app/governance/executor.py:96-111 | the same, for scaling a deployment |
| Executors.Executor.RestartDeploymentCall | backend/app/governance/executor.py:113-128 | the same, for restarting a deployment |
| Executors.Executor.RunSshCommandCall | backend/app/governance/executor.py:130-160 | the same, for an ssh command |
| Executors.Executor.TriggerWebhookCall | backend/app/governance/executor.py:162-174 | the same, for a webhook |
| Sandbox.JustificationOkSpec | backend/app/governance/sandbox.py:22-23 | a passing justification is at least ten characters and not blank, and a blank one never passes |
| Sandbox.Approved | backend/app/governance/sandbox.py:25-28 | a call is approved exactly when its token and the environment's secret are both non-empty and equal; `PerformWithSafety` runs live only then |
| Sandbox.SafetyDetails | backend/app/governance/sandbox.py:31 | the safety record names the function, the justification and the approval |
| Sandbox.CallMode | backend/app/governance/sandbox.py:34-43 | an approved call runs live, and any other call in the executor's own mode; `UnapprovedIsDryRun` uses it |
| Sandbox.SafeExecutor.constructor | backend/app/governance/sandbox.py:17-19 | a new wrapper holds a fresh dry-run executor with an empty log |
| Sandbox.SafeExecutor.PerformWithSafety | backend/app/governance/sandbox.py:21-43 | a bad justification raises and writes nothing; otherwise the safety record is logged, a name the executor does not define fails after it with `AttributeError`, and an operation runs in the call's mode; the executor is dry-run again afterwards |
| Sandbox.UnapprovedIsDryRun | backend/app/governance/sandbox.py:34-35 | without approval a call never reaches a tool, and a returned result is a successful dry run |
| Surgeons.KeywordGivesWords | backend/app/reasoning/surgeon.py:19-23 | a description containing a keyword has at least one token, so taking the last token is safe |
| Surgeons.SurgeonPlan | backend/app/reasoning/surgeon.py:19-40 | "restart" wins and targets the last token; otherwise "scale" targets the third token from the end with three replicas, or raises on fewer than three tokens; otherwise nothing matches |
| Surgeons.PlanTargetsAWord | backend/app/reasoning/surgeon.py:19-38 | every dispatched call is a restart or a scale whose target is a token of the description and passes validation |
| Surgeons.Surgeon.constructor | backend/app/reasoning/surgeon.py:9-10 | a new Surgeon holds a fresh safety wrapper on the default secret variable |
| Surgeons.Surgeon.Remediate | backend/app/reasoning/surgeon.py:12-40 | an unmatched description is skipped, and a "scale" with fewer than three tokens fails, both without audit; a matched one is delegated without a token: a justification under ten characters once stripped is refused and writes nothing, otherwise the log gains the unapproved safety record and the operation's dry-run record, and the result is a successful dry run |
| AiEngine.Canned | backend/app/reasoning/ai_engine.py:21-85 | a canned analysis has its confidence and services, five reasoning steps, an impact description and five immediate actions |
| AiEngine.MockResponsesSpec | backend/app/reasoning/ai_engine.py:21-85 | the canned analyses are keyed by exactly the detectable scenarios, and each has five steps, a confidence within [0, 1], an impact and five actions |
| AiEngine.GenericMock | backend/app/reasoning/ai_engine.py:159-170 | the generic analysis keeps the incident's services, has confidence 0.3, three steps, an impact and no immediate actions |
| AiEngine.RcaOf | backend/app/reasoning/ai_engine.py:172-179 | the analysis copies the mock's fields, and a missing impact becomes empty |
| AiEngine.BuildMockRcaSpec | backend/app/reasoning/ai_engine.py:157-179 | a known scenario gets its canned analysis; any other gets the generic one on the incident's services |
| AiEngine.AnalyzeIncident | backend/app/reasoning/ai_engine.py:88-104 | the intended behaviour: the model's analysis when a key is set and the call succeeds, otherwise the mock |
| AiEngine.LivePathAsWritten | backend/app/reasoning/ai_engine.py:125-131 | the prompt call passes five positional arguments to a function of at most three, so the live path always fails |
| AiEngine.AnalyzeIncidentAsWritten | backend/app/reasoning/ai_engine.py:97-104 | as written, the result is the mock analysis whatever the key and the model's answer |
| AiEngine.AsWrittenIgnoresModel | backend/app/reasoning/ai_engine.py:97-131 | with a key set and a model answer unlike the mock, the intended behaviour returns the answer and the code as written does not |
| AiEngine.GetMockActionsSpec | backend/app/reasoning/ai_engine.py:182-189 | a known scenario's five immediate actions, or the three fixed ones |
| IncidentRoutes.Bump | backend/app/routes/incidents.py:71-72 | the key gains one, starting from zero, and the other counts are unchanged |
| IncidentRoutes.TallyCounts | backend/app/routes/incidents.py:65-72 | a value is tallied exactly when it occurs, with its number of occurrences, at least one |
| IncidentRoutes.TallySum | backend/app/routes/incidents.py:64-72 | the counts over the distinct values add up to the number of values |
| IncidentRoutes.SeverityValuesOfStore | backend/app/routes/incidents.py:69 | a severity value occurs exactly when some stored incident has it |
| IncidentRoutes.StatusValuesOfStore | backend/app/routes/incidents.py:70 | a status value occurs exactly when some stored incident has it |
| IncidentRoutes.SeverityStatsSpec | backend/app/routes/incidents.py:61-78 | the severity breakdown has a key exactly for each severity value present in the store, each counted at least once, and its counts add up to the number of incidents |
| IncidentRoutes.StatusStatsSpec | backend/app/routes/incidents.py:61-78 | the status breakdown has a key exactly for each status value present in the store, each counted at least once, and its counts add up to the number of incidents |
| IncidentRoutes.IncidentStore.constructor | backend/app/routes/incidents.py:10 | the store starts empty |
| IncidentRoutes.IncidentStore.AddIncident | backend/app/routes/incidents.py:13-15 | the incident is stored under its id, replacing any old one; only a new id extends the order |
| IncidentRoutes.IncidentStore.GetIncident | backend/app/routes/incidents.py:34-40 | the stored incident, or the not-found case exactly when the id is unknown |
| IncidentRoutes.IncidentStore.ListIncidents | backend/app/routes/incidents.py:23-31 | every stored incident once, newest first, keeping insertion order among equal creation times |
| IncidentRoutes.IncidentStore.Analyze | backend/app/routes/incidents.py:43-58 | an unknown id is not found and changes nothing; otherwise the incident is ANALYZED with the analysis of its ANALYZING form |
| IncidentRoutes.IncidentStore.GetStats | backend/app/routes/incidents.py:61-78 | the total is the store's size, and the two breakdowns are the tallies of the stored severities and statuses |

## Left out

- Clocks, uuids and environment variables are parameters: `now`, fresh ids, `clock(i)`, `environ`.
- Date-times are integers. Only their order matters to the model.
- The audit file is a sequence field. Appending to the file and its path's filesystem effects are left out; the path is kept only as a string.
- SHA-256 and both JSON encoders are functions fixed when the executor is built. They are not computed.
- The live tools are answers given as parameters: kubectl, the ssh client, paramiko and `requests.post`. That includes their exit statuses, outputs and exceptions.
- Executors.SshResult: models the source as written, where the paramiko path reports success whatever the remote command's exit status.
- Executors.HttpResult: `requests.post` is called without a timeout in the source; a hang is outside a model of values.
- Webhook headers are passed through to the live call only. No result depends on them.
- `getattr` on a name the executor does not define is the `Unknown` case of a call; `WellFormedCall` requires that of it, so `Unknown` never names one of the five operations. Python's `TypeError` for wrong positional arguments to an executor operation is not modelled, because the call datatype fixes each operation's arguments.
- Sandbox.SafeExecutor.PerformWithSafety: dispatch to the executor's other attributes is not modelled: `_audit` (a second audit record), the fields `dry_run` and `audit_log_path` (calling them raises `TypeError`), and double-underscore names. Among these, `perform_with_safety("__init__", False, justification=...)` re-runs `Executor.__init__` with `dry_run=False` on the unapproved path, and nothing restores dry-run mode afterwards, so later unapproved calls would run live. No caller in the repository passes such a name, and the model's `Valid()` (the executor stays dry-run between calls) holds only for the calls it models.
- TextUtil.Lower: ASCII case folding only. Python's `lower` also folds non-ASCII letters.
- Whitespace is the set of code points Python's `str.isspace` accepts, listed as eleven ranges. Strings are sequences of Unicode scalar values, so there is no separate byte-level encoding.
- The routes are async and the store is a module global. Concurrent requests are not modelled; in the source another request can see the ANALYZING status while the analysis is awaited.
- Incidents and actions are values. The source hands out references to the same objects (`get_incident_store`, `get_action`), and there changes by one holder are seen by the others. The model leaves that aliasing out.
- `get_incident_store` is not modelled beyond the `incidents` field it exposes.
- AiEngine.MockResponses: the prose of the three canned analyses is the `prose` parameter, not the literal sentences of the source. Their keys, confidences, affected-service lists and the number of steps and actions are the source's.
- The language-model path is an answer given as a parameter: an analysis or a failure. That covers the metrics fetch, the similar-incident search, the Groq client, JSON parsing and the `data.get` defaults. The prompt call raises as written (see "## Findings"); that case is `LivePathAsWritten`, and the rest of the model uses the intended `AnalyzeIncident`.
- `settings.GROQ_API_KEY` is the `apiKey` parameter.
- `load_from_file` takes already-parsed service and dependency lists. Reading and parsing the JSON file, the default path and its missing-file case are left out.
- Per-action timestamps in `generate_recommendations` come from `clock(i)`.
- IncidentRoutes.IncidentStore.GetStats: works on the stored severities' and statuses' value strings. The `hasattr(..., 'value')` fallback to `str` cannot be reached by enum-typed fields.
- HTTP status codes are the `None` cases of the getters. FastAPI's 404 rendering, response models and routing are not modelled.
- Logging calls are omitted.
- Python default arguments are not modelled at the call boundary. `ApproveAction` and `RejectAction` take the actor explicitly; the source's default "admin" is the constant `DefaultActor`. The `Executor` constructor takes `dry_run` explicitly, with no default of `True`.
- IncidentRoutes.IncidentStore.GetStats: `by_severity` and `by_status` are maps, so the insertion order of the source's dicts (first occurrence in the store) is not modelled.
- AiEngine.MockResponsesSpec: a lemma about constant data, which Dafny proves without written steps.

## Findings

| source | as written | input that shows it | evidently intended | confidence | as-written member | corrected member |
|---|---|---|---|---|---|---|
| backend/app/reasoning/ai_engine.py:125-131 | `build_incident_prompt` is called with five positional arguments; it accepts at most three (backend/app/reasoning/prompts.py:38-42), so the call raises `TypeError`, the `except` at ai_engine.py:100-101 falls back, and `analyze_incident` never returns the model's analysis | any incident with `GROQ_API_KEY` set and a model that would answer | the prompt takes the metrics and similar-incident texts, and a successful call returns the model's analysis | high, not executed | AiEngine.AnalyzeIncidentAsWritten, AiEngine.AsWrittenIgnoresModel | AiEngine.AnalyzeIncident |
