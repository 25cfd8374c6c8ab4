/**
 * The recommendation engine (backend/app/recommendations/engine.py): a
 * constant table of remediation playbooks keyed by scenario id, a two-entry
 * fallback for any other scenario, and the loop that turns the chosen
 * playbook into PENDING remediation actions for an incident.
 */
module Recommendations {
  import opened Wrappers
  import opened ActionModels
  import IncidentModels
  import Correlation

  /**
   * One playbook item, a Python dict. `title` and `description` are read
   * with `item["..."]`; the other three keys are read with `item.get` and
   * so may be absent (`None` here).
   */
  datatype PlaybookEntry = PlaybookEntry(
    title: string,
    description: string,
    commandHint: Option<string>,
    riskLevel: Option<RiskLevel>,
    rollbackDescription: Option<string>)

  /** An item that spells out all five keys, as every item in the table does. */
  function Entry(title: string, description: string, commandHint: string,
                 riskLevel: RiskLevel, rollbackDescription: string): (e: PlaybookEntry)
    ensures e.title == title && e.description == description
    ensures e.commandHint == Some(commandHint) && e.riskLevel == Some(riskLevel)
    ensures e.rollbackDescription == Some(rollbackDescription)
  {
    PlaybookEntry(title, description, Some(commandHint), Some(riskLevel), Some(rollbackDescription))
  }

  /** PLAYBOOKS["vault_auth_failure"]. */
  const VaultPlaybook: seq<PlaybookEntry> := [
    Entry("Unseal / Restart Vault",
          "Check Vault seal status and unseal if necessary. If Vault pod is unresponsive, perform a controlled restart of the vault-0 pod.",
          "kubectl exec -it vault-0 -- vault status && kubectl delete pod vault-0",
          High,
          "If Vault enters a bad state after restart, restore from the last Raft snapshot backup."),
    Entry("Reconcile ESO SecretStore",
          "Force External Secrets Operator to reconcile the vault-backend SecretStore and verify connectivity to Vault.",
          "kubectl annotate secretstore vault-backend force-sync=$(date +%s) --overwrite",
          Low,
          "Remove the force-sync annotation if reconciliation causes issues."),
    Entry("Rotate Database Credentials",
          "Manually rotate the database credentials if automatic rotation via ESO cannot be restored in time.",
          "kubectl create secret generic db-credentials --from-literal=password=$(openssl rand -base64 32) --dry-run=client -o yaml | kubectl apply -f -",
          Medium,
          "Restore previous database credentials from Vault KV store."),
    Entry("Restart Auth Service Pods",
          "After credentials are restored, restart auth-service pods to reinitialize database connection pool.",
          "kubectl rollout restart deployment/auth-service",
          Low,
          "Rollback deployment: kubectl rollout undo deployment/auth-service")
  ]

  /** PLAYBOOKS["database_jwt_missing"]. */
  const JwtPlaybook: seq<PlaybookEntry> := [
    Entry("Create New JWT Signing Key",
          "Manually create a new JWT signing key in Vault's transit engine or KV store.",
          "vault write transit/keys/jwt-signing type=ecdsa-p256",
          Medium,
          "Delete the newly created key if it causes signature mismatches."),
    Entry("Restart Auth Service",
          "Restart auth-service pods to force reload of signing keys from Vault.",
          "kubectl rollout restart deployment/auth-service",
          Low,
          "Rollback: kubectl rollout undo deployment/auth-service"),
    Entry("Reset API Gateway Circuit Breaker",
          "Once auth-service is healthy, reset the API gateway circuit breaker to restore traffic flow.",
          "kubectl exec -it api-gateway-0 -- curl -X POST localhost:9901/reset_circuit_breaker",
          Low,
          "Circuit breaker will automatically re-engage if failures continue."),
    Entry("Audit Vault Lease Configuration",
          "Review and extend JWT signing key lease TTL to prevent future expiry. Consider implementing lease renewal monitoring.",
          "vault read sys/leases/lookup -format=json | jq '.data'",
          Low,
          "No rollback needed — this is an audit action.")
  ]

  /** PLAYBOOKS["api_auth_cascade"]. */
  const TlsPlaybook: seq<PlaybookEntry> := [
    Entry("Emergency TLS Certificate Renewal",
          "Manually trigger certificate renewal or issue an emergency certificate via cert-manager.",
          "kubectl delete certificate api-gateway-tls && kubectl apply -f certificate.yaml",
          Medium,
          "Restore the previous certificate secret from backup."),
    Entry("Investigate ACME Challenge Failure",
          "Check cert-manager logs and DNS configuration to determine why the ACME challenge failed.",
          "kubectl logs -l app=cert-manager -n cert-manager --tail=100",
          Low,
          "No rollback needed — this is a diagnostic action."),
    Entry("Restart API Gateway",
          "After certificate is renewed, restart API gateway pods to load the new certificate.",
          "kubectl rollout restart deployment/api-gateway",
          Medium,
          "Rollback: kubectl rollout undo deployment/api-gateway"),
    Entry("Implement Certificate Expiry Alerting",
          "Add Prometheus alerting for certificates expiring within 7 days to prevent future incidents.",
          "kubectl apply -f cert-expiry-alert-rule.yaml",
          Low,
          "Delete the alert rule if it generates false positives.")
  ]

  /** PLAYBOOKS. */
  const Playbooks: map<string, seq<PlaybookEntry>> := map[
    "vault_auth_failure" := VaultPlaybook,
    "database_jwt_missing" := JwtPlaybook,
    "api_auth_cascade" := TlsPlaybook
  ]

  /** The default of `PLAYBOOKS.get(...)`, for a scenario without a playbook. */
  const FallbackPlaybook: seq<PlaybookEntry> := [
    Entry("Manual Investigation Required",
          "Unable to automatically generate recommendations for this incident type. "
          + "Investigate affected services manually and check logs for more details.",
          "",
          Low,
          ""),
    Entry("Escalate to On-Call Engineer",
          "Escalate this incident to the on-call SRE for manual triage.",
          "",
          Low,
          "")
  ]

  /** `PLAYBOOKS.get(scenario_type, fallback)`. */
  function PlaybookFor(scenarioType: string): seq<PlaybookEntry>
  {
    if scenarioType in Playbooks then Playbooks[scenarioType] else FallbackPlaybook
  }

  /** The action built from `item` by one iteration of the loop: it names
      the incident, copies the item's texts and risk, and is PENDING. */
  function ActionFor(incident: IncidentModels.Incident, item: PlaybookEntry, id: string, now: int): (a: RemediationAction)
    ensures a.id == id && a.incidentId == incident.id && a.createdAt == now
    ensures a.approvalStatus == Pending && a.approvedBy == None && a.approvedAt == None
    ensures a.title == item.title && a.description == item.description
    ensures item.riskLevel.Some? ==> a.riskLevel == item.riskLevel.value
    ensures item.commandHint.Some? ==> a.commandHint == item.commandHint.value
    ensures item.rollbackDescription.Some? ==> a.rollbackDescription == item.rollbackDescription.value
  {
    NewRemediationAction(id, incident.id, item.title, item.description, item.commandHint,
                         item.riskLevel, item.rollbackDescription, now)
  }

  // ---- Properties of the table -------------------------------------------

  /** Every item names all of its optional keys, so no default of
      `item.get` is used; no item is CRITICAL; and an item is HIGH exactly
      when it is the Vault unseal/restart. */
  ghost predicate WellStated(pb: seq<PlaybookEntry>)
  {
    forall i :: 0 <= i < |pb| ==>
      pb[i].commandHint.Some? && pb[i].riskLevel.Some? && pb[i].rollbackDescription.Some?
      && pb[i].riskLevel != Some(Critical)
      && (pb[i].riskLevel == Some(High) <==> pb[i].title == "Unseal / Restart Vault")
  }

  lemma VaultPlaybookWellStated()
    ensures WellStated(VaultPlaybook) && |VaultPlaybook| == 4
    ensures VaultPlaybook[0].riskLevel == Some(High)
  {
  }

  lemma JwtPlaybookWellStated()
    ensures WellStated(JwtPlaybook) && |JwtPlaybook| == 4
  {
  }

  lemma TlsPlaybookWellStated()
    ensures WellStated(TlsPlaybook) && |TlsPlaybook| == 4
  {
  }

  /** The fallback's two items are both LOW, investigation first. */
  lemma FallbackWellStated()
    ensures WellStated(FallbackPlaybook) && |FallbackPlaybook| == 2
    ensures FallbackPlaybook[0].title == "Manual Investigation Required"
    ensures FallbackPlaybook[1].title == "Escalate to On-Call Engineer"
    ensures forall i :: 0 <= i < 2 ==> FallbackPlaybook[i].riskLevel == Some(Low)
  {
  }

  /** Every playbook, and the fallback, is well stated and non-empty, and
      exactly one item of the whole table is HIGH. */
  lemma PlaybooksWellStated()
    ensures forall k :: k in Playbooks ==> WellStated(Playbooks[k]) && |Playbooks[k]| == 4
    ensures WellStated(FallbackPlaybook)
  {
    VaultPlaybookWellStated();
    JwtPlaybookWellStated();
    TlsPlaybookWellStated();
    FallbackWellStated();
  }

  /** The playbooks are keyed by exactly the scenario ids that correlation
      emits other than "unknown", which has none. */
  lemma Coverage()
    ensures forall id :: id in Correlation.ScenarioIds() <==> id in Playbooks
    ensures Correlation.UnknownScenario.id !in Playbooks
  {
  }

  // ---- generate_recommendations ------------------------------------------

  /** The `for item in playbook` loop. */
  method BuildActions(incident: IncidentModels.Incident, playbook: seq<PlaybookEntry>,
                      freshId: nat -> string, clock: nat -> int)
    returns (actions: seq<RemediationAction>)
    ensures |actions| == |playbook|
    ensures forall i :: 0 <= i < |actions| ==>
              actions[i] == ActionFor(incident, playbook[i], freshId(i), clock(i))
  {
    actions := [];
    var i := 0;
    while i < |playbook|
      invariant 0 <= i <= |playbook| && |actions| == i
      invariant forall j :: 0 <= j < i ==> actions[j] == ActionFor(incident, playbook[j], freshId(j), clock(j))
    {
      var action := ActionFor(incident, playbook[i], freshId(i), clock(i));
      actions := actions + [action];
      i := i + 1;
    }
  }

  /**
   * `generate_recommendations(incident)`: one action per item of the
   * incident's playbook, in playbook order, each naming the incident and
   * PENDING. The `i`-th action takes `freshId(i)` as its uuid and
   * `clock(i)` as its creation time.
   */
  method GenerateRecommendations(incident: IncidentModels.Incident, freshId: nat -> string, clock: nat -> int)
    returns (actions: seq<RemediationAction>)
    ensures |actions| == |PlaybookFor(incident.scenarioType)|
    ensures forall i :: 0 <= i < |actions| ==>
              actions[i] == ActionFor(incident, PlaybookFor(incident.scenarioType)[i], freshId(i), clock(i))
    ensures forall i :: 0 <= i < |actions| ==>
              actions[i].incidentId == incident.id && actions[i].approvalStatus == Pending
              && actions[i].approvedBy == None && actions[i].approvedAt == None
  {
    actions := BuildActions(incident, PlaybookFor(incident.scenarioType), freshId, clock);
  }

  /** Whatever the scenario, the chosen playbook is well stated, so every
      action's risk, command hint and rollback text are the item's own; no
      action is CRITICAL, and only the Vault unseal/restart is HIGH. */
  lemma PlaybookForWellStated(scenarioType: string)
    ensures WellStated(PlaybookFor(scenarioType))
    ensures |PlaybookFor(scenarioType)| >= 2
  {
    PlaybooksWellStated();
  }

  /** A scenario without a playbook, "unknown" among them, gets exactly the
      two LOW fallback actions, investigation first. */
  lemma UnknownScenarioFallback(scenarioType: string)
    requires scenarioType !in Playbooks
    ensures |PlaybookFor(scenarioType)| == 2
    ensures PlaybookFor(scenarioType)[0].title == "Manual Investigation Required"
    ensures PlaybookFor(scenarioType)[1].title == "Escalate to On-Call Engineer"
    ensures forall i :: 0 <= i < 2 ==> PlaybookFor(scenarioType)[i].riskLevel == Some(Low)
  {
    FallbackWellStated();
  }

  /** A scenario that correlation detects gets its own four-item playbook,
      never the fallback. */
  lemma DetectedScenarioHasPlaybook(scenarioType: string)
    requires scenarioType in Correlation.ScenarioIds()
    ensures PlaybookFor(scenarioType) == Playbooks[scenarioType]
    ensures |PlaybookFor(scenarioType)| == 4
    ensures PlaybookFor(scenarioType) != FallbackPlaybook
  {
    Coverage();
    PlaybooksWellStated();
    FallbackWellStated();
  }
}
