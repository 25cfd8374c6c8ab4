/**
 * The guarded executor (backend/app/governance/executor.py). Validators
 * reject obviously destructive input. Every operation first validates,
 * then appends one audit record that carries the current dry-run flag, and
 * only then either answers with a dry-run description or asks the tool
 * (kubectl, ssh, an HTTP client). A tool's answer is an oracle value here.
 * SHA-256 and the two JSON encoders are functions fixed when the executor
 * is made.
 */
module Executors {
  import opened Wrappers
  import opened TextUtil
  import opened Json

  // ---- Validator ----------------------------------------------------------

  /** The outcome of a validator: pass, or the `ValidationError` message. */
  datatype Check = Pass | Fail(reason: string)

  const ForbiddenSshPatterns: seq<string> := ["rm -rf", ":(){:|:&};:", "shutdown", "reboot"]

  /** `validate_k8s_manifest`: a manifest that is not blank and contains
      both "apiVersion:" and "kind:" (case-sensitive). */
  function ValidateK8sManifest(manifest: string): (r: Check)
    ensures r.Pass? <==> !AllSpace(manifest) && Contains(manifest, "apiVersion:") && Contains(manifest, "kind:")
    ensures AllSpace(manifest) ==> r == Fail("Empty manifest")
    ensures r.Fail? && !AllSpace(manifest) ==> r == Fail("Manifest missing apiVersion or kind")
  {
    StripEmptyIff(manifest);
    if Strip(manifest) == [] then Fail("Empty manifest")
    else if !Contains(manifest, "apiVersion:") || !Contains(manifest, "kind:") then
      Fail("Manifest missing apiVersion or kind")
    else Pass
  }

  /** The first of `patterns`, in order, that occurs in `text`. */
  function FirstContained(patterns: seq<string>, text: string): (r: Option<string>)
    ensures r.None? <==> forall i :: 0 <= i < |patterns| ==> !Contains(text, patterns[i])
    ensures r.Some? ==> exists i :: 0 <= i < |patterns| && patterns[i] == r.value
                                    && Contains(text, r.value)
                                    && forall j :: 0 <= j < i ==> !Contains(text, patterns[j])
  {
    if patterns == [] then None
    else if Contains(text, patterns[0]) then Some(patterns[0])
    else
      var r := FirstContained(patterns[1..], text);
      assert forall i :: 0 < i < |patterns| ==> patterns[i] == patterns[1..][i - 1];
      r
  }

  /** `validate_ssh_command`: rejects a command whose lower-cased form
      contains a forbidden pattern, naming the first such pattern. */
  function ValidateSshCommand(command: string): (r: Check)
    ensures r.Pass? <==> forall i :: 0 <= i < |ForbiddenSshPatterns| ==> !Contains(Lower(command), ForbiddenSshPatterns[i])
    ensures r.Fail? ==> exists i :: 0 <= i < |ForbiddenSshPatterns|
                          && Contains(Lower(command), ForbiddenSshPatterns[i])
                          && r.reason == "SSH command contains forbidden pattern: " + ForbiddenSshPatterns[i]
                          && forall j :: 0 <= j < i ==> !Contains(Lower(command), ForbiddenSshPatterns[j])
  {
    match FirstContained(ForbiddenSshPatterns, Lower(command))
    case None => Pass
    case Some(p) => Fail("SSH command contains forbidden pattern: " + p)
  }

  /** `validate_webhook_url`: only http(s) URLs. */
  function ValidateWebhookUrl(url: string): (r: Check)
    ensures r.Pass? <==> StartsWith(url, "https://") || StartsWith(url, "http://")
    ensures r.Fail? ==> r.reason == "Webhook URL must be http(s)"
  {
    if StartsWith(url, "https://") || StartsWith(url, "http://") then Pass
    else Fail("Webhook URL must be http(s)")
  }

  // ---- Operations ---------------------------------------------------------

  const DefaultNamespace := "default"
  const DefaultSshPort := 22
  const DefaultSshTimeout := 10

  /** A call of one of the five executor operations with its arguments. */
  datatype Operation =
    | PatchK8sManifest(manifestYaml: string, namespace: string)
    | ScaleDeployment(name: string, replicas: int, namespace: string)
    | RestartDeployment(name: string, namespace: string)
    | RunSshCommand(host: string, user: string, command: string, port: int, timeout: int)
    | TriggerWebhook(url: string, payload: Json, headers: Option<map<string, string>>)

  /** The method's name, which is also the audit record's `action`. */
  function OperationName(op: Operation): string
  {
    match op
    case PatchK8sManifest(_, _) => "patch_k8s_manifest"
    case ScaleDeployment(_, _, _) => "scale_deployment"
    case RestartDeployment(_, _) => "restart_deployment"
    case RunSshCommand(_, _, _, _, _) => "run_ssh_command"
    case TriggerWebhook(_, _, _) => "trigger_webhook"
  }

  /** The names the five operations are defined under. */
  const OperationNames: set<string> :=
    {"patch_k8s_manifest", "scale_deployment", "restart_deployment", "run_ssh_command", "trigger_webhook"}

  /** A name `getattr` finds on an `Executor`: one of its operations, its
      `_audit` method, its two instance fields, or a double-underscore name
      such as `__init__` that every Python object may have. */
  predicate ExecutorAttribute(name: string)
  {
    || name in OperationNames
    || name in {"_audit", "dry_run", "audit_log_path"}
    || (|name| >= 4 && name[..2] == "__" && name[|name| - 2..] == "__")
  }

  /** Every operation is looked up under one of the operation names, each
      name belongs to exactly one operation kind, and all are attributes. */
  lemma OperationNamesSpec(op: Operation)
    ensures OperationName(op) in OperationNames && ExecutorAttribute(OperationName(op))
    ensures OperationName(op) == "scale_deployment" <==> op.ScaleDeployment?
    ensures OperationName(op) == "restart_deployment" <==> op.RestartDeployment?
    ensures OperationName(op) == "patch_k8s_manifest" <==> op.PatchK8sManifest?
    ensures OperationName(op) == "run_ssh_command" <==> op.RunSshCommand?
    ensures OperationName(op) == "trigger_webhook" <==> op.TriggerWebhook?
  {
  }

  /** The check each operation makes before anything else. Scaling and
      restarting only require a non-empty deployment name. */
  function Validate(op: Operation): (r: Check)
    ensures (op.ScaleDeployment? || op.RestartDeployment?) ==>
              (r.Fail? <==> op.name == "") && (r.Fail? ==> r.reason == "Deployment name required")
  {
    match op
    case PatchK8sManifest(manifest, _) => ValidateK8sManifest(manifest)
    case ScaleDeployment(name, _, _) => if name == "" then Fail("Deployment name required") else Pass
    case RestartDeployment(name, _) => if name == "" then Fail("Deployment name required") else Pass
    case RunSshCommand(_, _, command, _, _) => ValidateSshCommand(command)
    case TriggerWebhook(url, _, _) => ValidateWebhookUrl(url)
  }

  /** `ActionResult`. */
  datatype ActionResult = ActionResult(success: bool, stdout: string, stderr: string, dryRun: bool)

  /** What an operation hands back to its caller: its result, or the
      `ValidationError` it raises. */
  datatype Outcome = Returned(result: ActionResult) | ValidationFailed(message: string)

  /** One audit record: `{"action": ..., "details": {...}}`. */
  datatype AuditRecord = AuditRecord(action: string, details: map<string, Json>)

  /** The record as the JSON object that is serialised and hashed. */
  function RecordJson(r: AuditRecord): Json
  {
    JObject(map["action" := JString(r.action), "details" := JObject(r.details)])
  }

  /** The details an operation audits, with the mode it runs in. */
  function AuditDetails(op: Operation, dryRun: bool): (d: map<string, Json>)
    ensures "dry_run" in d && d["dry_run"] == JBool(dryRun)
  {
    match op
    case PatchK8sManifest(_, namespace) =>
      map["namespace" := JString(namespace), "dry_run" := JBool(dryRun)]
    case ScaleDeployment(name, replicas, namespace) =>
      map["name" := JString(name), "replicas" := JInt(replicas),
          "namespace" := JString(namespace), "dry_run" := JBool(dryRun)]
    case RestartDeployment(name, namespace) =>
      map["name" := JString(name), "namespace" := JString(namespace), "dry_run" := JBool(dryRun)]
    case RunSshCommand(host, user, command, port, _) =>
      map["host" := JString(host), "user" := JString(user), "command" := JString(command),
          "port" := JInt(port), "dry_run" := JBool(dryRun)]
    case TriggerWebhook(url, payload, _) =>
      map["url" := JString(url), "payload" := payload, "dry_run" := JBool(dryRun)]
  }

  /** The records an operation appends to the audit log: one when it
      passes validation, none when it does not. */
  function AuditedRecords(op: Operation, dryRun: bool): seq<AuditRecord>
  {
    if Validate(op).Pass? then [AuditRecord(OperationName(op), AuditDetails(op, dryRun))] else []
  }

  /** The dry-run answer; `dumps` is `json.dumps` without sorted keys. */
  function DryRunResult(op: Operation, dumps: Json -> string): (r: ActionResult)
    ensures r.success && r.dryRun && r.stderr == ""
  {
    var out := match op
      case PatchK8sManifest(_, _) => "validated (dry-run)"
      case ScaleDeployment(name, replicas, _) =>
        "would scale " + name + " to " + IntToString(replicas) + " replicas"
      case RestartDeployment(name, _) => "would restart deployment " + name
      case RunSshCommand(host, user, command, port, _) =>
        "would ssh " + user + "@" + host + ":" + IntToString(port) + " '" + command + "'"
      case TriggerWebhook(url, payload, _) => "would POST to " + url + " with payload " + dumps(payload);
    ActionResult(true, out, "", true)
  }

  // ---- Live tools as oracles ----------------------------------------------

  /** What running kubectl amounts to: not on PATH, a finished process, or
      an exception from `subprocess.run`. */
  datatype ToolRun = NotFound | Finished(returnCode: int, stdout: string, stderr: string) | Raised(error: string)

  /** What the ssh branch amounts to: the system client's process, no
      client at all, a paramiko session, or an exception anywhere. */
  datatype SshRun =
    | SystemSsh(returnCode: int, stdout: string, stderr: string)
    | NoSshClient
    | Paramiko(stdout: string, stderr: string)
    | SshRaised(error: string)

  /** What `requests.post` amounts to: a response, or an exception. */
  datatype HttpRun = Response(statusCode: int, text: string) | HttpRaised(error: string)

  /** The answers the environment gives to a live call. */
  datatype Tools = Tools(kubectl: ToolRun, ssh: SshRun, http: HttpRun)

  function KubectlResult(run: ToolRun, missing: string): (r: ActionResult)
    ensures !r.dryRun
    ensures r.success <==> run.Finished? && run.returnCode == 0
    ensures run.NotFound? ==> r.stderr == missing
    ensures run.Raised? ==> r.stderr == run.error
    ensures run.Finished? ==> r.stdout == run.stdout && r.stderr == run.stderr
  {
    match run
    case NotFound => ActionResult(false, "", missing, false)
    case Finished(code, out, err) => ActionResult(code == 0, out, err, false)
    case Raised(e) => ActionResult(false, "", e, false)
  }

  /** The paramiko fallback reports success whatever the remote command's
      exit status. */
  function SshResult(run: SshRun): (r: ActionResult)
    ensures !r.dryRun
    ensures r.success <==> (run.SystemSsh? && run.returnCode == 0) || run.Paramiko?
    ensures run.NoSshClient? ==> r.stderr == "no ssh client available"
    ensures run.SshRaised? ==> r.stderr == run.error
  {
    match run
    case SystemSsh(code, out, err) => ActionResult(code == 0, out, err, false)
    case NoSshClient => ActionResult(false, "", "no ssh client available", false)
    case Paramiko(out, err) => ActionResult(true, out, err, false)
    case SshRaised(e) => ActionResult(false, "", e, false)
  }

  function HttpResult(run: HttpRun): (r: ActionResult)
    ensures !r.dryRun
    ensures r.success <==> run.Response? && run.statusCode < 300
    ensures run.Response? ==> r.stdout == run.text && r.stderr == IntToString(run.statusCode)
    ensures run.HttpRaised? ==> r.stderr == run.error
  {
    match run
    case Response(status, text) => ActionResult(status < 300, text, IntToString(status), false)
    case HttpRaised(e) => ActionResult(false, "", e, false)
  }

  /** The live branch of each operation. */
  function LiveResult(op: Operation, tools: Tools): ActionResult
  {
    match op
    case PatchK8sManifest(_, _) => KubectlResult(tools.kubectl, "kubectl not found on PATH")
    case ScaleDeployment(_, _, _) => KubectlResult(tools.kubectl, "kubectl not found")
    case RestartDeployment(_, _) => KubectlResult(tools.kubectl, "kubectl not found")
    case RunSshCommand(_, _, _, _, _) => SshResult(tools.ssh)
    case TriggerWebhook(_, _, _) => HttpResult(tools.http)
  }

  /** What an operation answers in a mode, given the tools' answers. */
  function Expected(op: Operation, dryRun: bool, tools: Tools, dumps: Json -> string): Outcome
  {
    match Validate(op)
    case Fail(reason) => ValidationFailed(reason)
    case Pass => Returned(if dryRun then DryRunResult(op, dumps) else LiveResult(op, tools))
  }

  // ---- Properties of the operations -----------------------------------------

  /** A validation failure is raised before anything is audited or run. */
  lemma ValidationComesFirst(op: Operation, dryRun: bool, tools: Tools, dumps: Json -> string)
    requires Validate(op).Fail?
    ensures Expected(op, dryRun, tools, dumps) == ValidationFailed(Validate(op).reason)
    ensures AuditedRecords(op, dryRun) == []
  {
  }

  /** A validated call audits exactly one record, named after the operation
      and carrying the mode, and never raises: every tool failure becomes an
      unsuccessful result. */
  lemma ValidatedCallIsAudited(op: Operation, dryRun: bool, tools: Tools, dumps: Json -> string)
    requires Validate(op).Pass?
    ensures |AuditedRecords(op, dryRun)| == 1
    ensures AuditedRecords(op, dryRun)[0].action == OperationName(op)
    ensures AuditedRecords(op, dryRun)[0].details["dry_run"] == JBool(dryRun)
    ensures Expected(op, dryRun, tools, dumps).Returned?
    ensures Expected(op, dryRun, tools, dumps).result.dryRun == dryRun
  {
  }

  /** In dry-run mode every validated operation succeeds without consulting
      any tool: its answer is the same whatever the tools would say. */
  lemma DryRunUsesNoTool(op: Operation, tools: Tools, other: Tools, dumps: Json -> string)
    ensures Expected(op, true, tools, dumps) == Expected(op, true, other, dumps)
    ensures Expected(op, true, tools, dumps).Returned? ==>
              Expected(op, true, tools, dumps).result.success
  {
  }

  /** In live mode a missing tool or a raised exception gives an
      unsuccessful, non-dry-run result rather than an exception. */
  lemma LiveFailuresAreResults(op: Operation, tools: Tools, dumps: Json -> string)
    requires Validate(op).Pass?
    requires (op.PatchK8sManifest? || op.ScaleDeployment? || op.RestartDeployment?) ==>
               tools.kubectl.NotFound? || tools.kubectl.Raised?
    requires op.RunSshCommand? ==> tools.ssh.NoSshClient? || tools.ssh.SshRaised?
    requires op.TriggerWebhook? ==> tools.http.HttpRaised?
    ensures Expected(op, false, tools, dumps).Returned?
    ensures !Expected(op, false, tools, dumps).result.success
    ensures !Expected(op, false, tools, dumps).result.dryRun
  {
  }

  /** An audit-log line: the record and the hex SHA-256 of its canonical
      serialisation. */
  datatype AuditEntry = AuditEntry(record: AuditRecord, sha256: string)

  const DefaultAuditLogPath := "/tmp/devsick_action_audit.log"

  /** `Executor`: the mode flag and the audit log it appends to. */
  class Executor {
    var dryRun: bool
    /** The lines written to the audit file, oldest first. */
    var auditLog: seq<AuditEntry>
    const auditLogPath: string
    /** `json.dumps(x, sort_keys=True)`. */
    const canonicalJson: Json -> string
    /** `json.dumps(x)`. */
    const plainJson: Json -> string
    /** `hashlib.sha256(s.encode()).hexdigest()`. */
    const digest: string -> string

    /** The audit entry written for `record`. */
    function Seal(record: AuditRecord): (e: AuditEntry)
      ensures e.record == record
      ensures e.sha256 == digest(canonicalJson(RecordJson(record)))
    {
      AuditEntry(record, digest(canonicalJson(RecordJson(record))))
    }

    /** Every logged digest is that of its own record. */
    ghost predicate Valid()
      reads this
    {
      forall i :: 0 <= i < |auditLog| ==> auditLog[i] == Seal(auditLog[i].record)
    }

    /** `Executor(dry_run, audit_log_path)`: an empty path, like a missing
        one, selects the default file. */
    constructor(dryRun: bool, auditLogPath: Option<string>, canonicalJson: Json -> string,
                plainJson: Json -> string, digest: string -> string)
      ensures Valid() && this.dryRun == dryRun && this.auditLog == []
      ensures this.auditLogPath ==
              (if auditLogPath.Some? && auditLogPath.value != "" then auditLogPath.value else DefaultAuditLogPath)
      ensures this.canonicalJson == canonicalJson && this.plainJson == plainJson && this.digest == digest
    {
      this.dryRun := dryRun;
      this.auditLog := [];
      this.auditLogPath :=
        if auditLogPath.Some? && auditLogPath.value != "" then auditLogPath.value else DefaultAuditLogPath;
      this.canonicalJson := canonicalJson;
      this.plainJson := plainJson;
      this.digest := digest;
    }

    /** `_audit(action, details)`. */
    method Audit(action: string, details: map<string, Json>)
      requires Valid()
      modifies this
      ensures Valid() && dryRun == old(dryRun)
      ensures auditLog == old(auditLog) + [Seal(AuditRecord(action, details))]
    {
      auditLog := auditLog + [Seal(AuditRecord(action, details))];
    }

    /** The shared shape of the five operations: validate, audit with the
        current mode, then answer in that mode. */
    method Perform(op: Operation, tools: Tools) returns (out: Outcome)
      requires Valid()
      modifies this
      ensures Valid() && dryRun == old(dryRun)
      ensures out == Expected(op, old(dryRun), tools, plainJson)
      ensures auditLog == old(auditLog) + (if Validate(op).Pass? then [Seal(AuditedRecords(op, old(dryRun))[0])] else [])
    {
      var check := Validate(op);
      if check.Fail? {
        out := ValidationFailed(check.reason);
        return;
      }
      Audit(OperationName(op), AuditDetails(op, dryRun));
      if dryRun {
        out := Returned(DryRunResult(op, plainJson));
      } else {
        out := Returned(LiveResult(op, tools));
      }
    }

    method PatchK8sManifestCall(manifestYaml: string, namespace: string, tools: Tools) returns (out: Outcome)
      requires Valid()
      modifies this
      ensures Valid() && dryRun == old(dryRun)
      ensures out == Expected(PatchK8sManifest(manifestYaml, namespace), old(dryRun), tools, plainJson)
      ensures auditLog == old(auditLog) + (if ValidateK8sManifest(manifestYaml).Pass?
                                           then [Seal(AuditRecord("patch_k8s_manifest",
                                                                  AuditDetails(PatchK8sManifest(manifestYaml, namespace), old(dryRun))))]
                                           else [])
    {
      out := Perform(PatchK8sManifest(manifestYaml, namespace), tools);
    }

    method ScaleDeploymentCall(name: string, replicas: int, namespace: string, tools: Tools) returns (out: Outcome)
      requires Valid()
      modifies this
      ensures Valid() && dryRun == old(dryRun)
      ensures out == Expected(ScaleDeployment(name, replicas, namespace), old(dryRun), tools, plainJson)
      ensures auditLog == old(auditLog) + (if name != ""
                                           then [Seal(AuditRecord("scale_deployment",
                                                                  AuditDetails(ScaleDeployment(name, replicas, namespace), old(dryRun))))]
                                           else [])
    {
      out := Perform(ScaleDeployment(name, replicas, namespace), tools);
    }

    method RestartDeploymentCall(name: string, namespace: string, tools: Tools) returns (out: Outcome)
      requires Valid()
      modifies this
      ensures Valid() && dryRun == old(dryRun)
      ensures out == Expected(RestartDeployment(name, namespace), old(dryRun), tools, plainJson)
      ensures auditLog == old(auditLog) + (if name != ""
                                           then [Seal(AuditRecord("restart_deployment",
                                                                  AuditDetails(RestartDeployment(name, namespace), old(dryRun))))]
                                           else [])
    {
      out := Perform(RestartDeployment(name, namespace), tools);
    }

    method RunSshCommandCall(host: string, user: string, command: string, port: int, timeout: int, tools: Tools)
      returns (out: Outcome)
      requires Valid()
      modifies this
      ensures Valid() && dryRun == old(dryRun)
      ensures out == Expected(RunSshCommand(host, user, command, port, timeout), old(dryRun), tools, plainJson)
      ensures auditLog == old(auditLog) + (if ValidateSshCommand(command).Pass?
                                           then [Seal(AuditRecord("run_ssh_command",
                                                                  AuditDetails(RunSshCommand(host, user, command, port, timeout), old(dryRun))))]
                                           else [])
    {
      out := Perform(RunSshCommand(host, user, command, port, timeout), tools);
    }

    method TriggerWebhookCall(url: string, payload: Json, headers: Option<map<string, string>>, tools: Tools)
      returns (out: Outcome)
      requires Valid()
      modifies this
      ensures Valid() && dryRun == old(dryRun)
      ensures out == Expected(TriggerWebhook(url, payload, headers), old(dryRun), tools, plainJson)
      ensures auditLog == old(auditLog) + (if ValidateWebhookUrl(url).Pass?
                                           then [Seal(AuditRecord("trigger_webhook",
                                                                  AuditDetails(TriggerWebhook(url, payload, headers), old(dryRun))))]
                                           else [])
    {
      out := Perform(TriggerWebhook(url, payload, headers), tools);
    }
  }
}
