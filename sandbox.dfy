/**
 * `SafeExecutor` (backend/app/governance/sandbox.py): a wrapper around an
 * executor that is dry-run from birth. A call needs a justification of at
 * least ten characters once stripped; it is audited as a `safety_check`
 * together with whether it was approved; and only a call whose token
 * equals the secret in the environment runs live, for that call alone.
 */
module Sandbox {
  import opened Wrappers
  import opened TextUtil
  import opened Json
  import opened Executors

  const DefaultApprovalEnvVar := "GOVERNANCE_APPROVAL_TOKEN"
  const MinJustification := 10
  const JustificationError := "Justification required (min 10 characters)"

  /** The attribute `getattr(self.executor, func_name)` looks up: one of the
      five operations with its arguments, or a name the executor lacks
      (`WellFormedCall`). */
  datatype Call = Known(op: Operation) | Unknown(funcName: string)

  /** An `Unknown` call names no attribute of the executor, so `getattr`
      raises `AttributeError` on it; in particular it names none of the five
      operations, which are `Known` calls. */
  predicate WellFormedCall(call: Call)
  {
    call.Unknown? ==> !ExecutorAttribute(call.funcName)
  }

  function FuncName(call: Call): string
  {
    match call
    case Known(op) => OperationName(op)
    case Unknown(name) => name
  }

  /** `not justification or len(justification.strip()) < 10`, negated. */
  predicate JustificationOk(justification: Option<string>)
  {
    justification.Some? && |Strip(justification.value)| >= MinJustification
  }

  /** A passing justification is at least ten characters long and not
      blank; a blank one never passes, however long. */
  lemma JustificationOkSpec(justification: Option<string>)
    ensures JustificationOk(justification) ==> justification.Some? && |justification.value| >= MinJustification
    ensures JustificationOk(justification) ==> !AllSpace(justification.value)
    ensures justification.Some? && AllSpace(justification.value) ==> !JustificationOk(justification)
  {
    if justification.Some? {
      StripSpec(justification.value);
      StripEmptyIff(justification.value);
    }
  }

  /** `approved`: the supplied token and the environment's are both
      non-empty and equal. */
  function Approved(approvalToken: Option<string>, environ: map<string, string>, envVar: string): (b: bool)
    ensures b <==> approvalToken.Some? && approvalToken.value != ""
                   && envVar in environ && environ[envVar] != ""
                   && approvalToken.value == environ[envVar]
  {
    var envToken := if envVar in environ then Some(environ[envVar]) else None;
    approvalToken.Some? && approvalToken.value != "" && envToken.Some? && envToken.value != ""
    && approvalToken.value == envToken.value
  }

  /** The `safety_check` record's details. */
  function SafetyDetails(call: Call, justification: string, approved: bool): (d: map<string, Json>)
    ensures d.Keys == {"func", "justification", "approved"}
    ensures d["approved"] == JBool(approved) && d["func"] == JString(FuncName(call))
  {
    map["func" := JString(FuncName(call)), "justification" := JString(justification),
        "approved" := JBool(approved)]
  }

  /** What `perform_with_safety` hands back: the `ValidationError` of a
      missing justification, the operation's outcome, or the
      `AttributeError` of a name the executor does not have. */
  datatype SafeOutcome = Refused(message: string) | Delegated(outcome: Outcome) | NoSuchOperation(funcName: string)

  /** The mode a call runs in: live when approved, otherwise the
      executor's own mode. */
  function CallMode(approved: bool, executorDryRun: bool): (dryRun: bool)
    ensures approved ==> !dryRun
    ensures !approved ==> dryRun == executorDryRun
  {
    if approved then false else executorDryRun
  }

  class SafeExecutor {
    const approvalEnvVar: string
    const executor: Executor

    /** The executor stays in dry-run mode between calls. */
    ghost predicate Valid()
      reads this, executor
    {
      executor.Valid() && executor.dryRun
    }

    /** `SafeExecutor(approval_env_var)` with a fresh dry-run executor. */
    constructor(approvalEnvVar: string, canonicalJson: Json -> string, plainJson: Json -> string,
                digest: string -> string)
      ensures Valid() && fresh(executor)
      ensures this.approvalEnvVar == approvalEnvVar && executor.auditLog == []
      ensures executor.canonicalJson == canonicalJson && executor.plainJson == plainJson
      ensures executor.digest == digest
    {
      this.approvalEnvVar := approvalEnvVar;
      executor := new Executor(true, None, canonicalJson, plainJson, digest);
    }

    /**
     * `perform_with_safety(func_name, ..., justification, approval_token)`,
     * with `environ` for `os.environ` and `tools` for what the tools would
     * answer.
     */
    method PerformWithSafety(call: Call, justification: Option<string>, approvalToken: Option<string>,
                             environ: map<string, string>, tools: Tools)
      returns (out: SafeOutcome)
      requires Valid() && WellFormedCall(call)
      modifies executor
      ensures Valid()
      // A bad justification raises before anything is written.
      ensures !JustificationOk(justification) ==> out == Refused(JustificationError) && executor.auditLog == old(executor.auditLog)
      ensures JustificationOk(justification) ==>
                var approved := Approved(approvalToken, environ, approvalEnvVar);
                var safety := executor.Seal(AuditRecord("safety_check",
                                                        SafetyDetails(call, justification.value, approved)));
                match call
                case Unknown(name) =>
                  out == NoSuchOperation(name) && executor.auditLog == old(executor.auditLog) + [safety]
                case Known(op) =>
                  var mode := CallMode(approved, old(executor.dryRun));
                  out == Delegated(Expected(op, mode, tools, executor.plainJson))
                  && executor.auditLog == old(executor.auditLog) + [safety]
                       + (if Validate(op).Pass? then [executor.Seal(AuditedRecords(op, mode)[0])] else [])
    {
      if !JustificationOk(justification) {
        return Refused(JustificationError);
      }
      var approved := Approved(approvalToken, environ, approvalEnvVar);
      executor.Audit("safety_check", SafetyDetails(call, justification.value, approved));
      match call
      case Unknown(name) =>
        out := NoSuchOperation(name);
      case Known(op) =>
        if !approved {
          var r := executor.Perform(op, tools);
          out := Delegated(r);
        } else {
          var prev := executor.dryRun;
          executor.dryRun := false;
          var r := executor.Perform(op, tools);
          executor.dryRun := prev;
          out := Delegated(r);
        }
    }
  }

  /** Without approval a call is a dry run: it succeeds or fails validation,
      and never reaches a tool. */
  lemma UnapprovedIsDryRun(op: Operation, tools: Tools, other: Tools, dumps: Json -> string)
    ensures Expected(op, CallMode(false, true), tools, dumps) == Expected(op, CallMode(false, true), other, dumps)
    ensures Expected(op, CallMode(false, true), tools, dumps).Returned? ==>
              Expected(op, CallMode(false, true), tools, dumps).result.dryRun
              && Expected(op, CallMode(false, true), tools, dumps).result.success
  {
    DryRunUsesNoTool(op, tools, other, dumps);
  }
}
