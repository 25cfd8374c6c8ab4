/**
 * The Surgeon (backend/app/reasoning/surgeon.py) turns a remediation
 * action's description into one SafeExecutor call by case-insensitive
 * keyword tests and by picking a whitespace-separated token as the target.
 * It never passes an approval token, so whatever it runs is a dry run.
 */
module Surgeons {
  import opened Wrappers
  import opened TextUtil
  import opened Json
  import opened Executors
  import opened Sandbox

  /** The replica count a "scale" description is mapped to. */
  const ScaleCount := 3

  /** The keyword tests and the token each one picks. */
  datatype Plan =
    | Dispatch(call: Call)
    /** "scale" matched but `split()[-3]` raises `IndexError`. */
    | NoTarget
    /** Neither keyword occurs. */
    | NoMapping

  /** A description that contains a keyword without blanks, in any case,
      has a word. */
  lemma KeywordGivesWords(description: string, keyword: string)
    requires keyword != [] && forall i :: 0 <= i < |keyword| ==> !IsSpace(keyword[i])
    requires Contains(Lower(description), keyword)
    ensures Words(description) != []
  {
    ContainsIff(Lower(description), keyword);
    var i :| OccursAt(Lower(description), keyword, i);
    assert Lower(description)[i] == keyword[0];
    LowerKeepsSpaces(description);
    assert !IsSpace(description[i]);
    WordsEmptyIff(description);
  }

  lemma RestartGivesWords(description: string)
    requires Contains(Lower(description), "restart")
    ensures Words(description) != []
  {
    KeywordGivesWords(description, "restart");
  }

  /** `remediate`'s choice of call. "restart" wins over "scale" and targets
      the last word; "scale" targets the third word from the end with
      three replicas; both use the default namespace. */
  function SurgeonPlan(description: string): (p: Plan)
    ensures Contains(Lower(description), "restart") ==>
              Words(description) != []
              && p == Dispatch(Known(RestartDeployment(Words(description)[|Words(description)| - 1], DefaultNamespace)))
    ensures !Contains(Lower(description), "restart") && Contains(Lower(description), "scale") ==>
              if |Words(description)| >= 3
              then p == Dispatch(Known(ScaleDeployment(Words(description)[|Words(description)| - 3], ScaleCount, DefaultNamespace)))
              else p == NoTarget
    ensures !Contains(Lower(description), "restart") && !Contains(Lower(description), "scale") ==> p == NoMapping
  {
    var low := Lower(description);
    var words := Words(description);
    if Contains(low, "restart") then
      RestartGivesWords(description);
      Dispatch(Known(RestartDeployment(words[|words| - 1], DefaultNamespace)))
    else if Contains(low, "scale") then
      if |words| >= 3 then Dispatch(Known(ScaleDeployment(words[|words| - 3], ScaleCount, DefaultNamespace)))
      else NoTarget
    else NoMapping
  }

  /** Every call the Surgeon makes is a known executor operation, and its
      target is a non-empty word of the description. */
  lemma PlanTargetsAWord(description: string)
    requires SurgeonPlan(description).Dispatch?
    ensures SurgeonPlan(description).call.Known?
    ensures SurgeonPlan(description).call.op.RestartDeployment? || SurgeonPlan(description).call.op.ScaleDeployment?
    ensures SurgeonPlan(description).call.op.name in Words(description)
    ensures Validate(SurgeonPlan(description).call.op).Pass?
  {
  }

  /** What `remediate` returns. */
  datatype Remediation =
    | Performed(outcome: SafeOutcome)
    | Skipped(status: string, reason: string)
    /** `split()[-3]` raised `IndexError`. */
    | TargetMissing

  const SkippedReason := "Action mapping not found for surgeon"

  class Surgeon {
    const executor: SafeExecutor

    ghost predicate Valid()
      reads this, executor, executor.executor
    {
      executor.Valid()
    }

    constructor(canonicalJson: Json -> string, plainJson: Json -> string, digest: string -> string)
      ensures Valid() && fresh(executor) && fresh(executor.executor)
      ensures executor.approvalEnvVar == DefaultApprovalEnvVar
    {
      executor := new SafeExecutor(DefaultApprovalEnvVar, canonicalJson, plainJson, digest);
    }

    /** `remediate(action_description, justification)`; `environ` and
        `tools` are the environment the SafeExecutor would see. */
    method Remediate(description: string, justification: string, environ: map<string, string>, tools: Tools)
      returns (out: Remediation)
      requires Valid()
      modifies executor.executor
      ensures Valid()
      ensures SurgeonPlan(description) == NoMapping ==>
                out == Skipped("skipped", SkippedReason) && executor.executor.auditLog == old(executor.executor.auditLog)
      ensures SurgeonPlan(description) == NoTarget ==>
                out == TargetMissing && executor.executor.auditLog == old(executor.executor.auditLog)
      ensures SurgeonPlan(description).Dispatch? ==>
                out == Performed(if JustificationOk(Some(justification))
                                 then Delegated(Expected(SurgeonPlan(description).call.op, true, tools,
                                                         executor.executor.plainJson))
                                 else Refused(JustificationError))
      // A dispatched call with a passing justification writes the
      // safety_check record (never approved) and then the operation's own
      // record in dry-run mode; a refused one writes nothing.
      ensures SurgeonPlan(description).Dispatch? ==>
                var call := SurgeonPlan(description).call;
                executor.executor.auditLog == old(executor.executor.auditLog)
                  + (if JustificationOk(Some(justification))
                     then [executor.executor.Seal(AuditRecord("safety_check", SafetyDetails(call, justification, false))),
                           executor.executor.Seal(AuditRecord(OperationName(call.op), AuditDetails(call.op, true)))]
                     else [])
      // No approval token is passed, so the call never leaves dry-run mode.
      ensures out.Performed? && out.outcome.Delegated? ==>
                out.outcome.outcome.Returned? && out.outcome.outcome.result.dryRun
                && out.outcome.outcome.result.success
    {
      var plan := SurgeonPlan(description);
      match plan
      case NoMapping =>
        out := Skipped("skipped", SkippedReason);
      case NoTarget =>
        out := TargetMissing;
      case Dispatch(call) =>
        PlanTargetsAWord(description);
        var r := executor.PerformWithSafety(call, Some(justification), None, environ, tools);
        out := Performed(r);
    }
  }
}
