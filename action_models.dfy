/** Remediation actions and their approval state (backend/app/models/actions.py). */
module ActionModels {
  import opened Wrappers

  datatype ApprovalStatus = Pending | Approved | Rejected | RolledBack {

    function Value(): string
    {
      match this
      case Pending => "pending"
      case Approved => "approved"
      case Rejected => "rejected"
      case RolledBack => "rolled_back"
    }
  }

  const AllApprovalStatuses: seq<ApprovalStatus> := [Pending, Approved, Rejected, RolledBack]

  lemma ApprovalStatusMembers()
    ensures |AllApprovalStatuses| == 4
    ensures forall s: ApprovalStatus :: s in AllApprovalStatuses
    ensures forall i, j :: 0 <= i < j < 4 ==>
              AllApprovalStatuses[i].Value() != AllApprovalStatuses[j].Value()
  {
    forall s: ApprovalStatus ensures s in AllApprovalStatuses {
      match s
      case Pending => assert AllApprovalStatuses[0] == s;
      case Approved => assert AllApprovalStatuses[1] == s;
      case Rejected => assert AllApprovalStatuses[2] == s;
      case RolledBack => assert AllApprovalStatuses[3] == s;
    }
  }

  datatype RiskLevel = Low | Medium | High | Critical {

    function Value(): string
    {
      match this
      case Low => "low"
      case Medium => "medium"
      case High => "high"
      case Critical => "critical"
    }
  }

  const AllRiskLevels: seq<RiskLevel> := [Low, Medium, High, Critical]

  lemma RiskLevelMembers()
    ensures |AllRiskLevels| == 4
    ensures forall r: RiskLevel :: r in AllRiskLevels
    ensures forall i, j :: 0 <= i < j < 4 ==> AllRiskLevels[i].Value() != AllRiskLevels[j].Value()
  {
    forall r: RiskLevel ensures r in AllRiskLevels {
      match r
      case Low => assert AllRiskLevels[0] == r;
      case Medium => assert AllRiskLevels[1] == r;
      case High => assert AllRiskLevels[2] == r;
      case Critical => assert AllRiskLevels[3] == r;
    }
  }

  datatype RemediationAction = RemediationAction(
    id: string,
    incidentId: string,
    title: string,
    description: string,
    commandHint: string,
    riskLevel: RiskLevel,
    approvalStatus: ApprovalStatus,
    approvedBy: Option<string>,
    approvedAt: Option<int>,
    createdAt: int,
    rollbackDescription: string)

  /**
   * `RemediationAction(...)`: the optional keyword arguments are `None` when
   * not given and then take their declared defaults. A new action is always
   * PENDING with no approver and no approval time.
   */
  function NewRemediationAction(freshId: string, incidentId: string, title: string,
                                description: string, commandHint: Option<string>,
                                riskLevel: Option<RiskLevel>,
                                rollbackDescription: Option<string>, now: int): (a: RemediationAction)
    ensures a.id == freshId && a.incidentId == incidentId
    ensures a.title == title && a.description == description
    ensures a.commandHint == (if commandHint.Some? then commandHint.value else "")
    ensures a.riskLevel == (if riskLevel.Some? then riskLevel.value else Medium)
    ensures a.rollbackDescription == (if rollbackDescription.Some? then rollbackDescription.value else "")
    ensures a.approvalStatus == Pending
    ensures a.approvedBy == None && a.approvedAt == None
    ensures a.createdAt == now
  {
    RemediationAction(freshId, incidentId, title, description, commandHint.GetOr(""),
                      riskLevel.GetOr(Medium), Pending, None, None, now,
                      rollbackDescription.GetOr(""))
  }
}
