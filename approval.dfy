/**
 * The human-in-the-loop approval workflow (backend/app/governance/approval.py).
 * The manager keeps remediation actions by id in a dict, whose insertion
 * order is the order of its listings. An action moves PENDING -> APPROVED,
 * PENDING -> REJECTED or APPROVED -> ROLLED_BACK; any other request leaves
 * everything unchanged and answers `None`.
 */
module Approval {
  import opened Wrappers
  import opened SeqUtil
  import opened ActionModels

  /** The default `approved_by` / `rejected_by` argument. */
  const DefaultActor := "admin"

  // ---- Transitions of one action ------------------------------------------

  /** A request against one action: approve or reject by an actor at a
      time, or roll back. */
  datatype Request = ApproveRequest(approvedBy: string, at: int)
                   | RejectRequest(rejectedBy: string, at: int)
                   | RollbackRequest

  /** The legal status changes. */
  predicate Legal(from: ApprovalStatus, to: ApprovalStatus)
  {
    (from == Pending && to == Approved)
    || (from == Pending && to == Rejected)
    || (from == Approved && to == RolledBack)
  }

  /** The fields a transition never touches are those of `b` as of `a`. */
  predicate SameAction(a: RemediationAction, b: RemediationAction)
  {
    a.id == b.id && a.incidentId == b.incidentId && a.title == b.title
    && a.description == b.description && a.commandHint == b.commandHint
    && a.riskLevel == b.riskLevel && a.createdAt == b.createdAt
    && a.rollbackDescription == b.rollbackDescription
  }

  /**
   * The body of `approve_action`, `reject_action` or `rollback_action` once
   * the action is found. Approve and reject succeed only from PENDING and
   * record the actor and the time in `approved_by` / `approved_at`;
   * rollback succeeds only from APPROVED and keeps those fields.
   */
  function Apply(a: RemediationAction, req: Request): (r: Option<RemediationAction>)
    ensures r.Some? <==> (if req.RollbackRequest? then a.approvalStatus == Approved
                          else a.approvalStatus == Pending)
    ensures r.Some? ==> SameAction(a, r.value) && Legal(a.approvalStatus, r.value.approvalStatus)
    ensures r.Some? && req.ApproveRequest? ==>
              r.value.approvalStatus == Approved
              && r.value.approvedBy == Some(req.approvedBy) && r.value.approvedAt == Some(req.at)
    ensures r.Some? && req.RejectRequest? ==>
              r.value.approvalStatus == Rejected
              && r.value.approvedBy == Some(req.rejectedBy) && r.value.approvedAt == Some(req.at)
    ensures r.Some? && req.RollbackRequest? ==>
              r.value.approvalStatus == RolledBack
              && r.value.approvedBy == a.approvedBy && r.value.approvedAt == a.approvedAt
  {
    match req
    case ApproveRequest(actor, at) =>
      if a.approvalStatus == Pending
      then Some(a.(approvalStatus := Approved, approvedBy := Some(actor), approvedAt := Some(at)))
      else None
    case RejectRequest(actor, at) =>
      if a.approvalStatus == Pending
      then Some(a.(approvalStatus := Rejected, approvedBy := Some(actor), approvedAt := Some(at)))
      else None
    case RollbackRequest =>
      if a.approvalStatus == Approved
      then Some(a.(approvalStatus := RolledBack))
      else None
  }

  /** REJECTED and ROLLED_BACK are terminal: every request fails on them. */
  lemma Terminal(a: RemediationAction, req: Request)
    requires a.approvalStatus == Rejected || a.approvalStatus == RolledBack
    ensures Apply(a, req) == None
  {
  }

  /** Every legal status change is made by some request, so `Legal` is
      exactly the transition relation of `Apply`. */
  lemma LegalIsReachable(a: RemediationAction, to: ApprovalStatus)
    requires Legal(a.approvalStatus, to)
    ensures to == Approved ==> Apply(a, ApproveRequest(DefaultActor, 0)).Some?
    ensures to == Rejected ==> Apply(a, RejectRequest(DefaultActor, 0)).Some?
    ensures to == RolledBack ==> Apply(a, RollbackRequest).Some?
    ensures exists req :: Apply(a, req).Some? && Apply(a, req).value.approvalStatus == to
  {
    if to == Approved {
      assert Apply(a, ApproveRequest(DefaultActor, 0)).value.approvalStatus == to;
    } else if to == Rejected {
      assert Apply(a, RejectRequest(DefaultActor, 0)).value.approvalStatus == to;
    } else {
      assert Apply(a, RollbackRequest).value.approvalStatus == to;
    }
  }

  /** How far along the workflow a status is. */
  function Stage(s: ApprovalStatus): (n: nat)
    ensures n <= 2
    ensures n == 0 <==> s == Pending
  {
    match s
    case Pending => 0
    case Approved => 1
    case Rejected => 2
    case RolledBack => 2
  }

  /** A series of requests against one action: the final action and the
      number of requests that succeeded. */
  function Run(a: RemediationAction, reqs: seq<Request>): (RemediationAction, nat)
    decreases |reqs|
  {
    if reqs == [] then (a, 0)
    else
      var r := Apply(a, reqs[0]);
      if r.Some? then
        var (b, n) := Run(r.value, reqs[1..]);
        (b, n + 1)
      else Run(a, reqs[1..])
  }

  /** Whatever the requests, an action changes status at most twice (once
      from PENDING and once from APPROVED), only ever moves forward, and
      keeps its identity and content. */
  lemma {:induction false} RunBounded(a: RemediationAction, reqs: seq<Request>)
    ensures Run(a, reqs).1 + Stage(a.approvalStatus) <= 2
    ensures Stage(a.approvalStatus) <= Stage(Run(a, reqs).0.approvalStatus)
    ensures Run(a, reqs).1 > 0 ==> Stage(a.approvalStatus) < Stage(Run(a, reqs).0.approvalStatus)
    ensures SameAction(a, Run(a, reqs).0)
    decreases |reqs|
  {
    if reqs != [] {
      var r := Apply(a, reqs[0]);
      if r.Some? {
        RunBounded(r.value, reqs[1..]);
      } else {
        RunBounded(a, reqs[1..]);
      }
    }
  }

  // ---- The store ------------------------------------------------------------

  /** `register_actions` on a dict: each action is stored under its id, so a
      later action overwrites an earlier one with the same id. */
  function Registered(m: map<string, RemediationAction>, acts: seq<RemediationAction>): map<string, RemediationAction>
  {
    if acts == [] then m
    else Registered(m, acts[..|acts| - 1])[acts[|acts| - 1].id := acts[|acts| - 1]]
  }

  /** The dict's key order after `register_actions`: a new id goes last, an
      overwritten one keeps its place. */
  function RegisteredOrder(order: seq<string>, acts: seq<RemediationAction>): seq<string>
  {
    if acts == [] then order
    else
      var o := RegisteredOrder(order, acts[..|acts| - 1]);
      if acts[|acts| - 1].id in o then o else o + [acts[|acts| - 1].id]
  }

  lemma {:induction false} RegisteredKeys(m: map<string, RemediationAction>, acts: seq<RemediationAction>)
    ensures forall k :: k in Registered(m, acts) <==>
              k in m || exists j :: 0 <= j < |acts| && acts[j].id == k
  {
    if acts != [] {
      var p := acts[..|acts| - 1];
      RegisteredKeys(m, p);
      forall k | k in m || exists j :: 0 <= j < |acts| && acts[j].id == k
        ensures k in Registered(m, acts)
      {
        if k != acts[|acts| - 1].id && k !in m {
          var j :| 0 <= j < |acts| && acts[j].id == k;
          assert p[j] == acts[j];
        }
      }
    }
  }

  lemma {:induction false} RegisteredLast(m: map<string, RemediationAction>, acts: seq<RemediationAction>, i: nat)
    requires i < |acts| && forall j :: i < j < |acts| ==> acts[j].id != acts[i].id
    ensures acts[i].id in Registered(m, acts) && Registered(m, acts)[acts[i].id] == acts[i]
  {
    var p := acts[..|acts| - 1];
    if i < |p| {
      assert acts[i] == p[i];
      assert forall j :: i < j < |p| ==> p[j] == acts[j];
      RegisteredLast(m, p, i);
    }
  }

  lemma {:induction false} RegisteredOthers(m: map<string, RemediationAction>, acts: seq<RemediationAction>, k: string)
    requires k in m && forall j :: 0 <= j < |acts| ==> acts[j].id != k
    ensures k in Registered(m, acts) && Registered(m, acts)[k] == m[k]
  {
    if acts != [] {
      var p := acts[..|acts| - 1];
      assert forall j :: 0 <= j < |p| ==> p[j] == acts[j];
      RegisteredOthers(m, p, k);
    }
  }

  /** Registering stores exactly the given ids in addition to the old ones,
      each under the last action given with that id, and leaves every other
      entry as it was; the stored actions are the given ones, statuses and
      all. */
  lemma RegisteredSpec(m: map<string, RemediationAction>, acts: seq<RemediationAction>)
    ensures forall k :: k in Registered(m, acts) <==>
              k in m || exists j :: 0 <= j < |acts| && acts[j].id == k
    ensures forall i :: 0 <= i < |acts| && (forall j :: i < j < |acts| ==> acts[j].id != acts[i].id) ==>
              Registered(m, acts)[acts[i].id] == acts[i]
    ensures forall k :: k in m && (forall j :: 0 <= j < |acts| ==> acts[j].id != k) ==>
              Registered(m, acts)[k] == m[k]
  {
    RegisteredKeys(m, acts);
    forall i | 0 <= i < |acts| && (forall j :: i < j < |acts| ==> acts[j].id != acts[i].id)
      ensures Registered(m, acts)[acts[i].id] == acts[i]
    {
      RegisteredLast(m, acts, i);
    }
    forall k | k in m && (forall j :: 0 <= j < |acts| ==> acts[j].id != k)
      ensures Registered(m, acts)[k] == m[k]
    {
      RegisteredOthers(m, acts, k);
    }
  }

  /** Which actions a listing keeps. */
  datatype Criterion = ForIncident(incidentId: string) | AwaitingApproval

  predicate Matches(a: RemediationAction, c: Criterion)
  {
    match c
    case ForIncident(incidentId) => a.incidentId == incidentId
    case AwaitingApproval => a.approvalStatus == Pending
  }

  /** Stored actions are filed under their own ids. */
  ghost predicate Filed(m: map<string, RemediationAction>, ids: seq<string>)
  {
    forall k :: k in ids ==> k in m && m[k].id == k
  }

  /** `[a for a in self._actions.values() if ...]` over the keys `ids`. */
  function Selected(m: map<string, RemediationAction>, ids: seq<string>, c: Criterion): (r: seq<RemediationAction>)
    requires Filed(m, ids)
    ensures |r| <= |ids|
    ensures forall a :: a in r ==> Matches(a, c) && a.id in ids && m[a.id] == a
    ensures forall k :: k in ids && Matches(m[k], c) ==> m[k] in r
  {
    if ids == [] then []
    else
      var k := ids[|ids| - 1];
      var p := ids[..|ids| - 1];
      assert forall x :: x in ids ==> x in p || x == k;
      Selected(m, p, c) + (if Matches(m[k], c) then [m[k]] else [])
  }

  /** The selection keeps the order of `ids` and lists each action once. */
  lemma {:induction false} SelectedOrder(m: map<string, RemediationAction>, ids: seq<string>, c: Criterion)
    requires Filed(m, ids) && NoDuplicates(ids)
    ensures forall i, j :: 0 <= i < j < |Selected(m, ids, c)| ==>
              IndexOf(ids, Selected(m, ids, c)[i].id) < IndexOf(ids, Selected(m, ids, c)[j].id)
  {
    if ids != [] {
      var k := ids[|ids| - 1];
      var p := ids[..|ids| - 1];
      assert Filed(m, p);
      SelectedOrder(m, p, c);
      var s := Selected(m, p, c);
      var r := Selected(m, ids, c);
      forall i, j | 0 <= i < j < |r| ensures IndexOf(ids, r[i].id) < IndexOf(ids, r[j].id) {
        assert r[i] == s[i] && s[i] in s;
        IndexOfInit(ids, r[i].id);
        if j < |s| {
          assert r[j] == s[j] && s[j] in s;
          IndexOfInit(ids, r[j].id);
        } else {
          assert r[j] == m[k] && m[k].id == k;
          IndexOfLast(ids);
        }
      }
    }
  }

  /** The store of `ApprovalManager`. */
  class ApprovalManager {
    var actions: map<string, RemediationAction>
    /** The keys of `actions` in insertion order. */
    var order: seq<string>

    ghost predicate Valid()
      reads this
    {
      NoDuplicates(order)
      && (forall k :: k in actions <==> k in order)
      && Filed(actions, order)
    }

    constructor()
      ensures Valid() && actions == map[] && order == []
    {
      actions := map[];
      order := [];
    }

    /** `register_actions(acts)`. */
    method RegisterActions(acts: seq<RemediationAction>)
      requires Valid()
      modifies this
      ensures Valid()
      ensures actions == Registered(old(actions), acts)
      ensures order == RegisteredOrder(old(order), acts)
    {
      var i := 0;
      while i < |acts|
        invariant 0 <= i <= |acts|
        invariant Valid()
        invariant actions == Registered(old(actions), acts[..i])
        invariant order == RegisteredOrder(old(order), acts[..i])
      {
        var a := acts[i];
        assert acts[..i + 1][..i] == acts[..i];
        if a.id !in actions {
          order := order + [a.id];
        }
        actions := actions[a.id := a];
        i := i + 1;
      }
      assert acts[..|acts|] == acts;
    }

    /** `get_action(id)`. */
    function GetAction(actionId: string): (r: Option<RemediationAction>)
      reads this
      ensures r.Some? <==> actionId in actions
      ensures r.Some? ==> r.value == actions[actionId]
    {
      if actionId in actions then Some(actions[actionId]) else None
    }

    /** `get_all()`: every stored action once, in insertion order. */
    function GetAll(): (r: seq<RemediationAction>)
      requires Valid()
      reads this
      ensures |r| == |order| == |actions|
      ensures forall a :: a in r <==> a in actions.Values
      ensures forall i :: 0 <= i < |r| ==> r[i].id == order[i]
    {
      NoDuplicatesCard(order, actions);
      var r := ValuesOf(actions, order);
      assert forall a :: a in actions.Values ==> a in r by {
        forall a | a in actions.Values ensures a in r {
          var k :| k in actions && actions[k] == a;
          assert r[IndexOf(order, k)] == a;
        }
      }
      r
    }

    /** `get_actions_for_incident(incident_id)`: exactly the stored actions
        of that incident, in insertion order. */
    function GetActionsForIncident(incidentId: string): (r: seq<RemediationAction>)
      requires Valid()
      reads this
      ensures forall k :: k in actions ==> (actions[k] in r <==> actions[k].incidentId == incidentId)
      ensures forall a :: a in r ==> a.incidentId == incidentId && a.id in actions && actions[a.id] == a
      ensures forall i, j :: 0 <= i < j < |r| ==> IndexOf(order, r[i].id) < IndexOf(order, r[j].id)
    {
      SelectedOrder(actions, order, ForIncident(incidentId));
      Selected(actions, order, ForIncident(incidentId))
    }

    /** `get_pending_actions()`: exactly the stored PENDING actions, in
        insertion order. */
    function GetPendingActions(): (r: seq<RemediationAction>)
      requires Valid()
      reads this
      ensures forall k :: k in actions ==> (actions[k] in r <==> actions[k].approvalStatus == Pending)
      ensures forall a :: a in r ==> a.approvalStatus == Pending && a.id in actions && actions[a.id] == a
      ensures forall i, j :: 0 <= i < j < |r| ==> IndexOf(order, r[i].id) < IndexOf(order, r[j].id)
    {
      SelectedOrder(actions, order, AwaitingApproval);
      Selected(actions, order, AwaitingApproval)
    }

    /** Looks the action up and applies the request; only that entry can
        change, and the key order never does. */
    method Transition(actionId: string, req: Request) returns (r: Option<RemediationAction>)
      requires Valid()
      modifies this
      ensures Valid() && order == old(order)
      ensures r == (if actionId in old(actions) then Apply(old(actions)[actionId], req) else None)
      ensures actions == (if r.Some? then old(actions)[actionId := r.value] else old(actions))
      ensures forall k :: k in old(actions) && k != actionId ==> k in actions && actions[k] == old(actions)[k]
    {
      r := if actionId in actions then Apply(actions[actionId], req) else None;
      if r.Some? {
        actions := actions[actionId := r.value];
      }
    }

    /** `approve_action(id, approved_by)` at time `now`. */
    method ApproveAction(actionId: string, approvedBy: string, now: int) returns (r: Option<RemediationAction>)
      requires Valid()
      modifies this
      ensures Valid() && order == old(order)
      ensures r == (if actionId in old(actions) then Apply(old(actions)[actionId], ApproveRequest(approvedBy, now)) else None)
      ensures actions == (if r.Some? then old(actions)[actionId := r.value] else old(actions))
    {
      r := Transition(actionId, ApproveRequest(approvedBy, now));
    }

    /** `reject_action(id, rejected_by)` at time `now`. */
    method RejectAction(actionId: string, rejectedBy: string, now: int) returns (r: Option<RemediationAction>)
      requires Valid()
      modifies this
      ensures Valid() && order == old(order)
      ensures r == (if actionId in old(actions) then Apply(old(actions)[actionId], RejectRequest(rejectedBy, now)) else None)
      ensures actions == (if r.Some? then old(actions)[actionId := r.value] else old(actions))
    {
      r := Transition(actionId, RejectRequest(rejectedBy, now));
    }

    /** `rollback_action(id)`. */
    method RollbackAction(actionId: string) returns (r: Option<RemediationAction>)
      requires Valid()
      modifies this
      ensures Valid() && order == old(order)
      ensures r == (if actionId in old(actions) then Apply(old(actions)[actionId], RollbackRequest) else None)
      ensures actions == (if r.Some? then old(actions)[actionId := r.value] else old(actions))
    {
      r := Transition(actionId, RollbackRequest);
    }

    /** `clear()`. */
    method Clear()
      modifies this
      ensures Valid() && actions == map[] && order == []
    {
      actions := map[];
      order := [];
    }
  }
}
