/** Governed changes in the standalone store: a request is proposed, decided by an approver and applied
    once; retention policies, trust roots and hold releases take effect only through one. Every operation
    runs under the store's lock. The state is one tenant's records. */
module Governance {
  import opened Common

  type Time = int

  datatype Actor = Actor(kind: string, id: string, tenantId: string)

  datatype Risk = Low | Medium | High | Critical

  datatype TargetType = RetentionPolicy | TrustRootPolicy | LegalHoldRelease | Other

  datatype Status = Proposed | Approved | Rejected | Applied

  datatype Request = Request(
    targetType: TargetType, targetId: string, proposedDigest: string, expectedDigest: Option<string>, risk: Risk,
    proposedBy: Actor, status: Status, approvedBy: Option<Actor>)

  datatype Policy = Policy(policyId: string, tenantId: string, revision: nat, body: string)

  datatype TrustPolicy = TrustPolicy(policyId: string, body: string)

  datatype TrustRoot = TrustRoot(
    revision: nat, policy: TrustPolicy, digest: string, activatedAt: Time, retiredAt: Option<Time>, requestId: nat)

  datatype RotationPlan = RotationPlan(
    tenantId: string, fromRevision: nat, toRevision: nat, activateAt: Time, overlapUntil: Time, requestId: nat,
        emergency: bool)

  datatype Hold = Active | Released(requestId: nat, releasedBy: Actor)

  /** The SHA-256 digests of the governed documents. */
  datatype Digests = Digests(policy: Policy -> string, trust: TrustPolicy -> string, release: string -> string)

  datatype Audit =
    | ChangeProposed(requestId: nat)
    | ChangeApproved(requestId: nat, approver: Actor)
    | ChangeRejected(requestId: nat, approver: Actor)
    | ChangeApplied(requestId: nat, targetType: TargetType, targetId: string, before: Option<string>, after: string)
    | HoldPlaced(holdId: string)

  datatype State = State(
    tenantId: string, requests: map<nat, Request>, policies: seq<Policy>, holds: map<string, Hold>,
    roots: seq<TrustRoot>, audit: seq<Audit>)

  datatype Op =
    | Propose(requestId: nat, targetType: TargetType, targetId: string, digest: string, expected: Option<string>,
        risk: Risk)
    | Decide(requestId: nat, approve: bool)
    | ApplyPolicy(policy: Policy, requestId: nat)
    | PlaceHold(holdId: string)
    | ReleaseHold(holdId: string, requestId: nat)
    | Bootstrap(trust: TrustPolicy, activatedAt: Time, requestId: nat)
    | Rotate(plan: RotationPlan, trust: TrustPolicy)

  predicate NeedsIndependence(risk: Risk) { risk == High || risk == Critical }

  /** `_approved_request_locked`. */
  predicate Authorizes(s: State, id: nat, targetType: TargetType, targetId: string, digest: string,
                       current: Option<string>) {
    && id in s.requests && s.requests[id].status == Approved
    && s.requests[id].targetType == targetType && s.requests[id].targetId == targetId
    && s.requests[id].proposedDigest == digest && s.requests[id].expectedDigest == current
  }

  /** Mark the request applied and write the audit record that says what it was applied to. */
  function MarkApplied(s: State, id: nat, targetType: TargetType, targetId: string, before: Option<string>,
                       after: string): State
    requires id in s.requests
  {
    s.(requests := s.requests[id := s.requests[id].(status := Applied)],
       audit := s.audit + [ChangeApplied(id, targetType, targetId, before, after)])
  }

  function LastDigest(d: Digests, policies: seq<Policy>): Option<string> {
    if policies == [] then None else Some(d.policy(policies[|policies| - 1]))
  }

  function LastRevision(policies: seq<Policy>): nat {
    if policies == [] then 0 else policies[|policies| - 1].revision
  }

  function DecideStep(s: State, id: nat, approve: bool, actor: Actor): State {
    if id !in s.requests || s.requests[id].status != Proposed then s
    else if NeedsIndependence(s.requests[id].risk) && s.requests[id].proposedBy == actor then s
    else if !approve then
      s.(requests := s.requests[id := s.requests[id].(status := Rejected)],
          audit := s.audit + [ChangeRejected(id, actor)])
    else
      s.(requests := s.requests[id := s.requests[id].(status := Approved, approvedBy := Some(actor))],
         audit := s.audit + [ChangeApproved(id, actor)])
  }

  function ApplyPolicyStep(d: Digests, s: State, p: Policy, id: nat): State {
    var before := LastDigest(d, s.policies);
    if p.tenantId != s.tenantId || p.revision != LastRevision(s.policies) + 1 then s
    else if !Authorizes(s, id, RetentionPolicy, p.policyId, d.policy(p), before) then s
    else MarkApplied(s.(policies := s.policies + [p]), id, RetentionPolicy, p.policyId, before, d.policy(p))
  }

  function ReleaseStep(d: Digests, s: State, holdId: string, id: nat, actor: Actor): State {
    if holdId !in s.holds || s.holds[holdId] != Active then s
    else if !Authorizes(s, id, LegalHoldRelease, holdId, d.release(holdId), None) then s
    else
      MarkApplied(s.(holds := s.holds[holdId := Released(id, actor)]), id, LegalHoldRelease, holdId, None,
          d.release(holdId))
  }

  function BootstrapStep(d: Digests, s: State, trust: TrustPolicy, activatedAt: Time, id: nat): State {
    if s.roots != [] || !Authorizes(s, id, TrustRootPolicy, trust.policyId, d.trust(trust), None) then s
    else
      var root := TrustRoot(1, trust, d.trust(trust), activatedAt, None, id);
      MarkApplied(s.(roots := [root]), id, TrustRootPolicy, trust.policyId, None, d.trust(trust))
  }

  function RotateStep(d: Digests, s: State, plan: RotationPlan, trust: TrustPolicy, now: Time): State {
    if plan.tenantId != s.tenantId || (plan.activateAt < now && !plan.emergency) || s.roots == [] then s
    else
      var n := |s.roots| - 1;
      var current := s.roots[n];
      if current.revision != plan.fromRevision || plan.toRevision != current.revision + 1 then s
      else if !Authorizes(s, plan.requestId, TrustRootPolicy, trust.policyId, d.trust(trust), Some(current.digest)) then
        s
      else
        var next := TrustRoot(plan.toRevision, trust, d.trust(trust), plan.activateAt, None, plan.requestId);
        MarkApplied(s.(roots := s.roots[n := current.(retiredAt := Some(plan.overlapUntil))] + [next]),
                    plan.requestId, TrustRootPolicy, trust.policyId, Some(current.digest), d.trust(trust))
  }

  function Step(d: Digests, s: State, op: Op, actor: Actor, now: Time): State {
    match op
    case Propose(id, targetType, targetId, digest, expected, risk) =>
      s.(requests := s.requests[id := Request(targetType, targetId, digest, expected, risk, actor, Proposed, None)],
         audit := s.audit + [ChangeProposed(id)])
    case Decide(id, approve) => DecideStep(s, id, approve, actor)
    case ApplyPolicy(p, id) => ApplyPolicyStep(d, s, p, id)
    case PlaceHold(holdId) =>
      if holdId in s.holds then s else s.(holds := s.holds[holdId := Active], audit := s.audit + [HoldPlaced(holdId)])
    case ReleaseHold(holdId, id) => ReleaseStep(d, s, holdId, id, actor)
    case Bootstrap(trust, at, id) => BootstrapStep(d, s, trust, at, id)
    case Rotate(plan, trust) => RotateStep(d, s, plan, trust, now)
  }

  /** Request ids are freshly generated. */
  predicate Enabled(s: State, op: Op) {
    op.Propose? ==> op.requestId !in s.requests
  }

  datatype Event = Event(op: Op, actor: Actor, now: Time)

  ghost predicate Possible(d: Digests, s: State, run: seq<Event>)
    decreases |run|
  {
    run == [] || (Enabled(s, run[0].op) && Possible(d, Step(d, s, run[0].op, run[0].actor, run[0].now), run[1..]))
  }

  ghost function After(d: Digests, s: State, run: seq<Event>): State
    requires Possible(d, s, run)
    decreases |run|
  {
    if run == [] then s else After(d, Step(d, s, run[0].op, run[0].actor, run[0].now), run[1..])
  }

  function Empty(tenantId: string): State { State(tenantId, map[], [], map[], [], []) }

  // ---------------------------------------------------------------- what took effect, by its audit records

  /** The audit records of applied changes to targets of one type, in order. */
  function Applications(audit: seq<Audit>, targetType: TargetType): seq<Audit> {
    if audit == [] then []
    else
      var last := audit[|audit| - 1];
      Applications(audit[..|audit| - 1], targetType)
      + if last.ChangeApplied? && last.targetType == targetType then [last] else []
  }

  ghost predicate AppliedIn(audit: seq<Audit>, id: nat) {
    exists k | 0 <= k < |audit| :: audit[k].ChangeApplied? && audit[k].requestId == id
  }

  /** The approval a status claims is there, and independent where the risk asks for it. */
  predicate RequestOk(r: Request) {
    if r.status == Approved || r.status == Applied then
      r.approvedBy.Some? && (NeedsIndependence(r.risk) ==> r.approvedBy.value != r.proposedBy)
    else r.approvedBy.None?
  }

  /** The audit record of an application matches the request it names, which is applied. */
  predicate ApplicationOk(s: State, e: Audit)
    requires e.ChangeApplied?
  {
    && e.targetType != Other && e.requestId in s.requests
    && var r := s.requests[e.requestId];
       && r.status == Applied && r.targetType == e.targetType && r.targetId == e.targetId
       && r.proposedDigest == e.after && r.expectedDigest == e.before
  }

  ghost predicate RequestsOk(s: State) {
    forall id | id in s.requests ::
        RequestOk(s.requests[id]) && (s.requests[id].status == Applied ==> AppliedIn(s.audit, id))
  }

  ghost predicate ApplicationsOk(s: State) {
    && (forall k | 0 <= k < |s.audit| && s.audit[k].ChangeApplied? :: ApplicationOk(s, s.audit[k]))
    && (forall k, l | 0 <= k < l < |s.audit| && s.audit[k].ChangeApplied? && s.audit[l].ChangeApplied? ::
          s.audit[k].requestId != s.audit[l].requestId)
  }

  /** Policy `i` took effect through application `i`, which was approved against policy `i - 1`. */
  ghost predicate PolicyAt(d: Digests, tenantId: string, policies: seq<Policy>, apps: seq<Audit>, i: nat)
    requires i < |policies| == |apps|
  {
    && policies[i].revision == i + 1 && policies[i].tenantId == tenantId
    && apps[i].ChangeApplied? && apps[i].targetId == policies[i].policyId && apps[i].after == d.policy(policies[i])
    && apps[i].before == LastDigest(d, policies[..i])
  }

  ghost predicate PoliciesOk(d: Digests, s: State) {
    var apps := Applications(s.audit, RetentionPolicy);
    |apps| == |s.policies| && forall i | 0 <= i < |s.policies| :: PolicyAt(d, s.tenantId, s.policies, apps, i)
  }

  /** Root `i` took effect through application `i`; every root but the last has a retirement time. */
  ghost predicate RootAt(d: Digests, roots: seq<TrustRoot>, apps: seq<Audit>, i: nat)
    requires i < |roots| == |apps|
  {
    && roots[i].revision == i + 1 && roots[i].digest == d.trust(roots[i].policy)
    && (roots[i].retiredAt.None? <==> i == |roots| - 1)
    && apps[i].ChangeApplied? && apps[i].requestId == roots[i].requestId
    && apps[i].targetId == roots[i].policy.policyId && apps[i].after == roots[i].digest
    && apps[i].before == if i == 0 then None else Some(roots[i - 1].digest)
  }

  ghost predicate RootsOk(d: Digests, s: State) {
    var apps := Applications(s.audit, TrustRootPolicy);
    |apps| == |s.roots| && forall i | 0 <= i < |s.roots| :: RootAt(d, s.roots, apps, i)
  }

  /** The holds released are those with an application of their own, under the request the hold names. */
  ghost predicate HoldsOk(d: Digests, s: State) {
    && (forall h | h in s.holds && s.holds[h].Released? ::
          ChangeApplied(s.holds[h].requestId, LegalHoldRelease, h, None, d.release(h)) in s.audit)
    && (forall k | 0 <= k < |s.audit| && s.audit[k].ChangeApplied? && s.audit[k].targetType == LegalHoldRelease ::
          s.audit[k].targetId in s.holds && s.holds[s.audit[k].targetId].Released?
          && s.holds[s.audit[k].targetId].requestId == s.audit[k].requestId)
  }

  ghost predicate Inv(d: Digests, s: State) {
    RequestsOk(s) && ApplicationsOk(s) && PoliciesOk(d, s) && RootsOk(d, s) && HoldsOk(d, s)
  }

  // ---------------------------------------------------------------- the store

  class InMemoryGovernanceStore {
    const tenantId: string
    const digests: Digests
    var requests: map<nat, Request>
    var policies: seq<Policy>
    var holds: map<string, Hold>
    var roots: seq<TrustRoot>
    var audit: seq<Audit>

    ghost function Contents(): State
      reads this
    {
      State(tenantId, requests, policies, holds, roots, audit)
    }

    constructor (tenantId: string, digests: Digests)
      ensures Contents() == Empty(tenantId) && this.digests == digests
    {
      this.tenantId, this.digests := tenantId, digests;
      requests, policies, holds, roots, audit := map[], [], map[], [], [];
    }

    method ProposeChange(requestId: nat, targetType: TargetType, targetId: string, digest: string,
                         expected: Option<string>, risk: Risk, actor: Actor, now: Time)
      modifies this
      ensures Contents()
              == Step(digests, old(Contents()), Propose(requestId, targetType, targetId, digest, expected, risk), actor,
                  now)
    {
      requests := requests[requestId := Request(targetType, targetId, digest, expected, risk, actor, Proposed, None)];
      audit := audit + [ChangeProposed(requestId)];
    }

    method ApproveChange(requestId: nat, approve: bool, actor: Actor, now: Time)
      modifies this
      ensures Contents() == Step(digests, old(Contents()), Decide(requestId, approve), actor, now)
    {
      if requestId !in requests || requests[requestId].status != Proposed {
        return;
      }
      var request := requests[requestId];
      if NeedsIndependence(request.risk) && request.proposedBy == actor {
        return;
      }
      if !approve {
        requests := requests[requestId := request.(status := Rejected)];
        audit := audit + [ChangeRejected(requestId, actor)];
      } else {
        requests := requests[requestId := request.(status := Approved, approvedBy := Some(actor))];
        audit := audit + [ChangeApproved(requestId, actor)];
      }
    }

    method ApplyRetentionPolicy(policy: Policy, requestId: nat, actor: Actor, now: Time)
      modifies this
      ensures Contents() == Step(digests, old(Contents()), ApplyPolicy(policy, requestId), actor, now)
    {
      hide Authorizes;
      if policy.tenantId != tenantId {
        return;
      }
      var before, expectedRevision: nat := None, 1;
      if policies != [] {
        var current := policies[|policies| - 1];
        before, expectedRevision := Some(digests.policy(current)), current.revision + 1;
      }
      var after := digests.policy(policy);
      ApprovalMeans(requestId, RetentionPolicy, policy.policyId, after, before);
      if policy.revision != expectedRevision || !Approval(requestId, RetentionPolicy, policy.policyId, after, before) {
        return;
      }
      policies := policies + [policy];
      Apply(requestId, RetentionPolicy, policy.policyId, before, after);
    }

    method PlaceLegalHold(holdId: string, actor: Actor, now: Time)
      modifies this
      ensures Contents() == Step(digests, old(Contents()), PlaceHold(holdId), actor, now)
    {
      if holdId !in holds {
        holds := holds[holdId := Active];
        audit := audit + [HoldPlaced(holdId)];
      }
    }

    method ReleaseLegalHold(holdId: string, requestId: nat, actor: Actor, now: Time)
      modifies this
      ensures Contents() == Step(digests, old(Contents()), ReleaseHold(holdId, requestId), actor, now)
    {
      hide Authorizes;
      if holdId !in holds || holds[holdId] != Active {
        return;
      }
      var digest := digests.release(holdId);
      ApprovalMeans(requestId, LegalHoldRelease, holdId, digest, None);
      if !Approval(requestId, LegalHoldRelease, holdId, digest, None) {
        return;
      }
      holds := holds[holdId := Released(requestId, actor)];
      Apply(requestId, LegalHoldRelease, holdId, None, digest);
    }

    method BootstrapTrustRoot(trust: TrustPolicy, activatedAt: Time, requestId: nat, actor: Actor, now: Time)
      modifies this
      ensures Contents() == Step(digests, old(Contents()), Bootstrap(trust, activatedAt, requestId), actor, now)
    {
      hide Authorizes;
      var digest := digests.trust(trust);
      if roots != [] {
        return;
      }
      ApprovalMeans(requestId, TrustRootPolicy, trust.policyId, digest, None);
      if !Approval(requestId, TrustRootPolicy, trust.policyId, digest, None) {
        return;
      }
      roots := [TrustRoot(1, trust, digest, activatedAt, None, requestId)];
      Apply(requestId, TrustRootPolicy, trust.policyId, None, digest);
    }

    method RotateTrustRoot(plan: RotationPlan, trust: TrustPolicy, actor: Actor, now: Time)
      modifies this
      ensures Contents() == Step(digests, old(Contents()), Rotate(plan, trust), actor, now)
    {
      hide Authorizes;
      if plan.tenantId != tenantId || (plan.activateAt < now && !plan.emergency) || roots == [] {
        return;
      }
      var digest := digests.trust(trust);
      var current := roots[|roots| - 1];
      if current.revision != plan.fromRevision || plan.toRevision != current.revision + 1 {
        return;
      }
      ApprovalMeans(plan.requestId, TrustRootPolicy, trust.policyId, digest, Some(current.digest));
      if !Approval(plan.requestId, TrustRootPolicy, trust.policyId, digest, Some(current.digest)) {
        return;
      }
      roots := roots[|roots| - 1 := current.(retiredAt := Some(plan.overlapUntil))];
      roots := roots + [TrustRoot(plan.toRevision, trust, digest, plan.activateAt, None, plan.requestId)];
      Apply(plan.requestId, TrustRootPolicy, trust.policyId, Some(current.digest), digest);
    }

    predicate Approval(id: nat, targetType: TargetType, targetId: string, digest: string, current: Option<string>)
      reads this
    {
      && id in requests && requests[id].status == Approved
      && requests[id].targetType == targetType && requests[id].targetId == targetId
      && requests[id].proposedDigest == digest && requests[id].expectedDigest == current
    }

    lemma ApprovalMeans(id: nat, targetType: TargetType, targetId: string, digest: string, current: Option<string>)
      ensures Approval(id, targetType, targetId, digest, current)
              <==> Authorizes(Contents(), id, targetType, targetId, digest, current)
    {
    }

    /** `_mark_applied_locked` and the audit record that goes with it. */
    method Apply(id: nat, targetType: TargetType, targetId: string, before: Option<string>, after: string)
      requires id in requests
      modifies this
      ensures Contents() == MarkApplied(old(Contents()), id, targetType, targetId, before, after)
    {
      requests := requests[id := requests[id].(status := Applied)];
      audit := audit + [ChangeApplied(id, targetType, targetId, before, after)];
    }
  }
}
