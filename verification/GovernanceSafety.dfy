/** Governed state matches approvals: whatever took effect did so through one applied request of its own,
    with the same target and digest, approved against the state it replaced. */
module GovernanceSafety {
  import opened Common
  import opened Governance

  // ---------------------------------------------------------------- appending audit records

  lemma ApplicationsAppend(audit: seq<Audit>, e: Audit, targetType: TargetType)
    ensures Applications(audit + [e], targetType)
         == Applications(audit, targetType) + (if e.ChangeApplied? && e.targetType == targetType then [e] else [])
  {
    assert (audit + [e])[..|audit|] == audit;
  }

  lemma AppliedAppend(audit: seq<Audit>, e: Audit, id: nat)
    ensures AppliedIn(audit + [e], id) <==> AppliedIn(audit, id) || (e.ChangeApplied? && e.requestId == id)
  {
    var more := audit + [e];
    assert more[|audit|] == e;
    if AppliedIn(audit, id) {
      var k :| 0 <= k < |audit| && audit[k].ChangeApplied? && audit[k].requestId == id;
      assert more[k] == audit[k];
    }
  }

  // ---------------------------------------------------------------- steps that apply nothing

  /** An audit record that applies nothing, with at most a change to one request that is not applied. */
  predicate Quiet(s: State, t: State, e: Audit) {
    && !e.ChangeApplied? && t.audit == s.audit + [e]
    && t.policies == s.policies && t.roots == s.roots && t.tenantId == s.tenantId
    && (forall id | id in s.requests && s.requests[id].status == Applied ::
        id in t.requests && t.requests[id] == s.requests[id])
  }

  lemma QuietRequests(s: State, t: State, e: Audit)
    requires RequestsOk(s) && Quiet(s, t, e)
    requires forall id | id in t.requests :: RequestOk(t.requests[id])
    requires forall id | id in t.requests && t.requests[id].status == Applied ::
               id in s.requests && s.requests[id].status == Applied
    ensures RequestsOk(t)
  {
    hide AppliedIn;
    forall id | id in t.requests && t.requests[id].status == Applied ensures AppliedIn(t.audit, id) {
      AppliedAppend(s.audit, e, id);
    }
  }

  lemma QuietApplications(s: State, t: State, e: Audit)
    requires ApplicationsOk(s) && Quiet(s, t, e)
    ensures ApplicationsOk(t)
  {
    forall k | 0 <= k < |t.audit| && t.audit[k].ChangeApplied? ensures ApplicationOk(t, t.audit[k]) {
      assert t.audit[k] == s.audit[k];
    }
  }

  lemma QuietHistories(d: Digests, s: State, t: State, e: Audit)
    requires PoliciesOk(d, s) && RootsOk(d, s) && Quiet(s, t, e)
    ensures PoliciesOk(d, t) && RootsOk(d, t)
  {
    hide Applications;
    ApplicationsAppend(s.audit, e, RetentionPolicy);
    ApplicationsAppend(s.audit, e, TrustRootPolicy);
    assert Applications(t.audit, RetentionPolicy) == Applications(s.audit, RetentionPolicy);
    assert Applications(t.audit, TrustRootPolicy) == Applications(s.audit, TrustRootPolicy);
  }

  lemma QuietHolds(d: Digests, s: State, t: State, e: Audit)
    requires HoldsOk(d, s) && Quiet(s, t, e)
    requires forall h | h in s.holds :: h in t.holds && t.holds[h] == s.holds[h]
    requires forall h | h in t.holds && t.holds[h].Released? :: h in s.holds
    ensures HoldsOk(d, t)
  {
  }

  lemma QuietStep(d: Digests, s: State, op: Op, actor: Actor, now: Time)
    requires Inv(d, s) && Enabled(s, op) && (op.Propose? || op.Decide? || op.PlaceHold?)
    ensures Inv(d, Step(d, s, op, actor, now))
  {
    hide RequestsOk, ApplicationsOk, PoliciesOk, RootsOk, HoldsOk;
    var t := Step(d, s, op, actor, now);
    if t != s {
      assert |t.audit| == |s.audit| + 1;
      var e := t.audit[|s.audit|];
      RequestsAreOk(s);
      assert Quiet(s, t, e);
      QuietRequests(s, t, e);
      QuietApplications(s, t, e);
      QuietHistories(d, s, t, e);
      QuietHolds(d, s, t, e);
    }
  }

  lemma RequestsAreOk(s: State)
    requires RequestsOk(s)
    ensures forall id | id in s.requests :: RequestOk(s.requests[id])
  {
  }

  // ---------------------------------------------------------------- steps that apply a request

  lemma MarkRequests(s: State, id: nat, targetType: TargetType, targetId: string, before: Option<string>, after: string)
    requires RequestsOk(s) && Authorizes(s, id, targetType, targetId, after, before)
    ensures RequestsOk(MarkApplied(s, id, targetType, targetId, before, after))
  {
    hide AppliedIn;
    var t := MarkApplied(s, id, targetType, targetId, before, after);
    forall other | other in t.requests
      ensures RequestOk(t.requests[other]) && (t.requests[other].status == Applied ==> AppliedIn(t.audit, other))
    {
      assert RequestOk(s.requests[other]);
      AppliedAppend(s.audit, t.audit[|s.audit|], other);
    }
  }

  lemma MarkApplications(s: State, id: nat, targetType: TargetType, targetId: string, before: Option<string>,
                         after: string)
    requires ApplicationsOk(s) && Authorizes(s, id, targetType, targetId, after, before) && targetType != Other
    ensures ApplicationsOk(MarkApplied(s, id, targetType, targetId, before, after))
  {
    var t := MarkApplied(s, id, targetType, targetId, before, after);
    forall k | 0 <= k < |s.audit| && s.audit[k].ChangeApplied? ensures s.audit[k].requestId != id {
      assert ApplicationOk(s, s.audit[k]);
    }
    forall k | 0 <= k < |t.audit| && t.audit[k].ChangeApplied? ensures ApplicationOk(t, t.audit[k]) {
      if k < |s.audit| { assert t.audit[k] == s.audit[k] && ApplicationOk(s, s.audit[k]); }
    }
  }

  /** The fields outside requests and audit do not matter to the request invariants. */
  lemma SameRecords(s: State, t: State)
    requires t.requests == s.requests && t.audit == s.audit
    ensures RequestsOk(s) ==> RequestsOk(t)
    ensures ApplicationsOk(s) ==> ApplicationsOk(t)
  {
    if ApplicationsOk(s) {
      forall k | 0 <= k < |t.audit| && t.audit[k].ChangeApplied? ensures ApplicationOk(t, t.audit[k]) {
        assert ApplicationOk(s, s.audit[k]);
      }
    }
  }

  /** Applying `e` to a target of another type leaves a history as it was. */
  lemma OtherPolicies(d: Digests, s: State, t: State, e: Audit)
    requires PoliciesOk(d, s) && t.audit == s.audit + [e] && t.policies == s.policies && t.tenantId == s.tenantId
    requires e.ChangeApplied? && e.targetType != RetentionPolicy
    ensures PoliciesOk(d, t)
  {
    hide Applications, LastDigest;
    ApplicationsAppend(s.audit, e, RetentionPolicy);
    assert Applications(t.audit, RetentionPolicy) == Applications(s.audit, RetentionPolicy);
  }

  lemma OtherRoots(d: Digests, s: State, t: State, e: Audit)
    requires RootsOk(d, s) && t.audit == s.audit + [e] && t.roots == s.roots
    requires e.ChangeApplied? && e.targetType != TrustRootPolicy
    ensures RootsOk(d, t)
  {
    hide Applications;
    ApplicationsAppend(s.audit, e, TrustRootPolicy);
    assert Applications(t.audit, TrustRootPolicy) == Applications(s.audit, TrustRootPolicy);
  }

  lemma OtherHolds(d: Digests, s: State, t: State, e: Audit)
    requires HoldsOk(d, s) && t.audit == s.audit + [e] && t.holds == s.holds
    requires e.ChangeApplied? && e.targetType != LegalHoldRelease
    ensures HoldsOk(d, t)
  {
    assert forall k | 0 <= k < |s.audit| :: t.audit[k] == s.audit[k];
  }

  lemma ApplyPolicyKeepsInv(d: Digests, s: State, p: Policy, id: nat)
    requires Inv(d, s)
    ensures Inv(d, ApplyPolicyStep(d, s, p, id))
  {
    hide RequestsOk, ApplicationsOk, RootsOk, HoldsOk, PoliciesOk, Authorizes;
    var t, before := ApplyPolicyStep(d, s, p, id), LastDigest(d, s.policies);
    if t != s {
      var u := s.(policies := s.policies + [p]);
      SameRecords(s, u);
      assert Authorizes(u, id, RetentionPolicy, p.policyId, d.policy(p), before) by {
        SameAuthority(s, u, id, RetentionPolicy, p.policyId, d.policy(p), before);
      }
      MarkRequests(u, id, RetentionPolicy, p.policyId, before, d.policy(p));
      MarkApplications(u, id, RetentionPolicy, p.policyId, before, d.policy(p));
      OtherRoots(d, s, t, t.audit[|s.audit|]);
      OtherHolds(d, s, t, t.audit[|s.audit|]);
      PolicyApplied(d, s, t, p, id);
    }
  }

  lemma SameAuthority(s: State, t: State, id: nat, targetType: TargetType, targetId: string, digest: string,
                      current: Option<string>)
    requires Authorizes(s, id, targetType, targetId, digest, current) && t.requests == s.requests
    ensures Authorizes(t, id, targetType, targetId, digest, current)
  {
  }

  lemma PolicyApplied(d: Digests, s: State, t: State, p: Policy, id: nat)
    requires PoliciesOk(d, s) && p.revision == LastRevision(s.policies) + 1 && p.tenantId == s.tenantId == t.tenantId
    requires t.policies == s.policies + [p]
    requires t.audit
             == s.audit + [ChangeApplied(id, RetentionPolicy, p.policyId, LastDigest(d, s.policies), d.policy(p))]
    ensures PoliciesOk(d, t)
  {
    hide Applications, LastDigest;
    var e := t.audit[|s.audit|];
    ApplicationsAppend(s.audit, e, RetentionPolicy);
    var before, after := Applications(s.audit, RetentionPolicy), Applications(t.audit, RetentionPolicy);
    assert t.policies[..|s.policies|] == s.policies;
    assert |s.policies| > 0 ==> PolicyAt(d, s.tenantId, s.policies, before, |s.policies| - 1);
    forall i | 0 <= i < |t.policies| ensures PolicyAt(d, t.tenantId, t.policies, after, i) {
      if i < |s.policies| {
        assert PolicyAt(d, s.tenantId, s.policies, before, i);
        assert t.policies[..i] == s.policies[..i];
      }
    }
  }

  lemma ReleaseKeepsInv(d: Digests, s: State, holdId: string, id: nat, actor: Actor)
    requires Inv(d, s)
    ensures Inv(d, ReleaseStep(d, s, holdId, id, actor))
  {
    hide RequestsOk, ApplicationsOk, RootsOk, HoldsOk, PoliciesOk, Authorizes;
    var t := ReleaseStep(d, s, holdId, id, actor);
    if t != s {
      var u := s.(holds := s.holds[holdId := Released(id, actor)]);
      SameRecords(s, u);
      SameAuthority(s, u, id, LegalHoldRelease, holdId, d.release(holdId), None);
      MarkRequests(u, id, LegalHoldRelease, holdId, None, d.release(holdId));
      MarkApplications(u, id, LegalHoldRelease, holdId, None, d.release(holdId));
      OtherPolicies(d, s, t, t.audit[|s.audit|]);
      OtherRoots(d, s, t, t.audit[|s.audit|]);
      assert HoldsOk(d, t) by { HoldReleased(d, s, t, holdId, id, actor); }
    }
  }

  lemma HoldReleased(d: Digests, s: State, t: State, holdId: string, id: nat, actor: Actor)
    requires HoldsOk(d, s) && holdId in s.holds && s.holds[holdId] == Active
    requires t.holds == s.holds[holdId := Released(id, actor)]
    requires t.audit == s.audit + [ChangeApplied(id, LegalHoldRelease, holdId, None, d.release(holdId))]
    ensures HoldsOk(d, t)
  {
    assert t.audit[|s.audit|] == ChangeApplied(id, LegalHoldRelease, holdId, None, d.release(holdId));
    assert forall k | 0 <= k < |s.audit| :: t.audit[k] == s.audit[k];
  }

  lemma RootsKeepInv(d: Digests, s: State, t: State, id: nat, trust: TrustPolicy, before: Option<string>)
    requires Inv(d, s) && Authorizes(s, id, TrustRootPolicy, trust.policyId, d.trust(trust), before)
    requires t == MarkApplied(s.(roots := t.roots), id, TrustRootPolicy, trust.policyId, before, d.trust(trust))
    requires RootsOk(d, t)
    ensures Inv(d, t)
  {
    hide RequestsOk, ApplicationsOk, RootsOk, HoldsOk, PoliciesOk, Authorizes;
    var u := s.(roots := t.roots);
    SameRecords(s, u);
    SameAuthority(s, u, id, TrustRootPolicy, trust.policyId, d.trust(trust), before);
    MarkRequests(u, id, TrustRootPolicy, trust.policyId, before, d.trust(trust));
    MarkApplications(u, id, TrustRootPolicy, trust.policyId, before, d.trust(trust));
    OtherPolicies(d, s, t, t.audit[|s.audit|]);
    OtherHolds(d, s, t, t.audit[|s.audit|]);
  }

  lemma BootstrapKeepsInv(d: Digests, s: State, trust: TrustPolicy, at: Time, id: nat)
    requires Inv(d, s)
    ensures Inv(d, BootstrapStep(d, s, trust, at, id))
  {
    hide RequestsOk, ApplicationsOk, HoldsOk, PoliciesOk, Authorizes, Applications;
    var t := BootstrapStep(d, s, trust, at, id);
    if t != s {
      ApplicationsAppend(s.audit, t.audit[|s.audit|], TrustRootPolicy);
      assert Applications(t.audit, TrustRootPolicy) == [t.audit[|s.audit|]];
      assert RootAt(d, t.roots, Applications(t.audit, TrustRootPolicy), 0);
      RootsKeepInv(d, s, t, id, trust, None);
    }
  }

  /** The new root takes the last place, the one before it a retirement time. */
  lemma RootsRotated(d: Digests, s: State, t: State, plan: RotationPlan, trust: TrustPolicy)
    requires RootsOk(d, s) && s.roots != [] && plan.toRevision == s.roots[|s.roots| - 1].revision + 1
    requires var n := |s.roots| - 1;
             t.roots == s.roots[n := s.roots[n].(retiredAt := Some(plan.overlapUntil))]
                        + [TrustRoot(plan.toRevision, trust, d.trust(trust), plan.activateAt, None, plan.requestId)]
    requires t.audit == s.audit + [ChangeApplied(plan.requestId, TrustRootPolicy, trust.policyId,
                                                 Some(s.roots[|s.roots| - 1].digest), d.trust(trust))]
    ensures RootsOk(d, t)
  {
    hide Applications;
    var e := t.audit[|s.audit|];
    ApplicationsAppend(s.audit, e, TrustRootPolicy);
    var before, after := Applications(s.audit, TrustRootPolicy), Applications(t.audit, TrustRootPolicy);
    assert after == before + [e];
    forall i | 0 <= i < |t.roots| ensures RootAt(d, t.roots, after, i) {
      if i < |s.roots| { assert RootAt(d, s.roots, before, i); }
      if 0 < i { assert RootAt(d, s.roots, before, i - 1); }
    }
  }

  lemma RotateKeepsInv(d: Digests, s: State, plan: RotationPlan, trust: TrustPolicy, now: Time)
    requires Inv(d, s)
    ensures Inv(d, RotateStep(d, s, plan, trust, now))
  {
    hide RequestsOk, ApplicationsOk, HoldsOk, PoliciesOk, RootsOk, Authorizes, Applications;
    var t := RotateStep(d, s, plan, trust, now);
    if t != s {
      RootsRotated(d, s, t, plan, trust);
      RootsKeepInv(d, s, t, plan.requestId, trust, Some(s.roots[|s.roots| - 1].digest));
    }
  }

  lemma StepKeepsInv(d: Digests, s: State, op: Op, actor: Actor, now: Time)
    requires Inv(d, s) && Enabled(s, op)
    ensures Inv(d, Step(d, s, op, actor, now))
  {
    hide Inv, Enabled;
    match op
    case ApplyPolicy(p, id) => ApplyPolicyKeepsInv(d, s, p, id);
    case ReleaseHold(holdId, id) => ReleaseKeepsInv(d, s, holdId, id, actor);
    case Bootstrap(trust, at, id) => BootstrapKeepsInv(d, s, trust, at, id);
    case Rotate(plan, trust) => RotateKeepsInv(d, s, plan, trust, now);
    case _ => QuietStep(d, s, op, actor, now);
  }

  lemma {:induction false} AfterKeepsInv(d: Digests, s: State, run: seq<Event>)
    requires Inv(d, s) && Possible(d, s, run)
    ensures Inv(d, After(d, s, run))
    decreases |run|
  {
    hide Inv, Step, Enabled;
    if run != [] {
      StepKeepsInv(d, s, run[0].op, run[0].actor, run[0].now);
      AfterKeepsInv(d, Step(d, s, run[0].op, run[0].actor, run[0].now), run[1..]);
    }
  }

  ghost predicate Reachable(d: Digests, s: State) {
    exists run :: Possible(d, Empty(s.tenantId), run) && After(d, Empty(s.tenantId), run) == s
  }

  lemma ReachableInv(d: Digests, s: State)
    requires Reachable(d, s)
    ensures Inv(d, s)
  {
    var run :| Possible(d, Empty(s.tenantId), run) && After(d, Empty(s.tenantId), run) == s;
    AfterKeepsInv(d, Empty(s.tenantId), run);
  }

  // ---------------------------------------------------------------- what took effect was approved

  lemma {:induction false} ApplicationsListed(audit: seq<Audit>, targetType: TargetType)
    requires forall k, l | 0 <= k < l < |audit| && audit[k].ChangeApplied? && audit[l].ChangeApplied? ::
               audit[k].requestId != audit[l].requestId
    ensures forall e :: e in Applications(audit, targetType) <==>
              e in audit && e.ChangeApplied? && e.targetType == targetType
    ensures forall i | 0 <= i < |Applications(audit, targetType)| :: Applications(audit, targetType)[i].ChangeApplied?
    ensures forall i, j | 0 <= i < j < |Applications(audit, targetType)| ::
              Applications(audit, targetType)[i].requestId != Applications(audit, targetType)[j].requestId
  {
    if audit != [] {
      var rest, last := audit[..|audit| - 1], audit[|audit| - 1];
      assert audit == rest + [last];
      ApplicationsListed(rest, targetType);
      forall i | 0 <= i < |Applications(rest, targetType)| && last.ChangeApplied?
        ensures Applications(rest, targetType)[i].requestId != last.requestId
      {
        var e := Applications(rest, targetType)[i];
        assert e in rest;
      }
    }
  }

  /** The request a policy took effect through. */
  ghost function PolicyRequest(s: State, i: nat): nat
    requires i < |Applications(s.audit, RetentionPolicy)| && Applications(s.audit, RetentionPolicy)[i].ChangeApplied?
  {
    Applications(s.audit, RetentionPolicy)[i].requestId
  }

  /** The request is applied, for this target and digest, was approved against `current`, and by someone
      else than its proposer where its risk asks for that. */
  predicate Backs(s: State, id: nat, targetType: TargetType, targetId: string, digest: string,
                  current: Option<string>) {
    && id in s.requests
    && var r := s.requests[id];
       && r.status == Applied && r.targetType == targetType && r.targetId == targetId
       && r.proposedDigest == digest && r.expectedDigest == current
       && r.approvedBy.Some? && (NeedsIndependence(r.risk) ==> r.approvedBy.value != r.proposedBy)
  }

  lemma ApplicationBacks(d: Digests, s: State, e: Audit)
    requires Inv(d, s) && e in s.audit && e.ChangeApplied?
    ensures Backs(s, e.requestId, e.targetType, e.targetId, e.after, e.before)
  {
    var k :| 0 <= k < |s.audit| && s.audit[k] == e;
    assert ApplicationOk(s, s.audit[k]);
    assert RequestOk(s.requests[e.requestId]);
  }

  /** Retention policies: revisions 1 to n, each backed by its own request, approved against its predecessor. */
  lemma PoliciesAreBacked(d: Digests, s: State, i: nat)
    requires Reachable(d, s) && i < |s.policies|
    ensures i < |Applications(s.audit, RetentionPolicy)| && Applications(s.audit, RetentionPolicy)[i].ChangeApplied?
    ensures s.policies[i].revision == i + 1
    ensures Backs(s, PolicyRequest(s, i), RetentionPolicy, s.policies[i].policyId, d.policy(s.policies[i]),
            LastDigest(d, s.policies[..i]))
    ensures forall j | 0 <= j < |s.policies| && j != i ::
              j < |Applications(s.audit, RetentionPolicy)| && Applications(s.audit, RetentionPolicy)[j].ChangeApplied?
              && PolicyRequest(s, j) != PolicyRequest(s, i)
  {
    hide Applications, LastDigest, Reachable, Backs;
    ReachableInv(d, s);
    var apps := Applications(s.audit, RetentionPolicy);
    assert PolicyAt(d, s.tenantId, s.policies, apps, i);
    ApplicationsListed(s.audit, RetentionPolicy);
    ApplicationBacks(d, s, Applications(s.audit, RetentionPolicy)[i]);
  }

  /** Trust roots: revisions 1 to n, each backed by its own request, approved against its predecessor; only
      the last is not retired. */
  lemma RootsAreBacked(d: Digests, s: State, i: nat)
    requires Reachable(d, s) && i < |s.roots|
    ensures s.roots[i].revision == i + 1 && (s.roots[i].retiredAt.None? <==> i == |s.roots| - 1)
    ensures Backs(s, s.roots[i].requestId, TrustRootPolicy, s.roots[i].policy.policyId, d.trust(s.roots[i].policy),
                  if i == 0 then None else Some(d.trust(s.roots[i - 1].policy)))
    ensures forall j | 0 <= j < |s.roots| && j != i :: s.roots[j].requestId != s.roots[i].requestId
  {
    hide Applications, Reachable, Backs;
    ReachableInv(d, s);
    var apps := Applications(s.audit, TrustRootPolicy);
    assert RootAt(d, s.roots, apps, i);
    assert i > 0 ==> RootAt(d, s.roots, apps, i - 1);
    forall j | 0 <= j < |s.roots| ensures apps[j].ChangeApplied? && apps[j].requestId == s.roots[j].requestId {
      assert RootAt(d, s.roots, apps, j);
    }
    ApplicationsListed(s.audit, TrustRootPolicy);
    ApplicationBacks(d, s, Applications(s.audit, TrustRootPolicy)[i]);
  }

  /** A released hold is backed by a request of its own. */
  lemma ReleasesAreBacked(d: Digests, s: State, holdId: string)
    requires Reachable(d, s) && holdId in s.holds && s.holds[holdId].Released?
    ensures Backs(s, s.holds[holdId].requestId, LegalHoldRelease, holdId, d.release(holdId), None)
    ensures forall other | other in s.holds && s.holds[other].Released? && other != holdId ::
              s.holds[other].requestId != s.holds[holdId].requestId
  {
    hide Applications, Reachable;
    ReachableInv(d, s);
    ApplicationBacks(d, s, ChangeApplied(s.holds[holdId].requestId, LegalHoldRelease, holdId, None, d.release(holdId)));
    forall other | other in s.holds && s.holds[other].Released? && other != holdId
      ensures s.holds[other].requestId != s.holds[holdId].requestId
    {
      ApplicationBacks(d, s, ChangeApplied(s.holds[other].requestId, LegalHoldRelease, other, None, d.release(other)));
    }
  }

  /** Conversely every applied request took effect: as exactly the policy, root or release it was for. */
  lemma AppliedTookEffect(d: Digests, s: State, id: nat)
    requires Reachable(d, s) && id in s.requests && s.requests[id].status == Applied
    ensures var r := s.requests[id];
            match r.targetType
            case RetentionPolicy =>
              exists i | 0 <= i < |s.policies| :: s.policies[i].policyId == r.targetId
                  && d.policy(s.policies[i]) == r.proposedDigest
            case TrustRootPolicy => exists i | 0 <= i < |s.roots| ::
                s.roots[i].requestId == id && s.roots[i].digest == r.proposedDigest
            case LegalHoldRelease => r.targetId in s.holds && s.holds[r.targetId].Released?
                && s.holds[r.targetId].requestId == id
            case Other => false
  {
    hide Applications, Reachable;
    ReachableInv(d, s);
    assert AppliedIn(s.audit, id);
    var k :| 0 <= k < |s.audit| && s.audit[k].ChangeApplied? && s.audit[k].requestId == id;
    var e := s.audit[k];
    assert ApplicationOk(s, e) && e in s.audit;
    ApplicationsListed(s.audit, e.targetType);
    assert e in Applications(s.audit, e.targetType);
    var i :| 0 <= i < |Applications(s.audit, e.targetType)| && Applications(s.audit, e.targetType)[i] == e;
    match e.targetType
    case RetentionPolicy => assert PolicyAt(d, s.tenantId, s.policies, Applications(s.audit, RetentionPolicy), i);
    case TrustRootPolicy => assert RootAt(d, s.roots, Applications(s.audit, TrustRootPolicy), i);
    case _ =>
  }

  // ---------------------------------------------------------------- the life of a request

  /** The transitions the PostgreSQL trigger admits; the proposal itself never changes. */
  predicate LegalTransition(a: Request, b: Request) {
    && b == a.(status := b.status, approvedBy := b.approvedBy)
    && (a.status == b.status ==> a == b)
    && (a.status != b.status ==>
          || (a.status == Proposed && b.status in {Approved, Rejected})
          || (a.status == Approved && b.status == Applied && a.approvedBy == b.approvedBy))
  }

  /** Every operation of the unchecked store moves every request along a legal transition, or leaves it. */
  lemma RequestsMoveLegally(d: Digests, s: State, op: Op, actor: Actor, now: Time, id: nat)
    requires Enabled(s, op) && id in s.requests
    ensures id in Step(d, s, op, actor, now).requests
    ensures LegalTransition(s.requests[id], Step(d, s, op, actor, now).requests[id])
  {
    hide LastDigest, LastRevision;
  }

  // ---------------------------------------------------------------- retirement times

  /** A rotation retires the current root when the plan's overlap ends: that follows its activation exactly
      when the overlap ends later than the root it retires was activated. */
  lemma RetirementFollowsActivationWhen(d: Digests, s: State, plan: RotationPlan, trust: TrustPolicy, now: Time)
    requires RotateStep(d, s, plan, trust, now) != s
    ensures var t := RotateStep(d, s, plan, trust, now);
            && |t.roots| == |s.roots| + 1 && t.roots[|s.roots| - 1].retiredAt.Some?
            && (t.roots[|s.roots| - 1].retiredAt.value > t.roots[|s.roots| - 1].activatedAt
                <==> plan.overlapUntil > s.roots[|s.roots| - 1].activatedAt)
            && forall i | 0 <= i < |s.roots| - 1 :: t.roots[i] == s.roots[i]
  {
    hide Authorizes;
  }

  /** If the root is retired, it is so after its own activation. */
  predicate RetiresLate(root: TrustRoot) {
    root.retiredAt.Some? ==> root.retiredAt.value > root.activatedAt
  }

  ghost predicate AllRetireLate(s: State) {
    forall i | 0 <= i < |s.roots| :: RetiresLate(s.roots[i])
  }

  /** The step accepts a rotation whose overlap does not outlast the activation of the root it retires. */
  predicate RotatesEarly(d: Digests, s: State, e: Event) {
    && e.op.Rotate? && s.roots != [] && Step(d, s, e.op, e.actor, e.now) != s
    && e.op.plan.overlapUntil <= s.roots[|s.roots| - 1].activatedAt
  }

  ghost predicate SomeRotatesEarly(d: Digests, s: State, run: seq<Event>)
    requires Possible(d, s, run)
    decreases |run|
  {
    run != [] && (
      || RotatesEarly(d, s, run[0])
      || SomeRotatesEarly(d, Step(d, s, run[0].op, run[0].actor, run[0].now), run[1..]))
  }

  lemma RotationRetires(d: Digests, s: State, e: Event)
    requires RootsOk(d, s) && e.op.Rotate?
    ensures AllRetireLate(Step(d, s, e.op, e.actor, e.now)) <==> AllRetireLate(s) && !RotatesEarly(d, s, e)
  {
    hide RootAt, Authorizes;
    var t := Step(d, s, e.op, e.actor, e.now);
    if t != s {
      RetirementFollowsActivationWhen(d, s, e.op.plan, e.op.trust, e.now);
      var n := |s.roots| - 1;
      LastIsCurrent(d, s);
      assert t.roots[n + 1].retiredAt.None? && t.roots[n].activatedAt == s.roots[n].activatedAt;
      assert forall i | 0 <= i < n :: t.roots[i] == s.roots[i];
    }
  }

  lemma LastIsCurrent(d: Digests, s: State)
    requires RootsOk(d, s) && s.roots != []
    ensures s.roots[|s.roots| - 1].retiredAt.None?
  {
    assert RootAt(d, s.roots, Applications(s.audit, TrustRootPolicy), |s.roots| - 1);
  }

  lemma OtherStepsRetireNothing(d: Digests, s: State, e: Event)
    requires !e.op.Rotate?
    ensures AllRetireLate(Step(d, s, e.op, e.actor, e.now)) <==> AllRetireLate(s)
  {
    hide Authorizes;
  }

  lemma {:induction false} RunRetires(d: Digests, s: State, run: seq<Event>)
    requires Inv(d, s) && Possible(d, s, run)
    ensures AllRetireLate(After(d, s, run)) <==> AllRetireLate(s) && !SomeRotatesEarly(d, s, run)
    decreases |run|
  {
    hide AllRetireLate, RotatesEarly, Step, RequestsOk, ApplicationsOk, PoliciesOk, RootsOk, HoldsOk;
    if run != [] {
      var e := run[0];
      StepKeepsInv(d, s, e.op, e.actor, e.now);
      if e.op.Rotate? { RotationRetires(d, s, e); } else { NoRotation(d, s, e); }
      RunRetires(d, Step(d, s, e.op, e.actor, e.now), run[1..]);
    }
  }

  lemma NoRotation(d: Digests, s: State, e: Event)
    requires !e.op.Rotate?
    ensures !RotatesEarly(d, s, e) && (AllRetireLate(Step(d, s, e.op, e.actor, e.now)) <==> AllRetireLate(s))
  {
    hide AllRetireLate, Step;
    OtherStepsRetireNothing(d, s, e);
  }

  /** After any run every retired root outlasted its own activation, exactly when every rotation the run
      accepted had an overlap that ends after the activation of the root it retired. */
  lemma RootsRetireLateWhen(d: Digests, tenantId: string, run: seq<Event>)
    requires Possible(d, Empty(tenantId), run)
    ensures AllRetireLate(After(d, Empty(tenantId), run)) <==> !SomeRotatesEarly(d, Empty(tenantId), run)
  {
    hide SomeRotatesEarly, Inv, After;
    EmptyInv(d, tenantId);
    RunRetires(d, Empty(tenantId), run);
  }

  lemma EmptyInv(d: Digests, tenantId: string)
    ensures Inv(d, Empty(tenantId))
  {
  }

  lemma {:induction false} OneMoreEvent(d: Digests, s: State, run: seq<Event>, e: Event)
    requires Possible(d, s, run) && Enabled(After(d, s, run), e.op)
    ensures Possible(d, s, run + [e]) && After(d, s, run + [e]) == Step(d, After(d, s, run), e.op, e.actor, e.now)
    decreases |run|
  {
    hide Step;
    if run == [] {
      assert (run + [e])[1..] == [];
    } else {
      assert (run + [e])[1..] == run[1..] + [e];
      OneMoreEvent(d, Step(d, s, run[0].op, run[0].actor, run[0].now), run[1..], e);
    }
  }

  lemma ReachableNext(d: Digests, s: State, op: Op, actor: Actor, now: Time)
    requires Reachable(d, s) && Enabled(s, op) && Step(d, s, op, actor, now).tenantId == s.tenantId
    ensures Reachable(d, Step(d, s, op, actor, now))
  {
    hide Step, Possible, After;
    var run :| Possible(d, Empty(s.tenantId), run) && After(d, Empty(s.tenantId), run) == s;
    OneMoreEvent(d, Empty(s.tenantId), run, Event(op, actor, now));
  }

  /** A trust root that is bootstrapped to activate at 100. */
  lemma BootstrappedEarly(d: Digests, first: TrustPolicy, a: Actor, b: Actor) returns (s: State)
    ensures Reachable(d, s) && s.tenantId == "t" && s.requests.Keys == {1}
    ensures s.roots == [TrustRoot(1, first, d.trust(first), 100, None, 1)]
  {
    hide Reachable;
    s := Empty("t");
    assert Reachable(d, s) by { assert Possible(d, s, []) && After(d, s, []) == s; ReachedBy(d, s, []); }
    ReachableNext(d, s, Propose(1, TrustRootPolicy, first.policyId, d.trust(first), None, Low), a, 0);
    s := Step(d, s, Propose(1, TrustRootPolicy, first.policyId, d.trust(first), None, Low), a, 0);
    ReachableNext(d, s, Decide(1, true), b, 0);
    s := Step(d, s, Decide(1, true), b, 0);
    ReachableNext(d, s, Bootstrap(first, 100, 1), b, 0);
    s := Step(d, s, Bootstrap(first, 100, 1), b, 0);
  }

  lemma ReachedBy(d: Digests, s: State, run: seq<Event>)
    requires Possible(d, Empty(s.tenantId), run) && After(d, Empty(s.tenantId), run) == s
    ensures Reachable(d, s)
  {
  }

  /** The plan's own rule, that the overlap does not end before activation, does not give that: a root
      bootstrapped to activate later can be rotated out before it was ever active. */
  lemma RetirementCanPrecedeActivation(d: Digests) returns (s: State, plan: RotationPlan, trust: TrustPolicy)
    ensures Reachable(d, s) && plan.overlapUntil >= plan.activateAt >= 0
    ensures var t := RotateStep(d, s, plan, trust, 0);
            t != s && t.roots[0].retiredAt == Some(60) && t.roots[0].activatedAt == 100
  {
    hide Reachable;
    var first := TrustPolicy("root", "first");
    trust := TrustPolicy("root", "second");
    plan := RotationPlan("t", 1, 2, 50, 60, 2, false);
    var a, b := Actor("human", "a", "t"), Actor("human", "b", "t");
    s := BootstrappedEarly(d, first, a, b);
    ReachableNext(d, s, Propose(2, TrustRootPolicy, "root", d.trust(trust), Some(d.trust(first)), Low), a, 0);
    s := Step(d, s, Propose(2, TrustRootPolicy, "root", d.trust(trust), Some(d.trust(first)), Low), a, 0);
    ReachableNext(d, s, Decide(2, true), b, 0);
    s := Step(d, s, Decide(2, true), b, 0);
  }
}
