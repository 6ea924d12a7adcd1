/** Governed changes over the events of a run: each proposal, decision and application is there exactly because an
    event made it when it was due, so whatever took effect was approved by an approving decision. */
module GovernanceEvents {
  import opened Common
  import opened Governance
  import opened GovernanceSafety

  /** What an event establishes for good. */
  datatype Fact =
    | Proposal(requestId: nat, request: Request)
    | Approval(requestId: nat, approver: Actor)
    | Rejection(requestId: nat)
    | Application(requestId: nat)
    | InPolicies(index: nat, policy: Policy)
    | HoldIsPlaced(holdId: string)
    | HoldIsReleased(holdId: string, releasedUnder: nat, releasedBy: Actor)
    | InRoots(index: nat, revision: nat, trust: TrustPolicy, activatedAt: Time, underRequest: nat)
    | Retirement(index: nat, retiredAt: Time)
    | Audited(entry: Audit)

  predicate Holds(s: State, f: Fact) {
    match f
    case Proposal(id, r) => id in s.requests && s.requests[id].(status := Proposed, approvedBy := None) == r
    case Approval(id, actor) =>
      && id in s.requests && (s.requests[id].status == Approved || s.requests[id].status == Applied)
      && s.requests[id].approvedBy == Some(actor)
    case Rejection(id) => id in s.requests && s.requests[id].status == Rejected
    case Application(id) => id in s.requests && s.requests[id].status == Applied
    case InPolicies(i, p) => i < |s.policies| && s.policies[i] == p
    case HoldIsPlaced(h) => h in s.holds
    case HoldIsReleased(h, id, actor) => h in s.holds && s.holds[h] == Released(id, actor)
    case InRoots(i, revision, trust, at, id) =>
      && i < |s.roots| && s.roots[i].revision == revision && s.roots[i].policy == trust
      && s.roots[i].activatedAt == at && s.roots[i].requestId == id
    case Retirement(i, at) => i < |s.roots| && s.roots[i].retiredAt == Some(at)
    case Audited(entry) => entry in s.audit
  }

  /** The request awaits a decision that this actor may take. */
  predicate Open(s: State, id: nat, actor: Actor) {
    && id in s.requests && s.requests[id].status == Proposed
    && !(s.requests[id].risk in {High, Critical} && s.requests[id].proposedBy == actor)
  }

  /** The request is approved and not used, for just this change of what is there now. */
  predicate Warrants(s: State, id: nat, targetType: TargetType, targetId: string, digest: string,
                     current: Option<string>) {
    && id in s.requests && s.requests[id].status == Approved && s.requests[id].targetType == targetType
    && s.requests[id].targetId == targetId && s.requests[id].proposedDigest == digest
    && s.requests[id].expectedDigest == current
  }

  /** The event puts the policy in place, as the next revision, under the request. */
  predicate AppliesPolicy(d: Digests, s: State, e: Event, p: Policy, id: nat) {
    && e.op == ApplyPolicy(p, id) && p.tenantId == s.tenantId
    && p.revision == 1 + (if s.policies == [] then 0 else s.policies[|s.policies| - 1].revision)
    && Warrants(s, id, RetentionPolicy, p.policyId, d.policy(p),
                if s.policies == [] then None else Some(d.policy(s.policies[|s.policies| - 1])))
  }

  predicate Releases(d: Digests, s: State, e: Event, h: string, id: nat) {
    && e.op == ReleaseHold(h, id) && h in s.holds && s.holds[h] == Active
    && Warrants(s, id, LegalHoldRelease, h, d.release(h), None)
  }

  predicate Bootstraps(d: Digests, s: State, e: Event, trust: TrustPolicy, at: Time, id: nat) {
    && e.op == Bootstrap(trust, at, id) && s.roots == []
    && Warrants(s, id, TrustRootPolicy, trust.policyId, d.trust(trust), None)
  }

  /** The event rotates from the last root to its successor, not in the past unless in an emergency. */
  predicate Rotates(d: Digests, s: State, e: Event, plan: RotationPlan, trust: TrustPolicy) {
    && e.op == Rotate(plan, trust) && plan.tenantId == s.tenantId && (plan.emergency || e.now <= plan.activateAt)
    && s.roots != []
    && var last := s.roots[|s.roots| - 1];
       && plan.fromRevision == last.revision && plan.toRevision == last.revision + 1
       && Warrants(s, plan.requestId, TrustRootPolicy, trust.policyId, d.trust(trust), Some(last.digest))
  }

  predicate Uses(d: Digests, s: State, e: Event, id: nat) {
    match e.op
    case ApplyPolicy(p, x) => x == id && AppliesPolicy(d, s, e, p, id)
    case ReleaseHold(h, x) => x == id && Releases(d, s, e, h, id)
    case Bootstrap(trust, at, x) => x == id && Bootstraps(d, s, e, trust, at, id)
    case Rotate(plan, trust) => plan.requestId == id && Rotates(d, s, e, plan, trust)
    case _ => false
  }

  /** The event puts this entry on the audit trail. */
  predicate Records(d: Digests, s: State, e: Event, entry: Audit) {
    match entry
    case ChangeProposed(id) => e.op.Propose? && e.op.requestId == id
    case ChangeApproved(id, approver) => e.op == Decide(id, true) && e.actor == approver && Open(s, id, approver)
    case ChangeRejected(id, approver) => e.op == Decide(id, false) && e.actor == approver && Open(s, id, approver)
    case HoldPlaced(h) => e.op == PlaceHold(h) && h !in s.holds
    case ChangeApplied(id, targetType, targetId, before, after) =>
      && Uses(d, s, e, id) && Warrants(s, id, targetType, targetId, after, before)
  }

  /** The event establishes the fact. */
  predicate Makes(d: Digests, s: State, e: Event, f: Fact) {
    match f
    case Proposal(id, r) =>
      && e.op == Propose(id, r.targetType, r.targetId, r.proposedDigest, r.expectedDigest, r.risk)
      && e.actor == r.proposedBy && r.status == Proposed && r.approvedBy.None?
    case Approval(id, actor) => e.op == Decide(id, true) && e.actor == actor && Open(s, id, actor)
    case Rejection(id) => e.op == Decide(id, false) && Open(s, id, e.actor)
    case Application(id) => Uses(d, s, e, id)
    case InPolicies(i, p) => i == |s.policies| && e.op.ApplyPolicy? && AppliesPolicy(d, s, e, p, e.op.requestId)
    case HoldIsPlaced(h) => e.op == PlaceHold(h)
    case HoldIsReleased(h, id, actor) => e.actor == actor && Releases(d, s, e, h, id)
    case InRoots(i, revision, trust, at, id) =>
      || (i == 0 && revision == 1 && Bootstraps(d, s, e, trust, at, id))
      || (&& e.op.Rotate? && i == |s.roots| && Rotates(d, s, e, e.op.plan, trust)
          && e.op.plan.toRevision == revision && e.op.plan.activateAt == at && e.op.plan.requestId == id)
    case Retirement(i, at) =>
      e.op.Rotate? && i == |s.roots| - 1 && Rotates(d, s, e, e.op.plan, e.op.trust) && e.op.plan.overlapUntil == at
    case Audited(entry) => Records(d, s, e, entry)
  }

  // ---------------------------------------------------------------- one step

  lemma PolicyFacts(d: Digests, s: State, e: Event, f: Fact)
    requires e.op.ApplyPolicy?
    ensures Holds(Step(d, s, e.op, e.actor, e.now), f) <==> Holds(s, f) || Makes(d, s, e, f)
  {
  }

  lemma ReleaseFacts(d: Digests, s: State, e: Event, f: Fact)
    requires e.op.ReleaseHold?
    ensures Holds(Step(d, s, e.op, e.actor, e.now), f) <==> Holds(s, f) || Makes(d, s, e, f)
  {
  }

  lemma BootstrapFacts(d: Digests, s: State, e: Event, f: Fact)
    requires e.op.Bootstrap?
    ensures Holds(Step(d, s, e.op, e.actor, e.now), f) <==> Holds(s, f) || Makes(d, s, e, f)
  {
  }

  lemma RotateFacts(d: Digests, s: State, e: Event, f: Fact)
    requires e.op.Rotate? && (s.roots != [] ==> s.roots[|s.roots| - 1].retiredAt.None?)
    ensures Holds(Step(d, s, e.op, e.actor, e.now), f) <==> Holds(s, f) || Makes(d, s, e, f)
  {
  }

  lemma OtherFacts(d: Digests, s: State, e: Event, f: Fact)
    requires e.op.Propose? || e.op.Decide? || e.op.PlaceHold?
    requires Enabled(s, e.op) && forall id | id in s.requests :: RequestOk(s.requests[id])
    ensures Holds(Step(d, s, e.op, e.actor, e.now), f) <==> Holds(s, f) || Makes(d, s, e, f)
  {
  }

  lemma StepOnFacts(d: Digests, s: State, e: Event, f: Fact)
    requires Inv(d, s) && Enabled(s, e.op)
    ensures Holds(Step(d, s, e.op, e.actor, e.now), f) <==> Holds(s, f) || Makes(d, s, e, f)
  {
    hide Step, Makes, Holds, ApplicationsOk, PoliciesOk, RootsOk, HoldsOk;
    match e.op
    case ApplyPolicy(_, _) => PolicyFacts(d, s, e, f);
    case ReleaseHold(_, _) => ReleaseFacts(d, s, e, f);
    case Bootstrap(_, _, _) => BootstrapFacts(d, s, e, f);
    case Rotate(_, _) =>
      if s.roots != [] { LastIsCurrent(d, s); }
      RotateFacts(d, s, e, f);
    case _ => OtherFacts(d, s, e, f);
  }

  // ---------------------------------------------------------------- whole runs

  ghost predicate Runs(d: Digests, tenantId: string, run: seq<Event>) {
    Possible(d, Empty(tenantId), run)
  }

  ghost function StateOf(d: Digests, tenantId: string, run: seq<Event>): State
    requires Runs(d, tenantId, run)
  {
    After(d, Empty(tenantId), run)
  }

  lemma {:induction false} FrontIsPossible(d: Digests, s: State, run: seq<Event>)
    requires run != [] && Possible(d, s, run)
    ensures var front, e := run[..|run| - 1], run[|run| - 1];
            && Possible(d, s, front) && Enabled(After(d, s, front), e.op)
            && After(d, s, run) == Step(d, After(d, s, front), e.op, e.actor, e.now)
    decreases |run|
  {
    hide Step, Enabled;
    if |run| > 1 {
      assert run[1..][..|run| - 2] == run[..|run| - 1][1..];
      FrontIsPossible(d, Step(d, s, run[0].op, run[0].actor, run[0].now), run[1..]);
    }
  }

  lemma LastEvent(d: Digests, tenantId: string, run: seq<Event>)
    requires run != [] && Runs(d, tenantId, run)
    ensures var front, e := run[..|run| - 1], run[|run| - 1];
            && Runs(d, tenantId, front) && Enabled(StateOf(d, tenantId, front), e.op)
            && StateOf(d, tenantId, run) == Step(d, StateOf(d, tenantId, front), e.op, e.actor, e.now)
            && Inv(d, StateOf(d, tenantId, front))
  {
    hide Step, Enabled, Inv, Possible, After;
    FrontIsPossible(d, Empty(tenantId), run);
    EmptyInv(d, tenantId);
    AfterKeepsInv(d, Empty(tenantId), run[..|run| - 1]);
  }

  /** Event `k` establishes the fact. */
  ghost predicate MadeAt(d: Digests, tenantId: string, run: seq<Event>, k: nat, f: Fact) {
    k < |run| && Runs(d, tenantId, run[..k]) && Makes(d, StateOf(d, tenantId, run[..k]), run[k], f)
  }

  ghost predicate Made(d: Digests, tenantId: string, run: seq<Event>, f: Fact) {
    exists k :: MadeAt(d, tenantId, run, k, f)
  }

  lemma MadeGrows(d: Digests, tenantId: string, run: seq<Event>, e: Event, f: Fact)
    requires Runs(d, tenantId, run)
    ensures Made(d, tenantId, run + [e], f)
       <==> Made(d, tenantId, run, f) || Makes(d, StateOf(d, tenantId, run), e, f)
  {
    hide Runs, StateOf, Makes;
    var longer := run + [e];
    assert longer[..|run|] == run && forall k | 0 <= k < |run| :: longer[..k] == run[..k] && longer[k] == run[k];
    if k: nat :| MadeAt(d, tenantId, run, k, f) { assert MadeAt(d, tenantId, longer, k, f); }
    if Makes(d, StateOf(d, tenantId, run), e, f) { assert MadeAt(d, tenantId, longer, |run|, f); }
    if k: nat :| MadeAt(d, tenantId, longer, k, f) {
      if k < |run| { assert MadeAt(d, tenantId, run, k, f); }
    }
  }

  /** Over every run: a proposal, decision, application, policy, hold, release, root or retirement is there exactly when
      an event made it, in the state it met. An approving decision approves, a rejecting one rejects, and each takes
      effect when the request awaits it and the actor may take it. */
  lemma {:induction false} FactsExactlyMade(d: Digests, tenantId: string, run: seq<Event>, f: Fact)
    requires Runs(d, tenantId, run)
    ensures Holds(StateOf(d, tenantId, run), f) <==> Made(d, tenantId, run, f)
    decreases |run|
  {
    hide Runs, StateOf, Made, Holds, Makes, Step, Inv, Enabled;
    if run == [] {
      NoFacts(d, tenantId, f);
    } else {
      var front, e := run[..|run| - 1], run[|run| - 1];
      assert run == front + [e];
      LastEvent(d, tenantId, run);
      FactsExactlyMade(d, tenantId, front, f);
      StepOnFacts(d, StateOf(d, tenantId, front), e, f);
      MadeGrows(d, tenantId, front, e, f);
    }
  }

  lemma NoFacts(d: Digests, tenantId: string, f: Fact)
    ensures Runs(d, tenantId, []) && !Holds(StateOf(d, tenantId, []), f) && !Made(d, tenantId, [], f)
  {
  }

  // ---------------------------------------------------------------- what took effect was decided

  /** Events `j` and `k` propose this change and approve it; by different actors, if the risk is high or critical. */
  predicate DecidedAt(run: seq<Event>, j: nat, k: nat, id: nat, r: Request, approver: Actor) {
    && j < k < |run|
    && run[j].op == Propose(id, r.targetType, r.targetId, r.proposedDigest, r.expectedDigest, r.risk)
    && run[j].actor == r.proposedBy
    && run[k].op == Decide(id, true) && run[k].actor == approver
    && !(r.risk in {High, Critical} && run[j].actor == run[k].actor)
  }

  ghost predicate Decided(run: seq<Event>, id: nat, r: Request, approver: Actor) {
    exists j, k :: DecidedAt(run, j, k, id, r, approver)
  }

  /** Over every run: a request that is approved or applied was proposed as it stands and then approved by an event of
      just the actor it names. */
  lemma ApprovedWasDecided(d: Digests, tenantId: string, run: seq<Event>, id: nat)
    requires Runs(d, tenantId, run) && id in StateOf(d, tenantId, run).requests
    requires StateOf(d, tenantId, run).requests[id].status in {Approved, Applied}
    ensures var r := StateOf(d, tenantId, run).requests[id];
            r.approvedBy.Some? && Decided(run, id, r, r.approvedBy.value)
  {
    hide Runs, StateOf;
    var s := StateOf(d, tenantId, run);
    var r := s.requests[id];
    HasApprover(d, tenantId, run, id);
    var approver := r.approvedBy.value;
    FactsExactlyMade(d, tenantId, run, Approval(id, approver));
    var k: nat :| MadeAt(d, tenantId, run, k, Approval(id, approver));
    var u := StateOf(d, tenantId, run[..k]);
    var p := u.requests[id].(status := Proposed, approvedBy := None);
    FactsExactlyMade(d, tenantId, run[..k], Proposal(id, p));
    var j: nat :| MadeAt(d, tenantId, run[..k], j, Proposal(id, p));
    assert run[..k][..j] == run[..j];
    assert MadeAt(d, tenantId, run, j, Proposal(id, p));
    FactsExactlyMade(d, tenantId, run, Proposal(id, p));
    assert DecidedAt(run, j, k, id, r, approver);
  }

  lemma HasApprover(d: Digests, tenantId: string, run: seq<Event>, id: nat)
    requires Runs(d, tenantId, run) && id in StateOf(d, tenantId, run).requests
    requires StateOf(d, tenantId, run).requests[id].status in {Approved, Applied}
    ensures StateOf(d, tenantId, run).requests[id].approvedBy.Some?
  {
    hide ApplicationsOk, PoliciesOk, RootsOk, HoldsOk;
    EmptyInv(d, tenantId);
    AfterKeepsInv(d, Empty(tenantId), run);
    assert RequestOk(StateOf(d, tenantId, run).requests[id]);
  }

  /** Event `m` used a request of this target and digest that had been decided before, against what it replaced. */
  ghost predicate CameThrough(run: seq<Event>, m: nat, id: nat, targetType: TargetType, targetId: string,
                              digest: string, current: Option<string>) {
    m < |run| && exists r, approver ::
      && Decided(run[..m], id, r, approver)
      && r.targetType == targetType && r.targetId == targetId && r.proposedDigest == digest
      && r.expectedDigest == current
  }

  lemma WarrantCameThrough(d: Digests, tenantId: string, run: seq<Event>, m: nat, id: nat, targetType: TargetType,
                           targetId: string, digest: string, current: Option<string>)
    requires m < |run| && Runs(d, tenantId, run[..m])
    requires Warrants(StateOf(d, tenantId, run[..m]), id, targetType, targetId, digest, current)
    ensures CameThrough(run, m, id, targetType, targetId, digest, current)
  {
    hide Runs, StateOf, Decided;
    ApprovedWasDecided(d, tenantId, run[..m], id);
  }

  /** Every policy was put in place by an event, under a request that had been proposed and approved for it. */
  lemma PolicyWasDecided(d: Digests, tenantId: string, run: seq<Event>, i: nat) returns (m: nat, id: nat)
    requires Runs(d, tenantId, run) && i < |StateOf(d, tenantId, run).policies|
    ensures var p := StateOf(d, tenantId, run).policies[i];
            && m < |run| && run[m].op == ApplyPolicy(p, id) && Runs(d, tenantId, run[..m])
            && CameThrough(run, m, id, RetentionPolicy, p.policyId, d.policy(p),
                           LastDigest(d, StateOf(d, tenantId, run[..m]).policies))
  {
    hide Runs, StateOf, CameThrough;
    var p := StateOf(d, tenantId, run).policies[i];
    FactsExactlyMade(d, tenantId, run, InPolicies(i, p));
    m :| MadeAt(d, tenantId, run, m, InPolicies(i, p));
    id := run[m].op.requestId;
    WarrantCameThrough(d, tenantId, run, m, id, RetentionPolicy, p.policyId, d.policy(p),
                       LastDigest(d, StateOf(d, tenantId, run[..m]).policies));
  }

  /** Every released hold was released by an event of the actor it names, under such a request. */
  lemma ReleaseWasDecided(d: Digests, tenantId: string, run: seq<Event>, h: string) returns (m: nat)
    requires Runs(d, tenantId, run) && h in StateOf(d, tenantId, run).holds
    requires StateOf(d, tenantId, run).holds[h].Released?
    ensures var hold := StateOf(d, tenantId, run).holds[h];
            && m < |run| && run[m].op == ReleaseHold(h, hold.requestId) && run[m].actor == hold.releasedBy
            && CameThrough(run, m, hold.requestId, LegalHoldRelease, h, d.release(h), None)
  {
    hide Runs, StateOf, CameThrough;
    var hold := StateOf(d, tenantId, run).holds[h];
    FactsExactlyMade(d, tenantId, run, HoldIsReleased(h, hold.requestId, hold.releasedBy));
    m :| MadeAt(d, tenantId, run, m, HoldIsReleased(h, hold.requestId, hold.releasedBy));
    WarrantCameThrough(d, tenantId, run, m, hold.requestId, LegalHoldRelease, h, d.release(h), None);
  }

  /** Every trust root came from a bootstrap or a rotation, under such a request. */
  lemma RootWasDecided(d: Digests, tenantId: string, run: seq<Event>, i: nat) returns (m: nat)
    requires Runs(d, tenantId, run) && i < |StateOf(d, tenantId, run).roots|
    ensures var root := StateOf(d, tenantId, run).roots[i];
            && m < |run| && Runs(d, tenantId, run[..m])
            && (|| run[m].op == Bootstrap(root.policy, root.activatedAt, root.requestId)
                || (run[m].op.Rotate? && run[m].op.trust == root.policy && run[m].op.plan.requestId == root.requestId
                    && run[m].op.plan.activateAt == root.activatedAt))
            && CameThrough(run, m, root.requestId, TrustRootPolicy, root.policy.policyId, d.trust(root.policy),
                           var roots := StateOf(d, tenantId, run[..m]).roots;
                           if roots == [] then None else Some(roots[|roots| - 1].digest))
  {
    hide Runs, StateOf, CameThrough;
    var root := StateOf(d, tenantId, run).roots[i];
    var f := InRoots(i, root.revision, root.policy, root.activatedAt, root.requestId);
    FactsExactlyMade(d, tenantId, run, f);
    m :| MadeAt(d, tenantId, run, m, f);
    var roots := StateOf(d, tenantId, run[..m]).roots;
    WarrantCameThrough(d, tenantId, run, m, root.requestId, TrustRootPolicy, root.policy.policyId, d.trust(root.policy),
                       if roots == [] then None else Some(roots[|roots| - 1].digest));
  }

  /** An admissible decision takes effect at once: an approving one approves, a rejecting one rejects for good, and the
      rejected request is never applied, whatever follows. */
  lemma DecisionsAreFinal(d: Digests, tenantId: string, run: seq<Event>, e: Event, id: nat, approve: bool,
                          rest: seq<Event>)
    requires Runs(d, tenantId, run + [e] + rest) && Runs(d, tenantId, run)
    requires e.op == Decide(id, approve) && Open(StateOf(d, tenantId, run), id, e.actor)
    ensures var t := StateOf(d, tenantId, run + [e] + rest);
            && id in t.requests
            && (!approve ==> t.requests[id].status == Rejected)
            && (approve ==> t.requests[id].status in {Approved, Applied} && t.requests[id].approvedBy == Some(e.actor))
  {
    hide Runs, StateOf;
    var all := run + [e] + rest;
    assert all[..|run|] == run && all[|run|] == e;
    var f := if approve then Approval(id, e.actor) else Rejection(id);
    assert MadeAt(d, tenantId, all, |run|, f);
    FactsExactlyMade(d, tenantId, all, f);
  }
}
