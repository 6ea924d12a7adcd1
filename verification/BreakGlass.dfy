/** Break-glass grants over the events of a run: a grant is live exactly from its issue to its expiry or revocation,
    and a revocation stops everything done under the grant. */
module BreakGlass {
  import opened Common
  import opened Recovery
  import opened RecoverySafety
  import opened PromotionTargets
  import opened PromotionReach
  import opened RecoveryEvents

  /** Over every run: a use of a grant is admitted exactly when the grant was issued to this actor with this
      capability, its time is not over, and no revocation has named it since it was issued. */
  lemma LiveExactlyWhen(run: seq<Event>, id: nat, capability: Capability, actor: Actor, now: Time)
    ensures Live(After(EMPTY, run), id, capability, actor, now) <==>
              && (exists grant ::
                    && Made(run, HasGrant(id, grant))
                    && grant.operator == actor && capability in grant.capabilities && now < grant.expiresAt)
              && !exists k :: NamedBy(run, k, id)
  {
    hide After, Made;
    var s := After(EMPTY, run);
    FactsExactlyMade(run, IsRevoked(id));
    RevokedMeans(run, id);
    if id in s.grants { FactsExactlyMade(run, HasGrant(id, s.grants[id])); }
    if grant :| Made(run, HasGrant(id, grant)) && grant.operator == actor && capability in grant.capabilities
                && now < grant.expiresAt {
      FactsExactlyMade(run, HasGrant(id, grant));
    }
  }

  /** Event `k` revokes the grant, which was issued before. */
  predicate NamedBy(run: seq<Event>, k: nat, id: nat) {
    k < |run| && run[k].op == RevokeGrant(id) && id in At(run, k).grants
  }

  lemma RevokedMeans(run: seq<Event>, id: nat)
    ensures Made(run, IsRevoked(id)) <==> exists k :: NamedBy(run, k, id)
  {
    hide At;
    if k: nat :| MadeAt(run, k, IsRevoked(id)) { assert NamedBy(run, k, id); }
    if k: nat :| NamedBy(run, k, id) { assert MadeAt(run, k, IsRevoked(id)); }
  }

  // ---------------------------------------------------------------- after a revocation

  /** Nothing was done under the grant from `s` to `t`: no restore planned, and of the restores planned under it
      nothing scanned, closed, committed or completed. */
  ghost predicate Idle(s: State, t: State, id: nat) {
    && (forall r | r in t.plans && t.plans[r].grantId == id :: r in s.plans && s.plans[r] == t.plans[r])
    && (forall r | r in s.plans && s.plans[r].grantId == id ::
          r in t.plans && t.plans[r] == s.plans[r] && SameProgress(s, t, r))
  }

  ghost predicate SameProgress(s: State, t: State, r: nat) {
    && (forall scan | scan in t.scans && t.scans[scan].restoreId == r ::
          scan in s.scans && s.scans[scan] == t.scans[scan])
    && (r in t.gaps <==> r in s.gaps) && (r in s.gaps ==> t.gaps[r] == s.gaps[r])
    && RecoveriesOf(t, r) == RecoveriesOf(s, r)
    && (r in t.results <==> r in s.results) && (r in s.results ==> t.results[r] == s.results[r])
  }

  lemma NotPermitted(s: State, r: nat, capability: Capability, actor: Actor, now: Time)
    requires r in s.plans && s.plans[r].grantId in s.revoked
    ensures !Permits(s, r, capability, actor, now)
  {
  }

  lemma StepOnRevoked(s: State, e: Event, id: nat)
    requires id in s.revoked || (e.op == RevokeGrant(id) && id in s.grants)
    ensures id in Step(s, e.op, e.actor, e.now).revoked
  {
    var f := IsRevoked(id);
    if About(e.op, f) {
      PlainFacts(s, e, f);
    } else {
      hide Step;
      StepsOnOneTable(s, e);
    }
  }

  lemma RevokedStep(s: State, op: Op, actor: Actor, now: Time, id: nat)
    requires id in s.revoked
    ensures id in Step(s, op, actor, now).revoked && Idle(s, Step(s, op, actor, now), id)
  {
    hide Step, SameProgress;
    var t := Step(s, op, actor, now);
    StepOnRevoked(s, Event(op, actor, now), id);
    StepAdds(s, op, actor, now);
    if op.PlanRestore? { RevokedPlans(s, op.restoreId, op.backupId, op.grantId, actor, now, id); }
    forall r | r in s.plans && s.plans[r].grantId == id ensures SameProgress(s, t, r) {
      RevokedProgress(s, op, actor, now, r);
    }
  }

  lemma RevokedPlans(s: State, r: nat, b: nat, g: nat, actor: Actor, now: Time, id: nat)
    requires id in s.revoked
    ensures var t := Step(s, PlanRestore(r, b, g), actor, now);
            forall q | q in t.plans && t.plans[q].grantId == id :: q in s.plans && s.plans[q] == t.plans[q]
  {
    hide ActiveProfile;
  }

  lemma RevokedProgress(s: State, op: Op, actor: Actor, now: Time, r: nat)
    requires r in s.plans && s.plans[r].grantId in s.revoked
    ensures SameProgress(s, Step(s, op, actor, now), r)
  {
    forall capability ensures !Permits(s, r, capability, actor, now) { NotPermitted(s, r, capability, actor, now); }
    hide Permits, SameProgress, PlanStep, IssueStep, CommitStep, CompleteStep, Recordable, Publishable;
    match op
    case RecordScan(id, q, verified) => RevokedScans(s, id, q, verified, actor, now, r);
    case RecordGap(q, n) => RevokedGaps(s, q, n, actor, now, r);
    case Commit(i) =>
      if i < |s.pending| && s.pending[i].Some? { RevokedCommits(s, i, actor, now, r); }
      else { SameOfItself(s, r); }
    case CompleteRestore(q, scan) => RevokedCompletes(s, q, scan, actor, now, r);
    case _ => OtherProgress(s, op, actor, now, r);
  }

  lemma SameOfItself(s: State, r: nat)
    ensures SameProgress(s, s, r)
  {
  }

  lemma OtherProgress(s: State, op: Op, actor: Actor, now: Time, r: nat)
    requires !op.RecordScan? && !op.RecordGap? && !op.Commit? && !op.CompleteRestore?
    ensures SameProgress(s, Step(s, op, actor, now), r)
  {
    hide Step, RecoveriesOf;
    StepsOnOneTable(s, Event(op, actor, now));
    SameRows(s, Step(s, op, actor, now), r);
  }

  lemma RevokedScans(s: State, id: nat, q: nat, verified: bool, actor: Actor, now: Time, r: nat)
    requires !Permits(s, r, IntegrityScan, actor, now)
    ensures SameProgress(s, Step(s, RecordScan(id, q, verified), actor, now), r)
  {
    hide Permits, PlanStep, IssueStep, CommitStep, CompleteStep, Recordable, Publishable, RecoveriesOf;
    var t := Step(s, RecordScan(id, q, verified), actor, now);
    assert RecoveriesOf(t, r) == RecoveriesOf(s, r) by { SameRows(s, t, r); }
  }

  lemma RevokedGaps(s: State, q: nat, n: nat, actor: Actor, now: Time, r: nat)
    requires !Permits(s, r, Reconcile, actor, now)
    ensures SameProgress(s, Step(s, RecordGap(q, n), actor, now), r)
  {
    hide Permits, PlanStep, IssueStep, CommitStep, CompleteStep, Recordable, Publishable, RecoveriesOf;
    var t := Step(s, RecordGap(q, n), actor, now);
    assert RecoveriesOf(t, r) == RecoveriesOf(s, r) by { SameRows(s, t, r); }
  }

  lemma SameRows(s: State, t: State, r: nat)
    requires t.recoveries == s.recoveries
    ensures RecoveriesOf(t, r) == RecoveriesOf(s, r)
  {
  }

  lemma RevokedCommits(s: State, i: nat, actor: Actor, now: Time, r: nat)
    requires i < |s.pending| && s.pending[i].Some? && !Permits(s, r, Reconcile, actor, now)
    ensures SameProgress(s, CommitStep(s, i, actor, now), r)
  {
    hide Permits, CommitStep;
    CommitShape(s, i, actor, now);
  }

  lemma RevokedCompletes(s: State, q: nat, scan: nat, actor: Actor, now: Time, r: nat)
    requires !Permits(s, r, Failover, actor, now)
    ensures SameProgress(s, CompleteStep(s, q, scan, actor, now), r)
  {
    hide Permits, ActiveProfile, AllResolved, TargetsMet, StatusOf;
  }

  lemma IdleOn(s: State, t: State, u: State, id: nat)
    requires Idle(s, t, id) && Idle(t, u, id)
    ensures Idle(s, u, id)
  {
    hide SameProgress;
    forall r | r in s.plans && s.plans[r].grantId == id ensures SameProgress(s, u, r) { SameOn(s, t, u, r); }
  }

  lemma SameOn(s: State, t: State, u: State, r: nat)
    requires SameProgress(s, t, r) && SameProgress(t, u, r)
    ensures SameProgress(s, u, r)
  {
    hide RecoveriesOf;
  }

  lemma {:induction false} RevokedRun(s: State, run: seq<Event>, id: nat)
    requires id in s.revoked
    ensures id in After(s, run).revoked && Idle(s, After(s, run), id)
    decreases |run|
  {
    hide Step, Idle;
    if run == [] {
      NothingDone(s, id);
    } else {
      var e := run[0];
      var t := Step(s, e.op, e.actor, e.now);
      RevokedStep(s, e.op, e.actor, e.now, id);
      RevokedRun(t, run[1..], id);
      IdleOn(s, t, After(t, run[1..]), id);
    }
  }

  lemma NothingDone(s: State, id: nat)
    ensures Idle(s, s, id)
  {
  }

  /** Once a revocation names an issued grant, no continuation plans a restore under it, or scans, closes the gap of,
      reconciles or completes a restore that was planned under it. */
  lemma RevocationIsFinal(s: State, id: nat, actor: Actor, now: Time, rest: seq<Event>)
    requires id in s.grants
    ensures Idle(s, After(s, [Event(RevokeGrant(id), actor, now)] + rest), id)
  {
    hide Step, Idle, After;
    var e := Event(RevokeGrant(id), actor, now);
    var t := Step(s, e.op, actor, now);
    StepOnRevoked(s, e, id);
    assert t == s.(revoked := t.revoked, log := t.log) by { StepShaped(s, e.op, actor, now); }
    assert Idle(s, t, id) by { RevokingDoesNothing(s, t, id); }
    RevokedRun(t, rest, id);
    IdleOn(s, t, After(t, rest), id);
    assert After(s, [e] + rest) == After(t, rest) by { FirstEvent(s, e, rest); }
  }

  lemma RevokingDoesNothing(s: State, t: State, id: nat)
    requires t == s.(revoked := t.revoked, log := t.log)
    ensures Idle(s, t, id)
  {
  }

  lemma FirstEvent(s: State, e: Event, rest: seq<Event>)
    ensures After(s, [e] + rest) == After(Step(s, e.op, e.actor, e.now), rest)
  {
    hide Step;
    assert ([e] + rest)[1..] == rest;
  }

  /** So a restore without a result whose grant is named by a revocation can no longer be promoted. */
  lemma RevokedCannotPromote(s: State, r: nat, actor: Actor, now: Time)
    requires r in s.plans && s.plans[r].grantId in s.grants && r !in s.results
    ensures !CanPromote(Step(s, RevokeGrant(s.plans[r].grantId), actor, now), r, now)
  {
    hide Step, After;
    var id := s.plans[r].grantId;
    var e := Event(RevokeGrant(id), actor, now);
    var t := Step(s, e.op, actor, now);
    if CanPromote(t, r, now) {
      var run, until :| Timed(run, now, until) && Promoted(After(t, run), r);
      RevocationIsFinal(s, id, actor, now, run);
      FirstEvent(s, e, run);
    }
  }
}
