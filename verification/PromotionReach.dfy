/** When a restore can still be promoted: exactly when nothing that is final already stands in its way. A record
    left open, a gap with unresolved effects, an attempt that became uncertain after the commit, a revoked or
    outlived grant, a newer profile and a missed objective are each in the way for good. */
module PromotionReach {
  import opened Common
  import opened Recovery
  import opened RecoverySafety
  import opened PromotionTargets

  // ---------------------------------------------------------------- runs under a clock

  /** Events at clock readings that do not run backwards, from `from` to `until`. */
  ghost predicate Timed(run: seq<Event>, from: Time, until: Time)
    decreases |run|
  {
    if run == [] then from <= until else from <= run[0].now && Timed(run[1..], run[0].now, until)
  }

  /** Some run leads to `s` by `now`. */
  ghost predicate Reachable(s: State, now: Time) {
    exists run, from :: Timed(run, from, now) && After(EMPTY, run) == s
  }

  predicate Promoted(s: State, r: nat) {
    r in s.results && s.results[r].promoted
  }

  /** Some continuation, from `now` on, promotes the restore. */
  ghost predicate CanPromote(s: State, r: nat, now: Time) {
    exists run, until :: Timed(run, now, until) && Promoted(After(s, run), r)
  }

  // ---------------------------------------------------------------- what is in the way

  ghost predicate ScanVerified(s: State, r: nat) {
    exists id :: id in s.scans && s.scans[id] == Scan(r, true)
  }

  /** Uncertain attempts are still to be reconciled for the restore. */
  predicate Unreconciled(s: State, r: nat) {
    RecoveriesOf(s, r) == map[] && s.uncertain != {}
  }

  /** The plan's grant can still authorize what the restore lacks. */
  ghost predicate GrantSuffices(s: State, r: nat, now: Time)
    requires r in s.plans
  {
    var id := s.plans[r].grantId;
    && id in s.grants && id !in s.revoked && now < s.grants[id].expiresAt
    && Failover in s.grants[id].capabilities
    && (!ScanVerified(s, r) ==> IntegrityScan in s.grants[id].capabilities)
    && (r !in s.gaps || Unreconciled(s, r) ==> Reconcile in s.grants[id].capabilities)
  }

  /** The plan's profile is in force and its objectives can still be met. */
  predicate ObjectivesOpen(s: State, r: nat, now: Time)
    requires r in s.plans
  {
    var plan, active := s.plans[r], ActiveProfile(s.profiles, now);
    && active.Some? && active.value.profileId == plan.profileId && active.value.revision == plan.profileRevision
    && plan.backupId in s.backups && TargetsMet(plan, s.backups[plan.backupId], active.value, now)
  }

  /** No record was committed yet, or those committed cover the attempts uncertain now and leave none open. */
  predicate RecordsOpen(s: State, r: nat) {
    RecoveriesOf(s, r) == map[] || AllResolved(s.uncertain, RecoveriesOf(s, r))
  }

  predicate GapOpen(s: State, r: nat) {
    r !in s.gaps || s.gaps[r] == 0
  }

  ghost predicate Promotable(s: State, r: nat, now: Time) {
    if r in s.results then s.results[r].promoted
    else
      r in s.plans ==>
        GrantSuffices(s, r, now) && ObjectivesOpen(s, r, now) && RecordsOpen(s, r) && GapOpen(s, r)
  }

  // ---------------------------------------------------------------- the invariant

  /** The plan was made by `clock`, under a known grant, for a profile that was effective then. */
  ghost predicate PlanTimed(s: State, plan: Plan, clock: Time) {
    && plan.grantId in s.grants && plan.failureDetectedAt <= clock
    && 1 <= plan.profileRevision <= |s.profiles|
    && s.profiles[plan.profileRevision - 1].profileId == plan.profileId
    && s.profiles[plan.profileRevision - 1].effectiveAt <= plan.failureDetectedAt
  }

  ghost predicate PlansTimed(s: State, clock: Time) {
    forall r | r in s.plans :: PlanTimed(s, s.plans[r], clock)
  }

  /** Nothing is recorded for a restore that was not planned. */
  ghost predicate OnlyPlanned(s: State) {
    forall r :: r in s.results || r in s.gaps || r in s.recoveries ==> r in s.plans
  }

  ghost predicate Known(s: State, clock: Time) {
    Inv(s) && PlansOk(s) && PlansTimed(s, clock) && OnlyPlanned(s)
  }

  lemma PlanKeepsTimes(s: State, r: nat, backupId: nat, grantId: nat, actor: Actor, now: Time)
    requires RevisionsAscend(s.profiles) && PlansTimed(s, now)
    ensures PlansTimed(PlanStep(s, r, backupId, grantId, actor, now), now)
  {
    hide ActiveProfile, RevisionsAscend;
    var t := PlanStep(s, r, backupId, grantId, actor, now);
    if t != s {
      ActiveIsInForce(s.profiles, now);
      var p := ActiveProfile(s.profiles, now).value;
      var i :| 0 <= i < |s.profiles| && s.profiles[i] == p;
      RevisionAt(s.profiles, i);
      assert PlanTimed(t, t.plans[r], now);
    }
  }

  lemma RevisionAt(profiles: seq<Profile>, i: nat)
    requires RevisionsAscend(profiles) && i < |profiles|
    ensures profiles[i].revision == i + 1
  {
  }

  /** Grants, backups, profiles and plans are only added. */
  predicate OnlyAdds(s: State, t: State) {
    && (forall r | r in s.plans :: r in t.plans && t.plans[r] == s.plans[r])
    && |s.profiles| <= |t.profiles| && (forall i | 0 <= i < |s.profiles| :: t.profiles[i] == s.profiles[i])
    && (forall g | g in s.grants :: g in t.grants && t.grants[g] == s.grants[g])
    && (forall b | b in s.backups :: b in t.backups && t.backups[b] == s.backups[b])
  }

  lemma ShapedAdds(s: State, t: State, op: Op)
    requires Shaped(s, t, op)
    ensures OnlyAdds(s, t) && (!op.PlanRestore? ==> t.plans == s.plans)
  {
  }

  lemma StepAdds(s: State, op: Op, actor: Actor, now: Time)
    ensures var t := Step(s, op, actor, now); OnlyAdds(s, t) && (!op.PlanRestore? ==> t.plans == s.plans)
  {
    hide Step, Shaped, OnlyAdds;
    StepShaped(s, op, actor, now);
    ShapedAdds(s, Step(s, op, actor, now), op);
  }

  lemma StepKeepsTimes(s: State, op: Op, actor: Actor, clock: Time, now: Time)
    requires PlansOk(s) && PlansTimed(s, clock) && clock <= now
    ensures PlansTimed(Step(s, op, actor, now), now)
  {
    hide PlansOk, PlanStep, CommitStep, CompleteStep, Permits, Recordable, IssueStep, Publishable;
    assert PlansTimed(s, now);
    if op.PlanRestore? {
      hide PlansTimed;
      ProfilesAscend(s);
      PlanKeepsTimes(s, op.restoreId, op.backupId, op.grantId, actor, now);
    } else {
      hide Step;
      StepAdds(s, op, actor, now);
    }
  }

  lemma ProfilesAscend(s: State)
    requires PlansOk(s)
    ensures RevisionsAscend(s.profiles)
  {
  }

  lemma CommitKeepsPlanned(s: State, i: nat, actor: Actor, now: Time)
    requires OnlyPlanned(s) && i < |s.pending| && s.pending[i].Some?
    ensures OnlyPlanned(CommitStep(s, i, actor, now))
  {
    hide CommitStep, Live, RecoveriesOf;
    CommitShape(s, i, actor, now);
  }

  lemma CompletionKeepsPlanned(s: State, r: nat, scanId: nat, actor: Actor, now: Time)
    requires OnlyPlanned(s)
    ensures OnlyPlanned(CompleteStep(s, r, scanId, actor, now))
  {
    hide Live, ActiveProfile, AllResolved, TargetsMet, StatusOf, RecoveriesOf;
  }

  lemma StepKeepsPlanned(s: State, op: Op, actor: Actor, now: Time)
    requires OnlyPlanned(s)
    ensures OnlyPlanned(Step(s, op, actor, now))
  {
    hide Live, ActiveProfile, CommitStep, CompleteStep, Recordable, Issuable, Publishable;
    if op.Commit? || op.CompleteRestore? {
      hide OnlyPlanned;
      match op
      case Commit(i) => if i < |s.pending| && s.pending[i].Some? { CommitKeepsPlanned(s, i, actor, now); }
      case CompleteRestore(r, scanId) => CompletionKeepsPlanned(s, r, scanId, actor, now);
    }
  }

  lemma StepKeepsKnown(s: State, op: Op, actor: Actor, clock: Time, now: Time)
    requires Known(s, clock) && clock <= now
    ensures Known(Step(s, op, actor, now), now)
  {
    hide Inv, PlansOk, PlansTimed, OnlyPlanned, Step;
    StepKeepsInv(s, op, actor, now);
    StepKeepsPlans(s, op, actor, now);
    StepKeepsTimes(s, op, actor, clock, now);
    StepKeepsPlanned(s, op, actor, now);
  }

  lemma {:induction false} AfterKeepsKnown(s: State, run: seq<Event>, from: Time, until: Time)
    requires Known(s, from) && Timed(run, from, until)
    ensures Known(After(s, run), until)
    decreases |run|
  {
    hide Known, Step;
    if run == [] {
      LaterKnown(s, from, until);
    } else {
      var e := run[0];
      StepKeepsKnown(s, e.op, e.actor, from, e.now);
      AfterKeepsKnown(Step(s, e.op, e.actor, e.now), run[1..], e.now, until);
    }
  }

  lemma LaterKnown(s: State, clock: Time, now: Time)
    requires Known(s, clock) && clock <= now
    ensures Known(s, now)
  {
    hide Inv, PlansOk;
    assert forall plan :: PlanTimed(s, plan, clock) ==> PlanTimed(s, plan, now);
  }

  lemma ReachableKnown(s: State, now: Time)
    requires Reachable(s, now)
    ensures Known(s, now)
  {
    hide Timed, After, Known;
    var run, from :| Timed(run, from, now) && After(EMPTY, run) == s;
    EmptyKnown(from);
    AfterKeepsKnown(EMPTY, run, from, now);
  }

  lemma EmptyKnown(clock: Time)
    ensures Known(EMPTY, clock)
  {
    EmptyInv();
  }

  // ---------------------------------------------------------------- what is in the way stays in the way

  /** While a plan's profile is in force, it was in force all the time since the plan was made. */
  lemma InForceSince(s: State, plan: Plan, clock: Time, now: Time)
    requires PlansOk(s) && PlanTimed(s, plan, clock) && clock <= now
    requires var p := ActiveProfile(s.profiles, now); p.Some? && p.value.revision == plan.profileRevision
    ensures ActiveProfile(s.profiles, clock) == ActiveProfile(s.profiles, now)
  {
    ActiveIsInForce(s.profiles, clock);
    ActiveIsInForce(s.profiles, now);
    var p := s.profiles[plan.profileRevision - 1];
    var q := ActiveProfile(s.profiles, now).value;
    var i :| 0 <= i < |s.profiles| && s.profiles[i] == q;
    assert q == p;
  }

  lemma ObjectivesStayClosed(s: State, r: nat, clock: Time, now: Time)
    requires PlansOk(s) && PlansTimed(s, clock) && clock <= now && r in s.plans && ObjectivesOpen(s, r, now)
    ensures ObjectivesOpen(s, r, clock)
  {
    hide PlansOk, ActiveProfile;
    InForceSince(s, s.plans[r], clock, now);
  }

  lemma LaterIsNoBetter(s: State, r: nat, clock: Time, now: Time)
    requires Known(s, clock) && clock <= now && Promotable(s, r, now)
    ensures Promotable(s, r, clock)
  {
    hide Inv, PlansOk, PlansTimed, ObjectivesOpen, RecordsOpen, GapOpen, ScanVerified;
    if r !in s.results && r in s.plans { ObjectivesStayClosed(s, r, clock, now); }
  }

  /** The restore's own grant authorizes the capability now. */
  predicate Granted(s: State, r: nat, capability: Capability, now: Time)
    requires r in s.plans
  {
    var id := s.plans[r].grantId;
    && id in s.grants && id !in s.revoked && now < s.grants[id].expiresAt && capability in s.grants[id].capabilities
  }

  /** What a step may do to a planned restore: add rows, each under the restore's own grant. */
  ghost predicate Forward(s: State, t: State, r: nat, now: Time)
    requires r in s.plans
  {
    && OnlyAdds(s, t)
    && s.revoked <= t.revoked && s.uncertain <= t.uncertain
    && (ScanVerified(t, r) ==> ScanVerified(s, r) || Granted(s, r, IntegrityScan, now))
    && (if r in s.gaps then r in t.gaps && t.gaps[r] == s.gaps[r]
        else r in t.gaps ==> Granted(s, r, Reconcile, now))
    && (RecoveriesOf(t, r) == RecoveriesOf(s, r)
        || (RecoveriesOf(s, r) == map[] && Granted(s, r, Reconcile, now)))
  }

  lemma PermitsGranted(s: State, r: nat, capability: Capability, actor: Actor, now: Time)
    requires r in s.plans && Permits(s, r, capability, actor, now)
    ensures Granted(s, r, capability, now)
  {
  }

  lemma CommitIsForward(s: State, i: nat, actor: Actor, now: Time, r: nat)
    requires r in s.plans && i < |s.pending| && s.pending[i].Some? && RecoveriesOf(s, r).Keys <= s.uncertain
    ensures Forward(s, CommitStep(s, i, actor, now), r, now)
  {
    hide Granted, Permits, CommitStep, OnlyAdds, ScanVerified;
    StepAdds(s, Commit(i), actor, now);
    SameScans(s, CommitStep(s, i, actor, now), r);
    var o, rows, t := s.pending[i].value, RecoveriesOf(s, r), CommitStep(s, i, actor, now);
    CommitShape(s, i, actor, now);
    if t.recoveries != s.recoveries && o.restoreId == r {
      PermitsGranted(s, r, Reconcile, actor, now);
      assert rows == map[] by { assert rows.Keys * o.records.Keys == rows.Keys; }
    }
  }

  lemma CompletionIsForward(s: State, restoreId: nat, scanId: nat, actor: Actor, now: Time, r: nat)
    requires r in s.plans
    ensures Forward(s, CompleteStep(s, restoreId, scanId, actor, now), r, now)
  {
    hide Granted, Permits, ActiveProfile, AllResolved, TargetsMet, StatusOf, OnlyAdds;
    StepAdds(s, CompleteRestore(restoreId, scanId), actor, now);
  }

  lemma SameScans(s: State, t: State, r: nat)
    ensures t.scans == s.scans ==> (ScanVerified(t, r) <==> ScanVerified(s, r))
  {
  }

  lemma ScanIsForward(s: State, id: nat, restoreId: nat, verified: bool, actor: Actor, now: Time, r: nat)
    requires r in s.plans
    ensures Forward(s, Step(s, RecordScan(id, restoreId, verified), actor, now), r, now)
  {
    hide Granted, Permits, OnlyAdds;
    StepAdds(s, RecordScan(id, restoreId, verified), actor, now);
    if Permits(s, r, IntegrityScan, actor, now) { PermitsGranted(s, r, IntegrityScan, actor, now); }
  }

  lemma GapIsForward(s: State, restoreId: nat, unresolved: nat, actor: Actor, now: Time, r: nat)
    requires r in s.plans
    ensures Forward(s, Step(s, RecordGap(restoreId, unresolved), actor, now), r, now)
  {
    hide Granted, Permits, OnlyAdds, ScanVerified;
    SameScans(s, Step(s, RecordGap(restoreId, unresolved), actor, now), r);
    StepAdds(s, RecordGap(restoreId, unresolved), actor, now);
    if Permits(s, r, Reconcile, actor, now) { PermitsGranted(s, r, Reconcile, actor, now); }
  }

  /** The operations that record no scan, gap, recovery or result. */
  predicate Bystands(op: Op) {
    !op.RecordScan? && !op.RecordGap? && !op.Commit? && !op.CompleteRestore?
  }

  /** Scans, gaps, recoveries and results are the same, and nothing is taken back. */
  predicate SameRecords(s: State, t: State) {
    && t.scans == s.scans && t.gaps == s.gaps && t.recoveries == s.recoveries && t.results == s.results
    && s.revoked <= t.revoked && s.uncertain <= t.uncertain
  }

  lemma ShapedSameRecords(s: State, t: State, op: Op)
    requires Bystands(op) && Shaped(s, t, op)
    ensures SameRecords(s, t)
  {
  }

  lemma BystanderTables(s: State, op: Op, actor: Actor, now: Time)
    requires Bystands(op)
    ensures SameRecords(s, Step(s, op, actor, now))
  {
    hide Step, Shaped, SameRecords;
    StepShaped(s, op, actor, now);
    ShapedSameRecords(s, Step(s, op, actor, now), op);
  }

  lemma BystanderIsForward(s: State, op: Op, actor: Actor, now: Time, r: nat)
    requires r in s.plans && Bystands(op)
    ensures Forward(s, Step(s, op, actor, now), r, now)
  {
    hide Granted, OnlyAdds, ScanVerified, Step;
    BystanderTables(s, op, actor, now);
    SameScans(s, Step(s, op, actor, now), r);
    StepAdds(s, op, actor, now);
  }

  lemma StepIsForward(s: State, op: Op, actor: Actor, now: Time, r: nat)
    requires r in s.plans && RecoveriesOf(s, r).Keys <= s.uncertain
    ensures Forward(s, Step(s, op, actor, now), r, now)
  {
    hide Forward, PlanStep, CommitStep, CompleteStep, Permits, Recordable;
    match op
    case Commit(i) =>
      if i < |s.pending| && s.pending[i].Some? {
        CommitIsForward(s, i, actor, now, r);
      } else {
        StandingStill(s, r, now);
      }
    case CompleteRestore(restoreId, scanId) => CompletionIsForward(s, restoreId, scanId, actor, now, r);
    case RecordScan(id, restoreId, verified) => ScanIsForward(s, id, restoreId, verified, actor, now, r);
    case RecordGap(restoreId, unresolved) => GapIsForward(s, restoreId, unresolved, actor, now, r);
    case _ => BystanderIsForward(s, op, actor, now, r);
  }

  lemma StandingStill(s: State, r: nat, now: Time)
    requires r in s.plans
    ensures Forward(s, s, r, now)
  {
  }

  lemma GrantNoBetter(s: State, t: State, now: Time, r: nat)
    requires r in s.plans && s.plans[r].grantId in s.grants && Forward(s, t, r, now) && GrantSuffices(t, r, now)
    ensures GrantSuffices(s, r, now)
  {
    hide ScanVerified;
  }

  lemma RowsNoBetter(s: State, t: State, now: Time, r: nat)
    requires r in s.plans && Forward(s, t, r, now) && RecoveriesOf(s, r).Keys <= s.uncertain
    ensures (RecordsOpen(t, r) ==> RecordsOpen(s, r)) && (GapOpen(t, r) ==> GapOpen(s, r))
  {
    hide ScanVerified, Granted, OnlyAdds;
  }

  /** A profile in force among more of them was in force among fewer, if it was one of those. */
  lemma InForceBefore(fewer: seq<Profile>, more: seq<Profile>, at: Time)
    requires RevisionsAscend(fewer) && RevisionsAscend(more)
    requires |fewer| <= |more| && forall i | 0 <= i < |fewer| :: more[i] == fewer[i]
    requires var q := ActiveProfile(more, at); q.Some? && q.value.revision <= |fewer|
    ensures ActiveProfile(fewer, at) == ActiveProfile(more, at)
  {
    hide ActiveProfile;
    ActiveIsInForce(fewer, at);
    ActiveIsInForce(more, at);
    var q := ActiveProfile(more, at).value;
    var j :| 0 <= j < |more| && more[j] == q;
    assert fewer[j] == q;
    var p := ActiveProfile(fewer, at).value;
    var i :| 0 <= i < |fewer| && fewer[i] == p;
    assert more[i] == p;
  }

  lemma ObjectivesNoBetter(s: State, t: State, now: Time, r: nat)
    requires PlansOk(s) && PlansTimed(s, now) && PlansOk(t)
    requires r in s.plans && Forward(s, t, r, now) && ObjectivesOpen(t, r, now)
    ensures ObjectivesOpen(s, r, now)
  {
    hide ScanVerified, Granted, TargetsMet, ActiveProfile, RevisionsAscend;
    var plan := s.plans[r];
    assert PlanTimed(s, plan, now) && PlanOk(s, plan);
    InForceBefore(s.profiles, t.profiles, now);
  }

  lemma ResultsNoBetter(s: State, op: Op, actor: Actor, now: Time, r: nat)
    requires r in s.plans && r !in s.results && Promoted(Step(s, op, actor, now), r)
    ensures Promotable(s, r, now)
  {
    hide Step, Completes, ResultAt, ActiveProfile, TargetsMet;
    var e := Event(op, actor, now);
    assert Completes(s, e, r) && ResultAt(s, e, r).promoted by { PromotionCompletes(s, e, r); }
    OnlyCompletionCompletes(s, e, r);
    CompletionRecords(s, e, r);
    assert ScanVerified(s, r);
  }

  lemma PromotionCompletes(s: State, e: Event, r: nat)
    requires r !in s.results && Promoted(Step(s, e.op, e.actor, e.now), r)
    ensures Completes(s, e, r) && ResultAt(s, e, r).promoted
  {
  }

  lemma ResultsStay(s: State, op: Op, actor: Actor, now: Time, r: nat)
    requires r in s.results
    ensures var t := Step(s, op, actor, now); r in t.results && t.results[r] == s.results[r]
  {
    hide Permits, ActiveProfile, Recordable, RecoveriesOf, AllResolved, TargetsMet, StatusOf, Live;
    if op.Commit? && op.observation < |s.pending| && s.pending[op.observation].Some? {
      hide CommitStep;
      CommitShape(s, op.observation, actor, now);
    }
  }

  /** No step clears what was in the way. */
  lemma StepNoBetter(s: State, op: Op, actor: Actor, now: Time, r: nat)
    requires Known(s, now) && Promotable(Step(s, op, actor, now), r, now)
    ensures Promotable(s, r, now)
  {
    hide Step, Inv, PlansOk, PlansTimed, Forward, GrantSuffices, ObjectivesOpen, RecordsOpen, GapOpen;
    var t := Step(s, op, actor, now);
    if r in s.results {
      ResultsStay(s, op, actor, now, r);
    } else if r in s.plans {
      if r in t.results {
        ResultsNoBetter(s, op, actor, now, r);
      } else {
        RowsKnownOf(s, r);
        StepIsForward(s, op, actor, now, r);
        StepKeepsKnown(s, op, actor, now, now);
        StillPlanned(s, t, now, r);
        PartsNoBetter(s, t, now, r);
      }
    }
  }

  lemma StillPlanned(s: State, t: State, now: Time, r: nat)
    requires r in s.plans && Forward(s, t, r, now)
    ensures r in t.plans
  {
  }

  lemma RowsKnownOf(s: State, r: nat)
    requires Inv(s)
    ensures RecoveriesOf(s, r).Keys <= s.uncertain
  {
    RowsAreUncertain(s, r);
  }

  lemma PartsNoBetter(s: State, t: State, now: Time, r: nat)
    requires Known(s, now) && Known(t, now) && r in s.plans && Forward(s, t, r, now) && r in t.plans
    requires RecoveriesOf(s, r).Keys <= s.uncertain
    requires GrantSuffices(t, r, now) && ObjectivesOpen(t, r, now) && RecordsOpen(t, r) && GapOpen(t, r)
    ensures GrantSuffices(s, r, now) && ObjectivesOpen(s, r, now) && RecordsOpen(s, r) && GapOpen(s, r)
  {
    hide Inv, Forward, GrantSuffices, ObjectivesOpen, RecordsOpen, GapOpen, PlansOk;
    assert PlanTimed(s, s.plans[r], now);
    GrantNoBetter(s, t, now, r);
    ObjectivesNoBetter(s, t, now, r);
    RowsNoBetter(s, t, now, r);
  }

  lemma {:induction false} RunNoBetter(s: State, run: seq<Event>, from: Time, until: Time, r: nat)
    requires Known(s, from) && Timed(run, from, until) && Promoted(After(s, run), r)
    ensures Promotable(s, r, from)
    decreases |run|
  {
    hide Known, Step;
    if run != [] {
      hide Promotable;
      var e := run[0];
      StepKeepsKnown(s, e.op, e.actor, from, e.now);
      RunNoBetter(Step(s, e.op, e.actor, e.now), run[1..], e.now, until, r);
      LaterKnown(s, from, e.now);
      StepNoBetter(s, e.op, e.actor, e.now, r);
      LaterIsNoBetter(s, r, from, e.now);
    }
  }

  // ---------------------------------------------------------------- otherwise promotion is within reach

  /** A step now, and then whatever promotes. */
  lemma StepFirst(s: State, op: Op, actor: Actor, now: Time, r: nat)
    requires CanPromote(Step(s, op, actor, now), r, now)
    ensures CanPromote(s, r, now)
  {
    hide Step, Promoted;
    var t := Step(s, op, actor, now);
    var run, until :| Timed(run, now, until) && Promoted(After(t, run), r);
    var longer := [Event(op, actor, now)] + run;
    assert longer[1..] == run;
    assert Timed(longer, now, until) && Promoted(After(s, longer), r);
  }

  lemma AlreadyPromoted(s: State, r: nat, now: Time)
    requires Promoted(s, r)
    ensures CanPromote(s, r, now)
  {
    hide Promoted;
    assert Timed([], now, now) && After(s, []) == s;
  }

  function OperatorOf(s: State, r: nat): Actor {
    if r in s.plans && s.plans[r].grantId in s.grants then s.grants[s.plans[r].grantId].operator else Actor("", "")
  }

  lemma GrantedPermits(s: State, r: nat, capability: Capability, now: Time)
    requires r in s.plans && Granted(s, r, capability, now)
    ensures Permits(s, r, capability, OperatorOf(s, r), now)
  {
  }

  lemma Fresh(ids: set<nat>) returns (id: nat)
    ensures id !in ids
  {
    id := 0;
    while id in ids
      invariant forall k | 0 <= k < id :: k in ids
      decreases |ids| - id
    {
      UpTo(ids, id + 1);
      id := id + 1;
    }
  }

  lemma UpTo(ids: set<nat>, n: nat)
    requires forall k | 0 <= k < n :: k in ids
    ensures n <= |ids|
  {
    if n > 0 {
      UpTo(ids - {n - 1}, n - 1);
    }
  }

  /** A planned restore without a result, with nothing in its way. */
  ghost predicate Open(s: State, r: nat, now: Time) {
    && r in s.plans && r !in s.results
    && GrantSuffices(s, r, now) && ObjectivesOpen(s, r, now) && RecordsOpen(s, r) && GapOpen(s, r)
  }

  lemma CompleteLast(s: State, r: nat, now: Time)
    requires Open(s, r, now) && ScanVerified(s, r) && r in s.gaps && !Unreconciled(s, r)
    ensures CanPromote(s, r, now)
  {
    hide TargetsMet, ActiveProfile;
    var id :| id in s.scans && s.scans[id] == Scan(r, true);
    GrantedPermits(s, r, Failover, now);
    assert Promoted(Step(s, CompleteRestore(r, id), OperatorOf(s, r), now), r) by { hide Permits, RecoveriesOf; }
    AlreadyPromoted(Step(s, CompleteRestore(r, id), OperatorOf(s, r), now), r, now);
    StepFirst(s, CompleteRestore(r, id), OperatorOf(s, r), now, r);
  }

  lemma ScanThenComplete(s: State, r: nat, now: Time)
    requires Open(s, r, now) && r in s.gaps && !Unreconciled(s, r)
    ensures CanPromote(s, r, now)
  {
    hide CanPromote, ActiveProfile, TargetsMet;
    if ScanVerified(s, r) {
      CompleteLast(s, r, now);
    } else {
      var id := Fresh(s.scans.Keys);
      GrantedPermits(s, r, IntegrityScan, now);
      var t := Step(s, RecordScan(id, r, true), OperatorOf(s, r), now);
      assert t == s.(scans := t.scans, log := t.log) && id in t.scans && t.scans[id] == Scan(r, true);
      CompleteLast(t, r, now);
      StepFirst(s, RecordScan(id, r, true), OperatorOf(s, r), now, r);
    }
  }

  lemma ObserveNow(s: State, r: nat, records: Recoveries, actor: Actor, now: Time)
    requires Permits(s, r, Reconcile, actor, now) && records.Keys == s.uncertain
    ensures Step(s, Observe(r, records), actor, now) == s.(pending := s.pending + [Some(Observation(r, records))])
  {
    hide Permits;
  }

  lemma CommitNow(s: State, i: nat, r: nat, records: Recoveries, actor: Actor, now: Time)
    requires Permits(s, r, Reconcile, actor, now) && records.Keys == s.uncertain && RecoveriesOf(s, r) == map[]
    requires i < |s.pending| && s.pending[i] == Some(Observation(r, records))
    ensures var t := Step(s, Commit(i), actor, now);
            t == s.(pending := t.pending, recoveries := s.recoveries[r := records], log := t.log)
  {
    hide Permits, RecoveriesOf;
    assert map[] + records == records;
  }

  /** The uncertain attempts are observed, all matched, and the records committed. */
  lemma ObserveAndCommit(s: State, r: nat, now: Time) returns (t: State, u: State, records: Recoveries)
    requires r in s.plans && Granted(s, r, Reconcile, now) && RecoveriesOf(s, r) == map[]
    ensures t == Step(s, Observe(r, records), OperatorOf(s, r), now)
    ensures u == Step(t, Commit(|s.pending|), OperatorOf(s, r), now)
    ensures u == s.(pending := u.pending, recoveries := s.recoveries[r := records], log := u.log)
    ensures AllResolved(s.uncertain, records)
  {
    hide Granted, Permits, OperatorOf, Step;
    records := map a | a in s.uncertain :: MatchedSuccess;
    var actor := OperatorOf(s, r);
    assert records.Keys == s.uncertain;
    GrantedPermits(s, r, Reconcile, now);
    ObserveNow(s, r, records, actor, now);
    t := Step(s, Observe(r, records), actor, now);
    SamePermits(s, t, r, Reconcile, actor, now);
    CommitNow(t, |s.pending|, r, records, actor, now);
    u := Step(t, Commit(|s.pending|), actor, now);
  }

  lemma SamePermits(s: State, t: State, r: nat, capability: Capability, actor: Actor, now: Time)
    requires t == s.(pending := t.pending)
    ensures Permits(t, r, capability, actor, now) <==> Permits(s, r, capability, actor, now)
  {
  }

  lemma ReconcileThenScan(s: State, r: nat, now: Time)
    requires Open(s, r, now) && r in s.gaps
    ensures CanPromote(s, r, now)
  {
    hide CanPromote, ActiveProfile, TargetsMet, ScanVerified, Step;
    if !Unreconciled(s, r) {
      ScanThenComplete(s, r, now);
    } else {
      var t, u, records := ObserveAndCommit(s, r, now);
      SameScans(s, u, r);
      ScanThenComplete(u, r, now);
      StepFirst(t, Commit(|s.pending|), OperatorOf(s, r), now, r);
      StepFirst(s, Observe(r, records), OperatorOf(s, r), now, r);
    }
  }

  lemma CloseThenReconcile(s: State, r: nat, now: Time)
    requires Open(s, r, now)
    ensures CanPromote(s, r, now)
  {
    hide CanPromote, ActiveProfile, TargetsMet, ScanVerified, RecordsOpen;
    if r in s.gaps {
      ReconcileThenScan(s, r, now);
    } else {
      GrantedPermits(s, r, Reconcile, now);
      var t := Step(s, RecordGap(r, 0), OperatorOf(s, r), now);
      assert t == s.(gaps := s.gaps[r := 0], log := t.log);
      SameScans(s, t, r);
      assert RecordsOpen(t, r) by { RecordsStayOpen(s, t, r); }
      ReconcileThenScan(t, r, now);
      StepFirst(s, RecordGap(r, 0), OperatorOf(s, r), now, r);
    }
  }

  lemma RecordsStayOpen(s: State, t: State, r: nat)
    requires t.recoveries == s.recoveries && t.uncertain == s.uncertain
    ensures RecordsOpen(t, r) <==> RecordsOpen(s, r)
  {
  }

  const OPERATOR := Actor("human", "operator")
  const APPROVER := Actor("human", "approver")

  /** All that a restore calls for. */
  const HANDLED := {Restore, Failover, IntegrityScan, Reconcile}

  /** A restore that is not planned yet can be: with a profile, a grant and a backup of its own. */
  lemma PlanFirst(s: State, r: nat, now: Time)
    requires Known(s, now) && r !in s.plans && r !in s.results
    ensures CanPromote(s, r, now)
  {
    hide CanPromote, Inv, PlansTimed, PlansOk;
    var g := Fresh(s.grants.Keys + s.revoked);
    var b := Fresh(s.backups.Keys);
    var profile := Profile("profile", |s.profiles| + 1, 1, 1, SHORTEST_GRANT, now);
    var grant := Grant(OPERATOR, HANDLED, now + SHORTEST_GRANT * SECOND);
    var backup := Backup("profile", |s.profiles| + 1, now);
    var s1 := s.(profiles := s.profiles + [profile]);
    var s2 := s1.(grants := s1.grants[g := grant]);
    var s3 := s2.(backups := s2.backups[b := backup]);
    assert ActiveProfile(s1.profiles, now) == Some(profile);
    assert Step(s, PublishProfile(profile), APPROVER, now) == s1;
    assert Step(s1, IssueGrant(g, OPERATOR, HANDLED, SHORTEST_GRANT), APPROVER, now) == s2;
    assert Step(s2, RecordBackup(b, backup), OPERATOR, now) == s3;
    var plan := Plan(b, "profile", |s.profiles| + 1, now, g);
    var s4 := s3.(plans := s3.plans[r := plan], log := s3.log + [Planned(r, plan)]);
    assert Step(s3, PlanRestore(r, b, g), OPERATOR, now) == s4;
    assert Open(s4, r, now);
    CloseThenReconcile(s4, r, now);
    StepFirst(s3, PlanRestore(r, b, g), OPERATOR, now, r);
    StepFirst(s2, RecordBackup(b, backup), OPERATOR, now, r);
    StepFirst(s1, IssueGrant(g, OPERATOR, HANDLED, SHORTEST_GRANT), APPROVER, now, r);
    StepFirst(s, PublishProfile(profile), APPROVER, now, r);
  }

  // ---------------------------------------------------------------- the exact condition

  /** From any reachable state, a restore can still be promoted exactly when it was, or it has no result and, if
      it is planned: its grant is live and covers what is missing, its profile is in force and its objectives
      are not missed, its records (if any) cover the uncertain attempts and leave none open, and its gap (if
      closed) has no unresolved effects. */
  lemma PromotableExactlyWhen(s: State, r: nat, now: Time)
    requires Reachable(s, now)
    ensures CanPromote(s, r, now) <==> Promotable(s, r, now)
  {
    hide Reachable, Known, Timed, After;
    ReachableKnown(s, now);
    if CanPromote(s, r, now) {
      var run, until :| Timed(run, now, until) && Promoted(After(s, run), r);
      RunNoBetter(s, run, now, until, r);
    }
    if Promotable(s, r, now) {
      hide CanPromote;
      if r in s.results { AlreadyPromoted(s, r, now); }
      else if r in s.plans { CloseThenReconcile(s, r, now); }
      else { PlanFirst(s, r, now); }
    }
  }

  // ---------------------------------------------------------------- reconciled, and out of reach all the same

  lemma {:induction false} OneMoreEvent(s: State, run: seq<Event>, e: Event)
    ensures After(s, run + [e]) == Step(After(s, run), e.op, e.actor, e.now)
    decreases |run|
  {
    hide Step;
    if run == [] {
      assert (run + [e])[1..] == [];
    } else {
      assert (run + [e])[1..] == run[1..] + [e];
      OneMoreEvent(Step(s, run[0].op, run[0].actor, run[0].now), run[1..], e);
    }
  }

  ghost predicate Reached(s: State) {
    exists run :: After(EMPTY, run) == s
  }

  lemma Extend(s: State, op: Op, actor: Actor, t: State)
    requires Reached(s) && t == Step(s, op, actor, 0)
    ensures Reached(t)
  {
    hide Step;
    var run :| After(EMPTY, run) == s;
    OneMoreEvent(EMPTY, run, Event(op, actor, 0));
  }

  const GRANT := Grant(OPERATOR, HANDLED, SHORTEST_GRANT * SECOND)
  const PROFILE := Profile("profile", 1, 1, 1, SHORTEST_GRANT, 0)
  const BACKUP := Backup("profile", 1, 0)
  const PLAN := Plan(1, "profile", 1, 0, 1)

  /** Attempt 1 is uncertain when restore 7 is planned. */
  lemma PlannedExample() returns (s: State)
    ensures Reached(s)
    ensures s == EMPTY.(uncertain := {1}, grants := map[1 := GRANT], profiles := [PROFILE], backups := map[1 := BACKUP],
                        plans := map[7 := PLAN], log := [Marked(1), Planned(7, PLAN)])
  {
    hide Reached;
    assert Reached(EMPTY) by { NothingYet(); }
    var s1 := EMPTY.(uncertain := {1}, log := [Marked(1)]);
    Extend(EMPTY, MarkUncertain(1), OPERATOR, s1);
    var s2 := s1.(profiles := [PROFILE]);
    Extend(s1, PublishProfile(PROFILE), APPROVER, s2);
    assert ActiveProfile(s2.profiles, 0) == Some(PROFILE);
    var s3 := s2.(grants := map[1 := GRANT]);
    Extend(s2, IssueGrant(1, OPERATOR, HANDLED, SHORTEST_GRANT), APPROVER, s3);
    var s4 := s3.(backups := map[1 := BACKUP]);
    Extend(s3, RecordBackup(1, BACKUP), OPERATOR, s4);
    s := s4.(plans := map[7 := PLAN], log := [Marked(1), Planned(7, PLAN)]);
    Extend(s4, PlanRestore(7, 1, 1), OPERATOR, s);
  }

  lemma NothingYet()
    ensures Reached(EMPTY)
  {
    assert After(EMPTY, []) == EMPTY;
  }

  /** Its outcome is found and committed, and then attempt 2 becomes uncertain. */
  lemma ReconciledExample() returns (s: State)
    ensures Reached(s)
    ensures var records := map[1 := MatchedSuccess];
            && s.log == [Marked(1), Planned(7, PLAN), Reconciled(7, records), Marked(2)]
            && s.uncertain == {1, 2} && s.recoveries == map[7 := records] && s.plans == map[7 := PLAN]
            && s.grants == map[1 := GRANT] && s.revoked == {} && s.profiles == [PROFILE]
                && s.backups == map[1 := BACKUP]
            && s.scans == map[] && s.gaps == map[] && s.results == map[]
  {
    hide Reached;
    var p := PlannedExample();
    var records := map[1 := MatchedSuccess];
    var s1 := p.(pending := [Some(Observation(7, records))]);
    Extend(p, Observe(7, records), OPERATOR, s1);
    assert map[] + records == records && s1.pending[0 := None] == [None];
    var s2 := s1.(pending := [None], recoveries := map[7 := records], log := p.log + [Reconciled(7, records)]);
    Extend(s1, Commit(0), OPERATOR, s2);
    s := s2.(uncertain := {1, 2}, log := s2.log + [Marked(2)]);
    Extend(s2, MarkUncertain(2), OPERATOR, s);
  }

  /** A run in which everything else is in order, and the restore can only end degraded. */
  lemma LateUncertaintyExample() returns (log: seq<Entry>)
    ensures History(log) && |log| == 7
    ensures log[2].Reconciled? && log[2].restoreId == 7 && log[2].records == map[1 := MatchedSuccess]
    ensures log[3] == Marked(2) && log[4] == Scanned(1, Scan(7, true)) && log[5] == GapClosed(7, 0)
    ensures log[6].Completed? && log[6].restoreId == 7 && log[6].result.status == Degraded && !log[6].result.promoted
  {
    hide Reached, History;
    var s := ReconciledExample();
    var s1 := s.(scans := map[1 := Scan(7, true)], log := s.log + [Scanned(1, Scan(7, true))]);
    Extend(s, RecordScan(1, 7, true), OPERATOR, s1);
    var s2 := s1.(gaps := map[7 := 0], log := s1.log + [GapClosed(7, 0)]);
    Extend(s1, RecordGap(7, 0), OPERATOR, s2);
    var result := Result(Degraded, false, 1, map[1 := MatchedSuccess]);
    var s3 := s2.(results := map[7 := result], log := s2.log + [Completed(7, result)]);
    assert ActiveProfile(s2.profiles, 0) == Some(PROFILE);
    Extend(s2, CompleteRestore(7, 1), OPERATOR, s3);
    log := s3.log;
    assert History(log) by { HistoryOf(s3); }
  }

  lemma HistoryOf(s: State)
    requires Reached(s)
    ensures History(s.log)
  {
  }
}
