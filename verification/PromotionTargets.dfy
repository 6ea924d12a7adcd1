/** What the completion of a restore decides, in the state and at the clock reading of that very step: promotion
    exactly when scan, gap, uncertain attempts and recovery objectives are all in order, under a live grant. */
module PromotionTargets {
  import opened Common
  import opened Recovery
  import opened RecoverySafety

  /** `p` is in force: effective, and of a higher revision than any other effective profile. */
  ghost predicate IsInForce(profiles: seq<Profile>, p: Profile, at: Time) {
    && p in profiles && p.effectiveAt <= at
    && forall q | q in profiles && q.effectiveAt <= at && q != p :: q.revision < p.revision
  }

  ghost predicate RevisionsAscend(profiles: seq<Profile>) {
    forall i | 0 <= i < |profiles| :: profiles[i].revision == i + 1
  }

  lemma {:induction false} ActiveIsInForce(profiles: seq<Profile>, at: Time)
    requires RevisionsAscend(profiles)
    ensures match ActiveProfile(profiles, at)
            case None => forall i | 0 <= i < |profiles| :: at < profiles[i].effectiveAt
            case Some(p) => IsInForce(profiles, p, at)
  {
    if profiles != [] {
      var n := |profiles| - 1;
      if profiles[n].effectiveAt > at {
        ActiveIsInForce(profiles[..n], at);
        assert forall q :: q in profiles <==> q in profiles[..n] || q == profiles[n];
      }
    }
  }

  // ---------------------------------------------------------------- what a step may change

  /** The tables an operation may change; plans, grants and backups are only added, revocations and uncertain
      attempts not taken back. */
  ghost predicate Shaped(s: State, t: State, op: Op) {
    match op
    case MarkUncertain(_) => t == s.(uncertain := t.uncertain, log := t.log) && s.uncertain <= t.uncertain
    case PublishProfile(p) => t == s || t == s.(profiles := s.profiles + [p])
    case RecordBackup(id, b) => t == s || (id !in s.backups && t == s.(backups := s.backups[id := b]))
    case IssueGrant(id, _, _, _) => t == s
        || (id !in s.grants && id in t.grants && t == s.(grants := s.grants[id := t.grants[id]]))
    case RevokeGrant(_) => t == s.(revoked := t.revoked, log := t.log) && s.revoked <= t.revoked
    case PlanRestore(r, _, _) => t == s
        || (r !in s.plans && r in t.plans && t == s.(plans := s.plans[r := t.plans[r]], log := t.log))
    case RecordScan(_, _, _) => t == s.(scans := t.scans, log := t.log)
    case RecordGap(_, _) => t == s.(gaps := t.gaps, log := t.log)
    case Observe(_, _) => t == s.(pending := t.pending)
    case Commit(_) => t == s.(pending := t.pending, recoveries := t.recoveries, log := t.log)
    case CompleteRestore(_, _) => t == s.(results := t.results, log := t.log)
  }

  /** A commit takes up its observation; it adds rows for one restore, which had none of them, or no rows. */
  lemma CommitShape(s: State, i: nat, actor: Actor, now: Time)
    requires i < |s.pending| && s.pending[i].Some?
    ensures var t, o, ended := CommitStep(s, i, actor, now), s.pending[i].value, s.pending[i := None];
            || t == s.(pending := ended)
            || (&& Permits(s, o.restoreId, Reconcile, actor, now) && o.records.Keys == s.uncertain
                && RecoveriesOf(s, o.restoreId).Keys * o.records.Keys == {}
                && t == s.(pending := ended,
                           recoveries := s.recoveries[o.restoreId := RecoveriesOf(s, o.restoreId) + o.records],
                           log := s.log + [Reconciled(o.restoreId, o.records)]))
  {
    hide Permits, RecoveriesOf;
  }

  lemma CommitShaped(s: State, i: nat, actor: Actor, now: Time)
    ensures Shaped(s, Step(s, Commit(i), actor, now), Commit(i))
  {
    hide CommitStep, Permits, RecoveriesOf;
    if i < |s.pending| && s.pending[i].Some? { CommitShape(s, i, actor, now); }
  }

  lemma StepShaped(s: State, op: Op, actor: Actor, now: Time)
    ensures Shaped(s, Step(s, op, actor, now), op)
  {
    hide Permits, Live, CommitStep, ActiveProfile, AllResolved, TargetsMet, StatusOf, RecoveriesOf, Issuable;
    if op.Commit? { CommitShaped(s, op.observation, actor, now); }
  }

  // ---------------------------------------------------------------- plans and their backups

  /** The plan's backup was taken under the plan's own profile revision. */
  ghost predicate PlanOk(s: State, plan: Plan) {
    && plan.backupId in s.backups
    && s.backups[plan.backupId].profileId == plan.profileId
    && s.backups[plan.backupId].profileRevision == plan.profileRevision
  }

  ghost predicate PlansOk(s: State) {
    RevisionsAscend(s.profiles) && forall r | r in s.plans :: PlanOk(s, s.plans[r])
  }

  /** A scan id names one scan. */
  ghost predicate ScansOk(s: State) {
    forall k | 0 <= k < |s.log| && s.log[k].Scanned? ::
        s.log[k].scanId in s.scans && s.scans[s.log[k].scanId] == s.log[k].scan
  }

  /** At most one entry is added; if it is a scan, its id is new, and no other scan is. */
  predicate ScansGrow(s: State, t: State) {
    || (t.log == s.log && t.scans == s.scans)
    || (|t.log| == |s.log| + 1 &&
        var e := t.log[|s.log|];
        && t.log == s.log + [e]
        && if e.Scanned? then e.scanId !in s.scans && t.scans == s.scans[e.scanId := e.scan] else t.scans == s.scans)
  }

  lemma RecordingGrowsScans(s: State, op: Op, actor: Actor, now: Time)
    requires Records(op)
    ensures ScansGrow(s, Step(s, op, actor, now))
  {
    hide Permits, Live, ActiveProfile;
  }

  lemma CompletionGrowsScans(s: State, r: nat, scanId: nat, actor: Actor, now: Time)
    ensures ScansGrow(s, CompleteStep(s, r, scanId, actor, now))
  {
    hide Permits, ActiveProfile, AllResolved, TargetsMet, StatusOf, RecoveriesOf;
  }

  lemma CommitGrowsScans(s: State, i: nat, actor: Actor, now: Time)
    requires i < |s.pending| && s.pending[i].Some?
    ensures ScansGrow(s, CommitStep(s, i, actor, now))
  {
    hide Permits, RecoveriesOf;
  }

  lemma StepGrowsScans(s: State, op: Op, actor: Actor, now: Time)
    ensures ScansGrow(s, Step(s, op, actor, now))
  {
    hide PlanStep, IssueStep, CommitStep, CompleteStep, Permits, Recordable, Publishable;
    if Records(op) {
      hide Step;
      RecordingGrowsScans(s, op, actor, now);
    } else if Prepares(op) {
      hide Step;
      StepShaped(s, op, actor, now);
    } else if op.CompleteRestore? {
      CompletionGrowsScans(s, op.restoreId, op.scanId, actor, now);
    } else if op.observation < |s.pending| && s.pending[op.observation].Some? {
      CommitGrowsScans(s, op.observation, actor, now);
    }
  }

  lemma StepKeepsScans(s: State, op: Op, actor: Actor, now: Time)
    requires ScansOk(s)
    ensures ScansOk(Step(s, op, actor, now))
  {
    hide Step;
    StepGrowsScans(s, op, actor, now);
  }

  lemma PlanningKeepsPlans(s: State, r: nat, backupId: nat, grantId: nat, actor: Actor, now: Time)
    requires PlansOk(s)
    ensures PlansOk(PlanStep(s, r, backupId, grantId, actor, now))
  {
    hide Live, ActiveProfile;
  }

  /** Backups are never rewritten, so a plan keeps the backup it was made for. */
  lemma StepKeepsPlans(s: State, op: Op, actor: Actor, now: Time)
    requires PlansOk(s)
    ensures PlansOk(Step(s, op, actor, now))
  {
    hide PlanStep, IssueStep, CommitStep, CompleteStep, Permits, ActiveProfile;
    match op
    case PublishProfile(_) =>
    case RecordBackup(_, _) =>
    case PlanRestore(r, b, g) => PlanningKeepsPlans(s, r, b, g, actor, now);
    case _ =>
      hide Step;
      StepShaped(s, op, actor, now);
  }

  lemma {:induction false} AfterKeepsPlans(s: State, run: seq<Event>)
    requires PlansOk(s) && ScansOk(s)
    ensures PlansOk(After(s, run)) && ScansOk(After(s, run))
    decreases |run|
  {
    hide PlansOk, ScansOk, Step;
    if run != [] {
      StepKeepsScans(s, run[0].op, run[0].actor, run[0].now);
      StepKeepsPlans(s, run[0].op, run[0].actor, run[0].now);
      AfterKeepsPlans(Step(s, run[0].op, run[0].actor, run[0].now), run[1..]);
    }
  }

  // ---------------------------------------------------------------- the completing step

  /** The step from `s` at `e` records the result of restore `r`. */
  predicate Completes(s: State, e: Event, r: nat) {
    r !in s.results && r in Step(s, e.op, e.actor, e.now).results
  }

  function ResultAt(s: State, e: Event, r: nat): Result
    requires Completes(s, e, r)
  {
    Step(s, e.op, e.actor, e.now).results[r]
  }

  /** The recovery point was recent enough when the failure was detected, and recovery quick enough. */
  predicate WithinObjectives(plan: Plan, backup: Backup, p: Profile, now: Time) {
    && plan.failureDetectedAt - backup.recoveryPointAt <= p.rpoSeconds * 1000
    && now - plan.failureDetectedAt <= p.rtoSeconds * 1000
  }

  /** Records committed for this restore cover the attempts that are uncertain, all of them and no others,
      and leave none open. */
  ghost predicate UncertaintyResolved(s: State, r: nat) {
    && (forall a :: Marked(a) in s.log <==> a in RecoveriesOf(s, r))
    && (forall a | a in RecoveriesOf(s, r) :: RecoveriesOf(s, r)[a] !in {ReconcileRequired, Unverifiable})
  }

  lemma OnlyCompletionCompletes(s: State, e: Event, r: nat)
    requires Completes(s, e, r)
    ensures e.op.CompleteRestore?
  {
    hide Step;
    StepShaped(s, e.op, e.actor, e.now);
  }

  lemma CompletionRecords(s: State, e: Event, r: nat)
    requires Completes(s, e, r) && e.op.CompleteRestore?
    ensures e.op.restoreId == r && ResultAt(s, e, r).scanId == e.op.scanId
    ensures Permits(s, r, Failover, e.actor, e.now) && e.op.scanId in s.scans && s.scans[e.op.scanId].restoreId == r
    ensures r in s.gaps && ActiveProfile(s.profiles, e.now).Some?
    ensures var p, plan := ActiveProfile(s.profiles, e.now).value, s.plans[r];
            && plan.profileId == p.profileId && plan.profileRevision == p.revision && plan.backupId in s.backups
            && ResultAt(s, e, r).status
               == StatusOf(s.scans[e.op.scanId], AllResolved(s.uncertain, RecoveriesOf(s, r)), s.gaps[r],
                           TargetsMet(plan, s.backups[plan.backupId], p, e.now))
            && (ResultAt(s, e, r).promoted <==> ResultAt(s, e, r).status == Verified)
  {
    hide Live, ActiveProfile, AllResolved, TargetsMet, StatusOf;
    assert Step(s, e.op, e.actor, e.now) == CompleteStep(s, e.op.restoreId, e.op.scanId, e.actor, e.now);
  }

  lemma GapOfRestore(s: State, r: nat)
    requires Inv(s) && r in s.gaps
    ensures GapClosed(r, 0) in s.log <==> s.gaps[r] == 0
  {
    hide LogOk, RowsKnown;
    assert GapClosed(r, s.gaps[r]) in s.log;
    if GapClosed(r, 0) in s.log { OneGap(s.log, r, 0, s.gaps[r]); }
  }

  lemma OneGap(log: seq<Entry>, r: nat, a: nat, b: nat)
    requires LogOk(log) && GapClosed(r, a) in log && GapClosed(r, b) in log
    ensures a == b
  {
    hide LogOk;
    var i :| 0 <= i < |log| && log[i] == GapClosed(r, a);
    var j :| 0 <= j < |log| && log[j] == GapClosed(r, b);
    if i < j {
      EntryIsOk(log, j);
    } else if j < i {
      EntryIsOk(log, i);
    }
  }

  lemma ResolvedMeans(s: State, r: nat)
    requires TablesKnown(s)
    ensures AllResolved(s.uncertain, RecoveriesOf(s, r)) <==> UncertaintyResolved(s, r)
  {
    assert forall a :: a in MarkedIn(s.log) <==> Marked(a) in s.log;
  }

  /** Whatever happened before, the step that completes a restore acts under a live grant of its operator, for
      the profile in force, and promotes exactly when its scan verified, its gap closed without unresolved
      effects, no uncertain attempt is left open and both objectives are met; a failed scan makes it failed. */
  lemma CompletionDecides(run: seq<Event>, e: Event, r: nat) returns (plan: Plan, backup: Backup, p: Profile)
    requires Completes(After(EMPTY, run), e, r)
    ensures var s, result := After(EMPTY, run), ResultAt(After(EMPTY, run), e, r);
            && Planned(r, plan) in s.log && plan.backupId in s.backups && s.backups[plan.backupId] == backup
            && plan.grantId in s.grants && Revoked(plan.grantId) !in s.log && e.now < s.grants[plan.grantId].expiresAt
            && e.actor == s.grants[plan.grantId].operator && Failover in s.grants[plan.grantId].capabilities
            && IsInForce(s.profiles, p, e.now)
            && backup.profileId == plan.profileId == p.profileId
            && backup.profileRevision == plan.profileRevision == p.revision
            && (result.promoted <==>
                  && Scanned(result.scanId, Scan(r, true)) in s.log && GapClosed(r, 0) in s.log
                  && UncertaintyResolved(s, r) && WithinObjectives(plan, backup, p, e.now))
            && (result.status == Failed <==> Scanned(result.scanId, Scan(r, false)) in s.log)
  {
    var s := After(EMPTY, run);
    EmptyInv();
    AfterKeepsInv(EMPTY, run);
    AfterKeepsPlans(EMPTY, run);
    OnlyCompletionCompletes(s, e, r);
    CompletionRecords(s, e, r);
    ActiveIsInForce(s.profiles, e.now);
    GapOfRestore(s, r);
    ResolvedMeans(s, r);
    plan, p := s.plans[r], ActiveProfile(s.profiles, e.now).value;
    backup := s.backups[plan.backupId];
    ScanOf(s, e.op.scanId);
  }

  lemma ScanOf(s: State, id: nat)
    requires TablesKnown(s) && ScansOk(s) && id in s.scans
    ensures forall scan :: Scanned(id, scan) in s.log <==> s.scans[id] == scan
  {
  }
}
