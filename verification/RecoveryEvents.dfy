/** What the recovery tables hold, told by the events of a run: every row is there exactly because an event asked for
    it when it was due. */
module RecoveryEvents {
  import opened Common
  import opened Recovery
  import opened RecoverySafety
  import opened PromotionTargets
  import opened PromotionReach

  /** A row, once there for good. */
  datatype Fact =
    | IsUncertain(attemptId: nat)
    | HasProfile(profile: Profile)
    | HasBackup(backupId: nat, backup: Backup)
    | HasGrant(grantId: nat, grant: Grant)
    | IsRevoked(grantId: nat)
    | HasPlan(restoreId: nat, plan: Plan)
    | HasScan(scanId: nat, scan: Scan)
    | HasGap(restoreId: nat, unresolvedEffects: nat)
    | HasRows(restoreId: nat, rows: Recoveries)

  predicate Holds(s: State, f: Fact) {
    match f
    case IsUncertain(a) => a in s.uncertain
    case HasProfile(p) => p in s.profiles
    case HasBackup(id, b) => id in s.backups && s.backups[id] == b
    case HasGrant(id, g) => id in s.grants && s.grants[id] == g
    case IsRevoked(id) => id in s.revoked
    case HasPlan(r, plan) => r in s.plans && s.plans[r] == plan
    case HasScan(id, scan) => id in s.scans && s.scans[id] == scan
    case HasGap(r, n) => r in s.gaps && s.gaps[r] == n
    case HasRows(r, rows) => rows != map[] && RecoveriesOf(s, r) == rows
  }

  /** A backup of this profile, no older than its recovery point objective. */
  predicate Recent(p: Profile, b: Backup, now: Time) {
    && b.profileId == p.profileId && b.profileRevision == p.revision
    && 0 <= now - b.recoveryPointAt <= p.rpoSeconds * 1000
  }

  /** The actor may use the restore's grant for this now. */
  predicate Authorized(s: State, r: nat, capability: Capability, e: Event) {
    r in s.plans && Usable(s, s.plans[r].grantId, capability, e)
  }

  predicate Usable(s: State, id: nat, capability: Capability, e: Event) {
    && id in s.grants && id !in s.revoked && e.now < s.grants[id].expiresAt
    && s.grants[id].operator == e.actor && capability in s.grants[id].capabilities
  }

  /** The event makes the row. */
  ghost predicate Makes(s: State, e: Event, f: Fact) {
    match f
    case IsUncertain(a) => e.op == MarkUncertain(a)
    case HasProfile(p) => && e.op == PublishProfile(p) && p.revision == |s.profiles| + 1
                          && p.rtoSeconds > 0 && 60 <= p.maxBreakGlassSeconds <= 3600
    case HasBackup(id, b) => && e.op == RecordBackup(id, b) && id !in s.backups
                             && exists p :: IsInForce(s.profiles, p, e.now) && Recent(p, b, e.now)
    case HasGrant(id, g) =>
      && e.op.IssueGrant? && e.op.grantId == id && id !in s.grants
      && g == Grant(e.op.operator, e.op.capabilities, e.now + e.op.ttlSeconds * 1000)
      && e.op.operator != e.actor && e.op.capabilities != {}
      && exists p :: IsInForce(s.profiles, p, e.now) && 60 <= e.op.ttlSeconds <= p.maxBreakGlassSeconds
    case IsRevoked(id) => e.op == RevokeGrant(id) && id in s.grants
    case HasPlan(r, plan) =>
      && e.op == PlanRestore(r, plan.backupId, plan.grantId) && r !in s.plans
      && plan.failureDetectedAt == e.now && Usable(s, plan.grantId, Restore, e)
      && plan.backupId in s.backups
      && s.backups[plan.backupId].profileId == plan.profileId
      && s.backups[plan.backupId].profileRevision == plan.profileRevision
      && exists p :: IsInForce(s.profiles, p, e.now) && p.profileId == plan.profileId
                     && p.revision == plan.profileRevision
    case HasScan(id, scan) => && e.op == RecordScan(id, scan.restoreId, scan.verified) && id !in s.scans
                              && Authorized(s, scan.restoreId, IntegrityScan, e)
    case HasGap(r, n) => e.op == RecordGap(r, n) && r !in s.gaps && Authorized(s, r, Reconcile, e)
    case HasRows(r, rows) =>
      && e.op.Commit? && e.op.observation < |s.pending|
      && s.pending[e.op.observation] == Some(Observation(r, rows)) && rows != map[]
      && Authorized(s, r, Reconcile, e) && rows.Keys == s.uncertain && RecoveriesOf(s, r) == map[]
  }

  function At(run: seq<Event>, k: nat): State
    requires k <= |run|
  {
    After(EMPTY, run[..k])
  }

  ghost predicate MadeAt(run: seq<Event>, k: nat, f: Fact) {
    k < |run| && Makes(At(run, k), run[k], f)
  }

  ghost predicate Made(run: seq<Event>, f: Fact) {
    exists k :: MadeAt(run, k, f)
  }

  // ---------------------------------------------------------------- one step

  /** The fact is about the table that the operation may change. */
  predicate About(op: Op, f: Fact) {
    match op
    case MarkUncertain(_) => f.IsUncertain?
    case PublishProfile(_) => f.HasProfile?
    case RecordBackup(_, _) => f.HasBackup?
    case IssueGrant(_, _, _, _) => f.HasGrant?
    case RevokeGrant(_) => f.IsRevoked?
    case PlanRestore(_, _, _) => f.HasPlan?
    case RecordScan(_, _, _) => f.HasScan?
    case RecordGap(_, _) => f.HasGap?
    case Observe(_, _) => false
    case Commit(_) => f.HasRows?
    case CompleteRestore(_, _) => false
  }

  /** Each table is changed by one kind of operation. */
  predicate OnlyItsTable(s: State, t: State, op: Op) {
    && (t.uncertain == s.uncertain || op.MarkUncertain?)
    && (t.profiles == s.profiles || op.PublishProfile?)
    && (t.backups == s.backups || op.RecordBackup?)
    && (t.grants == s.grants || op.IssueGrant?)
    && (t.revoked == s.revoked || op.RevokeGrant?)
    && (t.plans == s.plans || op.PlanRestore?)
    && (t.scans == s.scans || op.RecordScan?)
    && (t.gaps == s.gaps || op.RecordGap?)
    && (t.recoveries == s.recoveries || op.Commit?)
    && (t.results == s.results || op.CompleteRestore?)
    && (t.pending == s.pending || op.Observe? || op.Commit?)
  }

  lemma StepsOnOneTable(s: State, e: Event)
    ensures OnlyItsTable(s, Step(s, e.op, e.actor, e.now), e.op)
  {
    hide Step, Shaped, OnlyItsTable;
    StepShaped(s, e.op, e.actor, e.now);
    ShapedOnOneTable(s, Step(s, e.op, e.actor, e.now), e.op);
  }

  lemma ShapedOnOneTable(s: State, t: State, op: Op)
    requires Shaped(s, t, op)
    ensures OnlyItsTable(s, t, op)
  {
  }

  lemma OtherFacts(s: State, e: Event, f: Fact)
    requires !About(e.op, f)
    ensures Holds(Step(s, e.op, e.actor, e.now), f) <==> Holds(s, f)
    ensures !Makes(s, e, f)
  {
    NotMade(s, e, f);
    hide Step, Makes, RecoveriesOf;
    StepsOnOneTable(s, e);
    if f.HasRows? { SameRowsOf(s, Step(s, e.op, e.actor, e.now), f.restoreId); }
  }

  lemma SameRowsOf(s: State, t: State, r: nat)
    requires t.recoveries == s.recoveries
    ensures RecoveriesOf(t, r) == RecoveriesOf(s, r)
  {
  }

  lemma NotMade(s: State, e: Event, f: Fact)
    requires !About(e.op, f)
    ensures !Makes(s, e, f)
  {
    hide Authorized, Usable, Recent, IsInForce, RecoveriesOf;
  }

  lemma OneInForce(profiles: seq<Profile>, at: Time)
    requires RevisionsAscend(profiles)
    ensures forall p :: IsInForce(profiles, p, at) <==> ActiveProfile(profiles, at) == Some(p)
  {
    hide ActiveProfile;
    ActiveIsInForce(profiles, at);
  }

  lemma PlanFacts(s: State, e: Event, f: Fact)
    requires RevisionsAscend(s.profiles) && e.op.PlanRestore? && f.HasPlan?
    ensures var op := e.op;
            var t := PlanStep(s, op.restoreId, op.backupId, op.grantId, e.actor, e.now);
            Holds(t, f) <==> Holds(s, f) || Makes(s, e, f)
  {
    hide ActiveProfile, RevisionsAscend, IsInForce;
    OneInForce(s.profiles, e.now);
  }

  lemma GrantIssuable(s: State, operator: Actor, capabilities: set<Capability>, ttl: int, approver: Actor, now: Time)
    requires RevisionsAscend(s.profiles)
    ensures Issuable(s, operator, capabilities, ttl, approver, now) <==>
              && operator != approver && capabilities != {}
              && exists p :: IsInForce(s.profiles, p, now) && 60 <= ttl <= p.maxBreakGlassSeconds
  {
    hide ActiveProfile, RevisionsAscend, IsInForce;
    OneInForce(s.profiles, now);
  }

  lemma GrantFacts(s: State, e: Event, f: Fact)
    requires RevisionsAscend(s.profiles) && e.op.IssueGrant? && f.HasGrant?
    ensures var op := e.op;
            var t := IssueStep(s, op.grantId, op.operator, op.capabilities, op.ttlSeconds, e.actor, e.now);
            Holds(t, f) <==> Holds(s, f) || Makes(s, e, f)
  {
    hide Issuable, RevisionsAscend, IsInForce, Usable, Authorized, Recent, RecoveriesOf;
    GrantIssuable(s, e.op.operator, e.op.capabilities, e.op.ttlSeconds, e.actor, e.now);
  }

  lemma BackupRecordable(s: State, id: nat, b: Backup, now: Time)
    requires RevisionsAscend(s.profiles)
    ensures Recordable(s, id, b, now)
       <==> id !in s.backups && exists p :: IsInForce(s.profiles, p, now) && Recent(p, b, now)
  {
    hide ActiveProfile, RevisionsAscend, IsInForce;
    OneInForce(s.profiles, now);
  }

  lemma RowFacts(s: State, e: Event, f: Fact)
    requires e.op.Commit? && f.HasRows? && RecoveriesOf(s, f.restoreId).Keys <= s.uncertain
    requires e.op.observation < |s.pending| && s.pending[e.op.observation].Some?
    ensures Holds(CommitStep(s, e.op.observation, e.actor, e.now), f) <==> Holds(s, f) || Makes(s, e, f)
  {
    var o, r := s.pending[e.op.observation].value, f.restoreId;
    var rows, t := RecoveriesOf(s, r), CommitStep(s, e.op.observation, e.actor, e.now);
    CommitsRows(s, e.op.observation, e, r);
    hide CommitStep, RecoveriesOf;
    if o.restoreId == r && s.uncertain == o.records.Keys && Authorized(s, r, Reconcile, e) {
      assert rows.Keys * o.records.Keys == rows.Keys;
      assert rows.Keys == {} <==> rows == map[];
    }
  }

  lemma CommitsRows(s: State, i: nat, e: Event, r: nat)
    requires i < |s.pending| && s.pending[i].Some?
    ensures var o, rows, t := s.pending[i].value, RecoveriesOf(s, r), CommitStep(s, i, e.actor, e.now);
            if o.restoreId == r && Authorized(s, r, Reconcile, e) && s.uncertain == o.records.Keys
               && rows.Keys * o.records.Keys == {}
            then RecoveriesOf(t, r) == rows + o.records && (rows == map[] ==> RecoveriesOf(t, r) == o.records)
            else RecoveriesOf(t, r) == rows
  {
    var o := s.pending[i].value;
    assert map[] + o.records == o.records;
  }

  lemma BackupFacts(s: State, e: Event, f: Fact)
    requires RevisionsAscend(s.profiles) && e.op.RecordBackup? && f.HasBackup?
    ensures Holds(Step(s, e.op, e.actor, e.now), f) <==> Holds(s, f) || Makes(s, e, f)
  {
    hide PlanStep, IssueStep, CommitStep, CompleteStep, Recordable, RevisionsAscend, IsInForce, Recent, Permits,
         Publishable;
    BackupRecordable(s, e.op.backupId, e.op.backup, e.now);
  }

  lemma ScanFacts(s: State, e: Event, f: Fact)
    requires (e.op.RecordScan? && f.HasScan?) || (e.op.RecordGap? && f.HasGap?)
    ensures Holds(Step(s, e.op, e.actor, e.now), f) <==> Holds(s, f) || Makes(s, e, f)
  {
    hide PlanStep, IssueStep, CommitStep, CompleteStep, Recordable, Publishable;
  }

  lemma ProfileFacts(s: State, e: Event, f: Fact)
    requires e.op.PublishProfile? && f.HasProfile?
    ensures Holds(Step(s, e.op, e.actor, e.now), f) <==> Holds(s, f) || Makes(s, e, f)
  {
    hide PlanStep, IssueStep, CommitStep, CompleteStep, Recordable, Permits, Usable, Authorized, Recent, IsInForce,
         RecoveriesOf;
  }

  lemma PlainFacts(s: State, e: Event, f: Fact)
    requires (e.op.MarkUncertain? && f.IsUncertain?) || (e.op.RevokeGrant? && f.IsRevoked?)
    ensures Holds(Step(s, e.op, e.actor, e.now), f) <==> Holds(s, f) || Makes(s, e, f)
  {
    hide PlanStep, IssueStep, CommitStep, CompleteStep, Recordable, Permits, Usable, Authorized, Recent, IsInForce,
         Publishable, RecoveriesOf;
  }

  lemma StepIs(s: State, op: Op, actor: Actor, now: Time)
    ensures match op
            case PlanRestore(r, b, g) => Step(s, op, actor, now) == PlanStep(s, r, b, g, actor, now)
            case IssueGrant(id, operator, capabilities, ttl) =>
              Step(s, op, actor, now) == IssueStep(s, id, operator, capabilities, ttl, actor, now)
            case Commit(i) =>
              Step(s, op, actor, now) ==
                if i < |s.pending| && s.pending[i].Some? then CommitStep(s, i, actor, now) else s
            case _ => true
  {
    hide PlanStep, IssueStep, CommitStep, CompleteStep, Recordable, Permits, Publishable;
  }

  lemma StepOnFacts(s: State, e: Event, f: Fact)
    requires RevisionsAscend(s.profiles) && forall r: nat :: RecoveriesOf(s, r).Keys <= s.uncertain
    ensures Holds(Step(s, e.op, e.actor, e.now), f) <==> Holds(s, f) || Makes(s, e, f)
  {
    hide Step, Makes, PlanStep, IssueStep, CommitStep, RecoveriesOf, RevisionsAscend;
    StepIs(s, e.op, e.actor, e.now);
    if !About(e.op, f) { OtherFacts(s, e, f); }
    else if e.op.PlanRestore? { PlanFacts(s, e, f); }
    else if e.op.IssueGrant? { GrantFacts(s, e, f); }
    else if e.op.RecordBackup? { BackupFacts(s, e, f); }
    else if e.op.RecordScan? || e.op.RecordGap? { ScanFacts(s, e, f); }
    else if e.op.PublishProfile? { ProfileFacts(s, e, f); }
    else if !e.op.Commit? { PlainFacts(s, e, f); }
    else if e.op.observation < |s.pending| && s.pending[e.op.observation].Some? { RowFacts(s, e, f); }
    else { NoCommit(s, e, f); }
  }

  lemma NoCommit(s: State, e: Event, f: Fact)
    requires e.op.Commit? && !(e.op.observation < |s.pending| && s.pending[e.op.observation].Some?)
    ensures !Makes(s, e, f)
  {
    hide Authorized, Usable, Recent, IsInForce, RecoveriesOf;
  }

  // ---------------------------------------------------------------- whole runs

  lemma AtFront(run: seq<Event>, e: Event)
    ensures forall k: nat | k <= |run| :: At(run + [e], k) == At(run, k)
    ensures At(run, |run|) == After(EMPTY, run)
  {
    hide After;
    assert forall k: nat | k <= |run| :: (run + [e])[..k] == run[..k];
    assert run[..|run|] == run;
  }

  lemma MadeGrows(run: seq<Event>, e: Event, f: Fact)
    ensures Made(run + [e], f) <==> Made(run, f) || Makes(After(EMPTY, run), e, f)
  {
    hide At, After, Makes;
    AtFront(run, e);
    var longer := run + [e];
    assert longer[|run|] == e && forall k | 0 <= k < |run| :: longer[k] == run[k];
    if k: nat :| MadeAt(run, k, f) { assert MadeAt(longer, k, f); }
    if Makes(After(EMPTY, run), e, f) { assert MadeAt(longer, |run|, f); }
    if k: nat :| MadeAt(longer, k, f) {
      if k < |run| { assert MadeAt(run, k, f); }
    }
  }

  lemma LastStep(run: seq<Event>)
    requires run != []
    ensures var e := run[|run| - 1];
            After(EMPTY, run) == Step(After(EMPTY, run[..|run| - 1]), e.op, e.actor, e.now)
  {
    hide After, Step;
    assert run == run[..|run| - 1] + [run[|run| - 1]];
    OneMoreEvent(EMPTY, run[..|run| - 1], run[|run| - 1]);
  }

  lemma KnownOf(run: seq<Event>)
    ensures var s := After(EMPTY, run);
            RevisionsAscend(s.profiles) && forall r: nat :: RecoveriesOf(s, r).Keys <= s.uncertain
  {
    hide After, LogOk, TablesKnown, RowsKnown, RecoveriesOf;
    AfterKeepsPlans(EMPTY, run);
    EmptyInv();
    AfterKeepsInv(EMPTY, run);
    forall r: nat { RowsAreUncertain(After(EMPTY, run), r); }
  }

  /** Over every run: a row is in its table exactly when an event made it, in the state it met: nothing is dropped,
      invented or altered, and every guard on the way in is met. */
  lemma {:induction false} FactsExactlyMade(run: seq<Event>, f: Fact)
    ensures Holds(After(EMPTY, run), f) <==> Made(run, f)
    decreases |run|
  {
    hide After, Made, Holds, Makes;
    if run == [] {
      NoFacts(f);
    } else {
      var front, e := run[..|run| - 1], run[|run| - 1];
      assert run == front + [e];
      FactsExactlyMade(front, f);
      LastStep(run);
      KnownOf(front);
      StepOnFacts(After(EMPTY, front), e, f);
      MadeGrows(front, e, f);
    }
  }

  lemma NoFacts(f: Fact)
    ensures !Holds(After(EMPTY, []), f) && !Made([], f)
  {
  }

  // ---------------------------------------------------------------- observations and promotion

  ghost predicate Happened(run: seq<Event>, op: Op) {
    exists k :: 0 <= k < |run| && run[k].op == op
  }

  lemma HappenedGrows(run: seq<Event>, e: Event, op: Op)
    ensures Happened(run + [e], op) <==> Happened(run, op) || e.op == op
  {
    assert (run + [e])[|run|] == e;
    if k :| 0 <= k < |run| && run[k].op == op { assert (run + [e])[k].op == op; }
  }

  lemma Nothing()
    ensures After(EMPTY, []) == EMPTY
  {
  }

  lemma CommitOnPending(s: State, n: nat, actor: Actor, now: Time, i: nat)
    ensures var t := Step(s, Commit(n), actor, now);
            i < |t.pending| && t.pending[i].Some? ==> i < |s.pending| && s.pending[i] == t.pending[i]
  {
    hide CommitStep, Permits, RecoveriesOf;
    if n < |s.pending| && s.pending[n].Some? { CommitShape(s, n, actor, now); }
  }

  lemma ObserveOnPending(s: State, r: nat, records: Recoveries, actor: Actor, now: Time)
    ensures var t := Step(s, Observe(r, records), actor, now);
            t.pending == s.pending || t.pending == s.pending + [Some(Observation(r, records))]
  {
    hide Permits;
  }

  lemma StepOnPending(s: State, e: Event, i: nat)
    ensures var t := Step(s, e.op, e.actor, e.now);
            i < |t.pending| && t.pending[i].Some? ==>
              || (i < |s.pending| && s.pending[i] == t.pending[i])
              || e.op == Observe(t.pending[i].value.restoreId, t.pending[i].value.records)
  {
    hide Step;
    match e.op
    case Commit(n) => CommitOnPending(s, n, e.actor, e.now, i);
    case Observe(r, records) => ObserveOnPending(s, r, records, e.actor, e.now);
    case _ => StepsOnOneTable(s, e);
  }

  /** What waits to be committed was observed. */
  lemma {:induction false} PendingWasObserved(run: seq<Event>, i: nat)
    requires i < |After(EMPTY, run).pending| && After(EMPTY, run).pending[i].Some?
    ensures var o := After(EMPTY, run).pending[i].value; Happened(run, Observe(o.restoreId, o.records))
    decreases |run|
  {
    hide After, Happened, Step;
    if run == [] {
      Nothing();
    } else {
      var front, e := run[..|run| - 1], run[|run| - 1];
      var o := After(EMPTY, run).pending[i].value;
      assert run == front + [e];
      LastStep(run);
      StepOnPending(After(EMPTY, front), e, i);
      HappenedGrows(front, e, Observe(o.restoreId, o.records));
      if e.op != Observe(o.restoreId, o.records) { PendingWasObserved(front, i); }
    }
  }

  lemma RowsWereObserved(run: seq<Event>, r: nat)
    ensures var rows := RecoveriesOf(After(EMPTY, run), r);
            rows != map[] ==> Made(run, HasRows(r, rows)) && Happened(run, Observe(r, rows))
  {
    hide After, Happened;
    var rows := RecoveriesOf(After(EMPTY, run), r);
    if rows != map[] {
      FactsExactlyMade(run, HasRows(r, rows));
      var k: nat :| MadeAt(run, k, HasRows(r, rows));
      PendingWasObserved(run[..k], run[k].op.observation);
      EarlierHappened(run, k, Observe(r, rows));
    }
  }

  lemma EarlierHappened(run: seq<Event>, k: nat, op: Op)
    requires k <= |run| && Happened(run[..k], op)
    ensures Happened(run, op)
  {
    var j :| 0 <= j < k && run[..k][j].op == op;
    assert run[j].op == op;
  }

  /** Every attempt that an event made uncertain has a record for the restore, and no other; none is left open. */
  ghost predicate EventsResolved(run: seq<Event>, rows: Recoveries) {
    && (forall a :: Happened(run, MarkUncertain(a)) <==> a in rows)
    && (forall a | a in rows :: rows[a] !in {ReconcileRequired, Unverifiable})
  }

  lemma MarkedExactly(run: seq<Event>, a: nat)
    ensures a in After(EMPTY, run).uncertain <==> Happened(run, MarkUncertain(a))
  {
    hide After;
    FactsExactlyMade(run, IsUncertain(a));
    if k: nat :| MadeAt(run, k, IsUncertain(a)) { assert run[k].op == MarkUncertain(a); }
    if k: nat :| k < |run| && run[k].op == MarkUncertain(a) { assert MadeAt(run, k, IsUncertain(a)); }
  }

  /** Over the events: a completion promotes exactly when its scan was recorded as verified, the gap as without
      unresolved effects, the records observed and committed for the restore resolve just the attempts that became
      uncertain, and the objectives of the plan are met. */
  lemma PromotedExactlyWhen(run: seq<Event>, e: Event, r: nat) returns (plan: Plan, backup: Backup, p: Profile)
    requires Completes(After(EMPTY, run), e, r)
    ensures var s := After(EMPTY, run); var rows := RecoveriesOf(s, r);
            && e.op == CompleteRestore(r, ResultAt(s, e, r).scanId)
            && Made(run, HasPlan(r, plan)) && Made(run, HasBackup(plan.backupId, backup)) && Made(run, HasProfile(p))
            && IsInForce(s.profiles, p, e.now) && Usable(s, plan.grantId, Failover, e)
            && (rows != map[] ==> Made(run, HasRows(r, rows)) && Happened(run, Observe(r, rows)))
            && (ResultAt(s, e, r).promoted <==>
                  && Made(run, HasScan(e.op.scanId, Scan(r, true))) && Made(run, HasGap(r, 0))
                  && EventsResolved(run, rows) && WithinObjectives(plan, backup, p, e.now))
  {
    hide After, Made, Happened, Step, Completes, ResultAt, ActiveProfile, IsInForce;
    var s := After(EMPTY, run);
    KnownOf(run);
    OnlyCompletionCompletes(s, e, r);
    CompletionRecords(s, e, r);
    OneInForce(s.profiles, e.now);
    plan, p := s.plans[r], ActiveProfile(s.profiles, e.now).value;
    backup := s.backups[plan.backupId];
    assert p in s.profiles by { assert IsInForce(s.profiles, p, e.now); InForceIsPublished(s.profiles, p, e.now); }
    FactsExactlyMade(run, HasPlan(r, plan));
    FactsExactlyMade(run, HasBackup(plan.backupId, backup));
    FactsExactlyMade(run, HasProfile(p));
    FactsExactlyMade(run, HasScan(e.op.scanId, Scan(r, true)));
    FactsExactlyMade(run, HasGap(r, 0));
    RowsWereObserved(run, r);
    forall a ensures a in s.uncertain <==> Happened(run, MarkUncertain(a)) { MarkedExactly(run, a); }
  }

  lemma InForceIsPublished(profiles: seq<Profile>, p: Profile, at: Time)
    requires IsInForce(profiles, p, at)
    ensures p in profiles
  {
  }
}
