/** Disaster recovery in the PostgreSQL store: break-glass grants, restore plans, reconciliation of uncertain
    attempts in two transactions around an external resolver, and the promotion of a restore. Every
    transaction holds the tenant's lock; an attempt may become uncertain at any time, so a transaction
    stands where it reads the uncertain attempts. The state is one tenant's rows. */
module Recovery {
  import opened Common

  type Time = int // milliseconds

  const SECOND := 1000

  datatype Actor = Actor(kind: string, id: string)

  datatype Capability = Restore | Failover | IntegrityScan | Reconcile | ConfigureRecovery

  datatype Grant = Grant(operator: Actor, capabilities: set<Capability>, expiresAt: Time)

  datatype Profile = Profile(
    profileId: string, revision: nat, rpoSeconds: nat, rtoSeconds: nat, maxBreakGlassSeconds: nat, effectiveAt: Time)

  datatype Backup = Backup(profileId: string, profileRevision: nat, recoveryPointAt: Time)

  datatype Plan = Plan(backupId: nat, profileId: string, profileRevision: nat, failureDetectedAt: Time, grantId: nat)

  datatype Scan = Scan(restoreId: nat, verified: bool)

  datatype Disposition = ReconcileRequired | MatchedSuccess | MatchedFailure | NotObserved | Unverifiable

  predicate Unresolved(d: Disposition) { d == ReconcileRequired || d == Unverifiable }

  datatype Status = Verified | Degraded | Failed

  datatype Result = Result(status: Status, promoted: bool, scanId: nat, recoveries: Recoveries)

  /** Attempt id to what the resolver found. */
  type Recoveries = map<nat, Disposition>

  /** What happened, in order. */
  datatype Entry =
    | Marked(attemptId: nat)
    | Revoked(grantId: nat)
    | Planned(restoreId: nat, plan: Plan)
    | Scanned(scanId: nat, scan: Scan)
    | GapClosed(restoreId: nat, unresolvedEffects: nat)
    | Reconciled(restoreId: nat, records: Recoveries)
    | Completed(restoreId: nat, result: Result)

  /** A reconciliation between its two transactions: what the resolver returned for the attempts it saw. */
  datatype Observation = Observation(restoreId: nat, records: Recoveries)

  datatype State = State(
    uncertain: set<nat>, grants: map<nat, Grant>, revoked: set<nat>, profiles: seq<Profile>,
    backups: map<nat, Backup>, plans: map<nat, Plan>, scans: map<nat, Scan>, gaps: map<nat, nat>,
    recoveries: map<nat, Recoveries>, results: map<nat, Result>, pending: seq<Option<Observation>>, log: seq<Entry>)

  datatype Op =
    | MarkUncertain(attemptId: nat)
    | PublishProfile(profile: Profile)
    | RecordBackup(backupId: nat, backup: Backup)
    | IssueGrant(grantId: nat, operator: Actor, capabilities: set<Capability>, ttlSeconds: int)
    | RevokeGrant(grantId: nat)
    | PlanRestore(restoreId: nat, backupId: nat, grantId: nat)
    | RecordScan(scanId: nat, restoreId: nat, verified: bool)
    | RecordGap(restoreId: nat, unresolvedEffects: nat)
    | Observe(restoreId: nat, records: Recoveries)
    | Commit(observation: nat)
    | CompleteRestore(restoreId: nat, scanId: nat)

  /** `_record_break_glass_use`: the grant is live for this operator and capability. */
  predicate Live(s: State, grantId: nat, capability: Capability, actor: Actor, now: Time) {
    && grantId in s.grants && grantId !in s.revoked
    && now < s.grants[grantId].expiresAt
    && capability in s.grants[grantId].capabilities
    && actor == s.grants[grantId].operator
  }

  /** `_active_profile`: the highest revision already effective. */
  function ActiveProfile(profiles: seq<Profile>, at: Time): Option<Profile> {
    if profiles == [] then None
    else if profiles[|profiles| - 1].effectiveAt <= at then Some(profiles[|profiles| - 1])
    else ActiveProfile(profiles[..|profiles| - 1], at)
  }

  function RecoveriesOf(s: State, restoreId: nat): Recoveries {
    if restoreId in s.recoveries then s.recoveries[restoreId] else map[]
  }

  predicate Permits(s: State, restoreId: nat, capability: Capability, actor: Actor, now: Time) {
    restoreId in s.plans && Live(s, s.plans[restoreId].grantId, capability, actor, now)
  }

  predicate TargetsMet(plan: Plan, backup: Backup, profile: Profile, now: Time) {
    && Max(0, plan.failureDetectedAt - backup.recoveryPointAt) <= profile.rpoSeconds * SECOND
    && Max(0, now - plan.failureDetectedAt) <= profile.rtoSeconds * SECOND
  }

  /** All durable uncertain attempts, and no others, have a record, and none is left open. */
  predicate AllResolved(uncertain: set<nat>, records: Recoveries) {
    uncertain == records.Keys && forall a | a in records :: !Unresolved(records[a])
  }

  /** `record_backup`: a new backup of the active profile, within its recovery point objective. */
  predicate Recordable(s: State, id: nat, b: Backup, now: Time) {
    var profile := ActiveProfile(s.profiles, now);
    && id !in s.backups && profile.Some?
    && b.profileId == profile.value.profileId && b.profileRevision == profile.value.revision
    && 0 <= now - b.recoveryPointAt <= profile.value.rpoSeconds * SECOND
  }

  const SHORTEST_GRANT := 60
  const LONGEST_GRANT := 3600

  /** `publish_profile`: the next revision, within what the profile's own fields allow. */
  predicate Publishable(s: State, p: Profile) {
    && p.revision == |s.profiles| + 1
    && p.rtoSeconds > 0 && SHORTEST_GRANT <= p.maxBreakGlassSeconds <= LONGEST_GRANT
  }

  /** `issue_break_glass`: under the active profile, for a time it allows, to somebody other than the approver. */
  predicate Issuable(s: State, operator: Actor, capabilities: set<Capability>, ttlSeconds: int, approver: Actor,
                     now: Time)
  {
    var profile := ActiveProfile(s.profiles, now);
    && profile.Some? && SHORTEST_GRANT <= ttlSeconds <= profile.value.maxBreakGlassSeconds
    && operator != approver && capabilities != {}
  }

  function IssueStep(s: State, id: nat, operator: Actor, capabilities: set<Capability>, ttlSeconds: int,
                     approver: Actor, now: Time): State
  {
    if id in s.grants || !Issuable(s, operator, capabilities, ttlSeconds, approver, now) then s
    else s.(grants := s.grants[id := Grant(operator, capabilities, now + ttlSeconds * SECOND)])
  }

  function PlanStep(s: State, restoreId: nat, backupId: nat, grantId: nat, actor: Actor, now: Time): State {
    var profile := ActiveProfile(s.profiles, now);
    if !Live(s, grantId, Restore, actor, now) || backupId !in s.backups || profile.None? || restoreId in s.plans then s
    else if s.backups[backupId].profileId != profile.value.profileId
         || s.backups[backupId].profileRevision != profile.value.revision then s
    else
      var plan := Plan(backupId, profile.value.profileId, profile.value.revision, now, grantId);
      s.(plans := s.plans[restoreId := plan], log := s.log + [Planned(restoreId, plan)])

  }

  /** The second transaction of `reconcile_uncertain_attempts`: the uncertain attempts must still be the
      ones observed, and none may already have a row for this restore. */
  function CommitStep(s: State, i: nat, actor: Actor, now: Time): State
    requires i < |s.pending| && s.pending[i].Some?
  {
    var o := s.pending[i].value;
    var ended := s.(pending := s.pending[i := None]);
    if !Permits(s, o.restoreId, Reconcile, actor, now) || s.uncertain != o.records.Keys then ended
    else if RecoveriesOf(s, o.restoreId).Keys * o.records.Keys != {} then ended
    else
      ended.(recoveries := s.recoveries[o.restoreId := RecoveriesOf(s, o.restoreId) + o.records],
             log := s.log + [Reconciled(o.restoreId, o.records)])
  }

  function StatusOf(scan: Scan, resolved: bool, gap: nat, targetsMet: bool): Status {
    if !scan.verified then Failed
    else if resolved && gap == 0 && targetsMet then Verified
    else Degraded
  }

  function CompleteStep(s: State, restoreId: nat, scanId: nat, actor: Actor, now: Time): State {
    var profile := ActiveProfile(s.profiles, now);
    if !Permits(s, restoreId, Failover, actor, now) || profile.None? then s
    else
      var plan := s.plans[restoreId];
      if || plan.backupId !in s.backups
         || plan.profileId != profile.value.profileId || plan.profileRevision != profile.value.revision
         || scanId !in s.scans || s.scans[scanId].restoreId != restoreId
         || restoreId !in s.gaps || restoreId in s.results
      then s
      else
        var resolved := AllResolved(s.uncertain, RecoveriesOf(s, restoreId));
        var targetsMet := TargetsMet(plan, s.backups[plan.backupId], profile.value, now);
        var status := StatusOf(s.scans[scanId], resolved, s.gaps[restoreId], targetsMet);
        var result := Result(status, status == Verified, scanId, RecoveriesOf(s, restoreId));
        s.(results := s.results[restoreId := result], log := s.log + [Completed(restoreId, result)])
  }

  function Step(s: State, op: Op, actor: Actor, now: Time): State {
    match op
    case MarkUncertain(a) =>
      if a in s.uncertain then s else s.(uncertain := s.uncertain + {a}, log := s.log + [Marked(a)])
    case PublishProfile(p) =>
      if Publishable(s, p) then s.(profiles := s.profiles + [p]) else s
    case RecordBackup(id, b) => if Recordable(s, id, b, now) then s.(backups := s.backups[id := b]) else s
    case IssueGrant(id, operator, capabilities, ttl) => IssueStep(s, id, operator, capabilities, ttl, actor, now)
    case RevokeGrant(id) =>
      if id !in s.grants || id in s.revoked then s
      else s.(revoked := s.revoked + {id}, log := s.log + [Revoked(id)])
    case PlanRestore(r, b, g) => PlanStep(s, r, b, g, actor, now)
    case RecordScan(id, r, verified) =>
      if id in s.scans || !Permits(s, r, IntegrityScan, actor, now) then s
      else s.(scans := s.scans[id := Scan(r, verified)], log := s.log + [Scanned(id, Scan(r, verified))])
    case RecordGap(r, unresolved) =>
      if r in s.gaps || !Permits(s, r, Reconcile, actor, now) then s
      else s.(gaps := s.gaps[r := unresolved], log := s.log + [GapClosed(r, unresolved)])
    case Observe(r, records) =>
      if !Permits(s, r, Reconcile, actor, now) || records.Keys != s.uncertain then s
      else s.(pending := s.pending + [Some(Observation(r, records))])
    case Commit(i) => if i < |s.pending| && s.pending[i].Some? then CommitStep(s, i, actor, now) else s
    case CompleteRestore(r, scanId) => CompleteStep(s, r, scanId, actor, now)
  }

  datatype Event = Event(op: Op, actor: Actor, now: Time)

  const EMPTY := State({}, map[], {}, [], map[], map[], map[], map[], map[], map[], [], [])

  function After(s: State, run: seq<Event>): State
    decreases |run|
  {
    if run == [] then s else After(Step(s, run[0].op, run[0].actor, run[0].now), run[1..])
  }

  // ---------------------------------------------------------------- what a history may contain

  /** The attempts that became uncertain so far. */
  function MarkedIn(past: seq<Entry>): set<nat> {
    set e | e in past && e.Marked? :: e.attemptId
  }

  ghost predicate CompletedIn(past: seq<Entry>, restoreId: nat) {
    exists k | 0 <= k < |past| :: past[k].Completed? && past[k].restoreId == restoreId
  }

  /** Records were committed for exactly the attempts uncertain at entry `k`, all resolved. */
  predicate ResolvesAll(past: seq<Entry>, k: nat, restoreId: nat)
    requires k < |past|
  {
    && past[k].Reconciled? && past[k].restoreId == restoreId
    && AllResolved(MarkedIn(past[..k]), past[k].records)
  }

  /** Everything promotion waits for. */
  ghost predicate Barrier(past: seq<Entry>, restoreId: nat, scanId: nat) {
    && Scanned(scanId, Scan(restoreId, true)) in past
    && GapClosed(restoreId, 0) in past
    && (exists plan :: Planned(restoreId, plan) in past && Revoked(plan.grantId) !in past)
    && (MarkedIn(past) == {}
        || exists k | 0 <= k < |past| :: ResolvesAll(past, k, restoreId) && MarkedIn(past) == MarkedIn(past[..k]))
  }

  ghost predicate NonEmptyCommit(past: seq<Entry>, restoreId: nat) {
    exists k | 0 <= k < |past| :: past[k].Reconciled? && past[k].restoreId == restoreId && past[k].records != map[]
  }

  ghost predicate EntryOk(past: seq<Entry>, e: Entry) {
    match e
    case Completed(r, result) => !CompletedIn(past, r) && (result.promoted ==> Barrier(past, r, result.scanId))
    case Reconciled(r, records) => records.Keys == MarkedIn(past) && (records != map[] ==> !NonEmptyCommit(past, r))
    case GapClosed(r, n) => forall k | 0 <= k < |past| :: !(past[k].GapClosed? && past[k].restoreId == r)
    case _ => true
  }

  ghost predicate LogOk(log: seq<Entry>) {
    log == [] || (LogOk(log[..|log| - 1]) && EntryOk(log[..|log| - 1], log[|log| - 1]))
  }

  // ---------------------------------------------------------------- how the rows relate to the history

  /** The rows of a restore are empty, or one commit put them all there. */
  ghost predicate RowsFromOneCommit(s: State, restoreId: nat) {
    var rows := RecoveriesOf(s, restoreId);
    && (rows == map[] <==> !NonEmptyCommit(s.log, restoreId))
    && (rows != map[] ==>
          exists k | 0 <= k < |s.log| ::
            s.log[k] == Reconciled(restoreId, rows) && MarkedIn(s.log[..k]) == rows.Keys)
  }

  ghost predicate RowsKnown(s: State) {
    forall r: nat :: RowsFromOneCommit(s, r)
  }

  ghost predicate TablesKnown(s: State) {
    && s.uncertain == MarkedIn(s.log)
    && (forall g :: g in s.revoked <==> Revoked(g) in s.log)
    && (forall r | r in s.plans :: Planned(r, s.plans[r]) in s.log)
    && (forall id | id in s.scans :: Scanned(id, s.scans[id]) in s.log)
    && (forall r | r in s.gaps :: GapClosed(r, s.gaps[r]) in s.log)
    && (forall k | 0 <= k < |s.log| && s.log[k].GapClosed? :: s.log[k].restoreId in s.gaps)
    && (forall r :: r in s.results <==> CompletedIn(s.log, r))
  }

  ghost predicate Inv(s: State) {
    LogOk(s.log) && TablesKnown(s) && RowsKnown(s)
  }
}
