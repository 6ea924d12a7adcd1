/** The action broker: any number of concurrent `execute` calls sharing one ledger, one idempotency store
    and one attempt journal. Between two awaits a call is atomic; at every await it may be suspended for
    ever (a crash), or the awaited operation may fail, with or without having taken effect. */
module Broker {
  import opened Common
  import opened ExecutionStores

  type Time = int

  datatype Action = Action(
    actionId: nat, runId: nat, tenantId: string, idempotencyKey: string, digest: string, executor: string,
    expiresAt: Option<Time>)
  {
    function Key(): Key { ExecutionStores.Key(tenantId, idempotencyKey) }
  }

  datatype PolicyOutcome = Allow | RequireApproval | Deny

  datatype Policy = Policy(actionDigest: string, outcome: PolicyOutcome)

  datatype Approval = Approval(approvalId: nat, approved: bool)

  datatype Executor = Executor(name: string, version: string, identity: string, attemptAware: bool, leaseAware: bool)

  /** How a broker is put together; which optional ports it has decides the path an action takes. */
  datatype Config = Config(profile: Profile, attempts: bool, leases: bool, executors: map<string, Executor>)

  // ---------------------------------------------------------------- shared state

  datatype Body =
    | ActionProposed
    | PolicyEvaluated(policy: Policy)
    | ApprovalRequested
    | ApprovalDecided(approval: Approval)
    | LeaseIssued(leaseId: Option<nat>)
    | LeaseRevoked(leaseId: Option<nat>)
    | LeaseRevocationFailed(leaseId: Option<nat>)
    | ExecutionStarted(attemptId: Option<nat>, startedUnder: Option<nat>)
    | ExecutionUncertain(doubtful: Option<nat>)
    | ExecutionCompleted(result: ExecutionResult)
    | StateObserved(observedReuse: bool)
    | VerificationCompleted(verifiedReuse: bool)

  /** An event of the ledger, and the call that appended it. */
  datatype Event = Event(call: nat, digest: string, body: Body)

  datatype Mode = Plain | WithAttempt(attemptId: nat) | WithLease(attemptId: nat, lease: nat)

  /** One invocation of an executor: the external effect. `returned` is `None` when the executor raised. */
  datatype Effect = Effect(call: nat, key: Key, mode: Mode, returned: Option<ExecutionResult>)

  // ---------------------------------------------------------------- one call

  /** Why a credential lease is being revoked: the key was not ours, the executor raised, or it returned. */
  datatype Context = Unclaimed | AfterRaise | AfterReturn

  /** The await a call is suspended at. */
  datatype Phase =
    | Proposing | Evaluating | RecordingPolicy
    | SeekingApproval | RequestingApproval | RecordingApproval
    | Selecting | RecordingLease | Claiming
    | Revoking(context: Context) | RecordingRevocation(context: Context) | RecordingRevocationFailure(context: Context)
    | Fetching
    | CreatingAttempt | StartingAttempt | RecordingStart | Invoking
    | MarkingUncertain(context: Context) | RecordingUncertain
    | FinishingAttempt | Completing | RecordingCompletion
    | Observing | RecordingObservation | Verifying | RecordingVerification
    | Returned | Raised

  /** The local variables of one `execute` call. `attempt` is the record this call last wrote, while the
      attempt is open; `claimed` says that the key was taken by this call. */
  datatype Call = Call(
    action: Action, actorTenant: string, phase: Phase,
    policy: Option<Policy>, approval: Option<Approval>, executor: Option<Executor>, lease: Option<nat>,
    claimed: bool, attempt: Option<Attempt>, result: Option<ExecutionResult>, reused: bool)
  {
    function Key(): Key { action.Key() }
  }

  datatype Request = Request(action: Action, actorTenant: string)

  function NewCall(r: Request): Call {
    Call(r.action, r.actorTenant, Proposing, None, None, None, None, false, None, None, false)
  }

  datatype State = State(
    entries: Entries, attempts: Attempts, events: seq<Event>, effects: seq<Effect>, calls: seq<Call>)

  function Initial(requests: seq<Request>): State {
    State(map[], map[], [], [], seq(|requests|, i requires 0 <= i < |requests| => NewCall(requests[i])))
  }

  // ---------------------------------------------------------------- one step

  /** Whether the awaited store, ledger or provider call succeeds, fails without effect, or takes effect
      and then fails, as when a commit is acknowledged too late. */
  datatype Fate = Done | LostBefore | LostAfter

  /** What the environment answers at a step; each phase looks at the parts it awaits. */
  datatype Answer = Answer(
    fate: Fate, now: Time, policy: Policy, approval: Option<Approval>, freshId: nat,
    executed: Option<ExecutionResult>, revoked: bool, reportedActionId: nat)

  datatype Write =
    | Nothing
    | Append(event: Event)
    | TakeKey(taken: Key, digest: string)
    | SetResult(completed: Key, result: ExecutionResult)
    | PutAttempt(attempt: Attempt)
    | Invoke(effect: Effect)

  /** The shared write of a step, and the call's locals after it. */
  datatype Move = Move(write: Write, after: Call)

  function Raise(c: Call): Move {
    Move(Nothing, c.(phase := Raised))
  }

  function Log(i: nat, c: Call, body: Body, next: Phase): Move {
    Move(Append(Event(i, c.action.digest, body)), c.(phase := next))
  }

  /** `replace` on the attempt journal. */
  function Journal(cfg: Config, attempts: Attempts, c: Call, record: Attempt, next: Call): Move {
    if Replace(cfg.profile, attempts, record).None? then Raise(c) else Move(PutAttempt(record), next)
  }

  /** `_validate_result`. */
  predicate ValidResult(c: Call, r: ExecutionResult, requireCurrentVersion: bool) {
    && r.actionId == c.action.actionId
    && c.executor.Some? && r.executorName == c.executor.value.name
    && (requireCurrentVersion ==> r.executorVersion == c.executor.value.version)
  }

  function NewAttempt(c: Call, id: nat): Attempt {
    var e := if c.executor.Some? then c.executor.value else Executor("", "", "", false, false);
    Attempt(id, c.action.actionId, c.action.runId, c.Key(), c.action.digest, e.name, e.version, e.identity, Claimed)
  }

  function ModeOf(cfg: Config, c: Call): Mode {
    if c.attempt.None? then Plain
    else if cfg.leases && c.lease.Some? then WithLease(c.attempt.value.attemptId, c.lease.value)
    else WithAttempt(c.attempt.value.attemptId)
  }

  function AttemptIdOf(c: Call): Option<nat> {
    if c.attempt.Some? then Some(c.attempt.value.attemptId) else None
  }

  function Outcome(r: ExecutionResult): AttemptState {
    if r.succeeded then Succeeded else Failed
  }

  function PhaseAfterClaim(cfg: Config): Phase {
    if cfg.attempts then CreatingAttempt else RecordingStart
  }

  /** The executor returned and nothing is left to revoke. */
  function PhaseAfterReturn(cfg: Config): Phase {
    if cfg.attempts then FinishingAttempt else Completing
  }

  function PhaseAfterDoubt(c: Call): Phase {
    if c.lease.Some? then Revoking(AfterRaise) else RecordingUncertain
  }

  function PhaseAfterRevocation(cfg: Config, context: Context, ok: bool): Phase {
    match context
    case Unclaimed => if ok then Fetching else Raised
    case AfterRaise => RecordingUncertain
    case AfterReturn =>
      if ok then PhaseAfterReturn(cfg)
      else if cfg.attempts then MarkingUncertain(AfterReturn) else RecordingUncertain
  }

  function SelectExecutor(cfg: Config, ans: Answer, c: Call): Move {
    if c.action.executor !in cfg.executors then Raise(c)
    else
      var e := cfg.executors[c.action.executor];
      if (cfg.attempts || cfg.leases) && !e.attemptAware then Raise(c)
      else if cfg.leases && !e.leaseAware then Raise(c)
      else
        Move(Nothing, if cfg.leases then c.(executor := Some(e), lease := Some(ans.freshId), phase := RecordingLease)
                      else c.(executor := Some(e), phase := Claiming))
  }

  function ClaimKey(cfg: Config, entries: Entries, c: Call): Move {
    match Claim(entries, c.Key(), c.action.digest).1
    case OtherDigest => Raise(c)
    case Acquired => Move(TakeKey(c.Key(), c.action.digest), c.(claimed := true, phase := PhaseAfterClaim(cfg)))
    case AlreadyOwned => Move(Nothing, c.(phase := if c.lease.Some? then Revoking(Unclaimed) else Fetching))
  }

  function FetchResult(entries: Entries, c: Call): Move {
    var existing := ResultOf(entries, c.Key());
    if existing.Some? && ValidResult(c, existing.value, false) then
      Move(Nothing, c.(result := existing, reused := true, phase := Observing))
    else Raise(c)
  }

  function InvokeExecutor(cfg: Config, ans: Answer, i: nat, c: Call): Move {
    var effect := Invoke(Effect(i, c.Key(), ModeOf(cfg, c), ans.executed));
    match ans.executed
    case None =>
      Move(effect, c.(phase := if c.attempt.Some? then MarkingUncertain(AfterRaise) else PhaseAfterDoubt(c)))
    case Some(r) =>
      if !ValidResult(c, r, true) || (c.attempt.Some? && r.attemptId != AttemptIdOf(c)) then
        Move(effect, c.(phase := Raised))
      else
        Move(effect, c.(result := Some(r),
                        phase := if c.lease.Some? then Revoking(AfterReturn) else PhaseAfterReturn(cfg)))
  }

  /** `_revoke_lease` inside the handlers of `execute`, which catch what it raises. */
  function RevokeLease(cfg: Config, ans: Answer, i: nat, c: Call): Move {
    match c.phase
    case Revoking(context) =>
      Move(Nothing, c.(phase := if ans.revoked && ans.fate == Done then RecordingRevocation(context)
                                else RecordingRevocationFailure(context)))
    case RecordingRevocation(context) =>
      Move(if ans.fate == LostBefore then Nothing else Append(Event(i, c.action.digest, LeaseRevoked(c.lease))),
           c.(phase := PhaseAfterRevocation(cfg, context, ans.fate == Done)))
    case RecordingRevocationFailure(context) =>
      Move(if ans.fate == LostBefore then Nothing
          else Append(Event(i, c.action.digest, LeaseRevocationFailed(c.lease))),
           c.(phase := PhaseAfterRevocation(cfg, context, false)))
    case _ => Raise(c)
  }

  /** Up to the claim: policy, approval, executor and lease. */
  function Prepare(cfg: Config, s: State, i: nat, c: Call, ans: Answer): Move {
    match c.phase
    case Proposing =>
      if c.actorTenant != c.action.tenantId then Raise(c)
      else if c.action.expiresAt.Some? && ans.now >= c.action.expiresAt.value then Raise(c)
      else Log(i, c, ActionProposed, Evaluating)
    case Evaluating =>
      if ans.policy.actionDigest != c.action.digest then Raise(c)
      else Move(Nothing, c.(policy := Some(ans.policy), phase := RecordingPolicy))
    case RecordingPolicy =>
      if c.policy.None? then Raise(c)
      else
        Log(i, c, PolicyEvaluated(c.policy.value),
            match c.policy.value.outcome
            case Deny => Raised
            case RequireApproval => SeekingApproval
            case Allow => Selecting)
    case SeekingApproval =>
      Move(Nothing, c.(approval := ans.approval,
                       phase := if ans.approval.Some? then RecordingApproval else RequestingApproval))
    case RequestingApproval => Log(i, c, ApprovalRequested, Raised)
    case RecordingApproval =>
      if c.approval.None? then Raise(c)
      else Log(i, c, ApprovalDecided(c.approval.value), if c.approval.value.approved then Selecting else Raised)
    case Selecting => SelectExecutor(cfg, ans, c)
    case RecordingLease => Log(i, c, LeaseIssued(c.lease), Claiming)
    case Claiming => ClaimKey(cfg, s.entries, c)
    case Fetching => FetchResult(s.entries, c)
    case _ => Raise(c)
  }

  /** From the claim to the stored result. */
  function Perform(cfg: Config, s: State, i: nat, c: Call, ans: Answer): Move {
    match c.phase
    case CreatingAttempt =>
      var record := NewAttempt(c, ans.freshId);
      if Create(s.attempts, record).None? then Raise(c)
      else Move(PutAttempt(record), c.(attempt := Some(record), phase := StartingAttempt))
    case StartingAttempt =>
      if c.attempt.None? then Raise(c)
      else
        var record := c.attempt.value.(state := Started);
        Journal(cfg, s.attempts, c, record, c.(attempt := Some(record), phase := RecordingStart))
    case RecordingStart => Log(i, c, ExecutionStarted(AttemptIdOf(c), c.lease), Invoking)
    case Invoking => InvokeExecutor(cfg, ans, i, c)
    case MarkingUncertain(context) =>
      if c.attempt.None? then Raise(c)
      else
        Journal(cfg, s.attempts, c, c.attempt.value.(state := Uncertain),
                c.(phase := if context == AfterRaise then PhaseAfterDoubt(c) else RecordingUncertain))
    case RecordingUncertain => Log(i, c, ExecutionUncertain(AttemptIdOf(c)), Raised)
    case FinishingAttempt =>
      if c.attempt.None? || c.result.None? then Raise(c)
      else Journal(cfg, s.attempts, c, c.attempt.value.(state := Outcome(c.result.value)), c.(phase := Completing))
    case Completing =>
      if c.result.None? || Complete(cfg.profile, s.entries, c.Key(), c.result.value).None? then Raise(c)
      else Move(SetResult(c.Key(), c.result.value), c.(phase := RecordingCompletion))
    case _ => Raise(c)
  }

  /** From the stored result to the outcome: `_observe_and_verify`. */
  function Deliver(i: nat, c: Call, ans: Answer): Move {
    match c.phase
    case RecordingCompletion =>
      if c.result.None? then Raise(c) else Log(i, c, ExecutionCompleted(c.result.value), Observing)
    case Observing =>
      if ans.reportedActionId != c.action.actionId then Raise(c) else Move(Nothing, c.(phase := RecordingObservation))
    case RecordingObservation => Log(i, c, StateObserved(c.reused), Verifying)
    case Verifying =>
      if ans.reportedActionId != c.action.actionId then Raise(c) else Move(Nothing, c.(phase := RecordingVerification))
    case RecordingVerification => Log(i, c, VerificationCompleted(c.reused), Returned)
    case _ => Raise(c)
  }

  /** The stages of a call: what it has done to the shared stores. */
  datatype Stage =
    | Preparing | Refused | Creating | Starting | Ready | Doubting | InDoubt | Holding | Storing | Delivering | Over

  function StageOf(p: Phase): Stage {
    match p
    case Fetching => Refused
    case CreatingAttempt => Creating
    case StartingAttempt => Starting
    case RecordingStart => Ready
    case Invoking => Ready
    case MarkingUncertain(_) => Doubting
    case RecordingUncertain => InDoubt
    case FinishingAttempt => Holding
    case Completing => Storing
    case RecordingCompletion => Delivering
    case Observing => Delivering
    case RecordingObservation => Delivering
    case Verifying => Delivering
    case RecordingVerification => Delivering
    case Returned => Delivering
    case Raised => Over
    case Revoking(context) => StageOfRevocation(context)
    case RecordingRevocation(context) => StageOfRevocation(context)
    case RecordingRevocationFailure(context) => StageOfRevocation(context)
    case _ => Preparing
  }

  function StageOfRevocation(context: Context): Stage {
    match context
    case Unclaimed => Refused
    case AfterRaise => InDoubt
    case AfterReturn => Holding
  }

  predicate IsRevoking(p: Phase) {
    p.Revoking? || p.RecordingRevocation? || p.RecordingRevocationFailure?
  }

  /** What the call does next if nothing it awaits fails. */
  function Plan(cfg: Config, s: State, i: nat, c: Call, ans: Answer): Move {
    if IsRevoking(c.phase) then RevokeLease(cfg, ans, i, c)
    else
      match StageOf(c.phase)
      case Preparing => Prepare(cfg, s, i, c, ans)
      case Refused => Prepare(cfg, s, i, c, ans)
      case Delivering => if c.phase == Returned then Move(Nothing, c) else Deliver(i, c, ans)
      case Over => Move(Nothing, c)
      case _ => Perform(cfg, s, i, c, ans)
  }

  /** A failure of the awaited operation propagates out of the call, except where `execute` handles it:
      around the executor and around the revocation of a lease. */
  function Act(cfg: Config, s: State, i: nat, ans: Answer): Move
    requires i < |s.calls|
  {
    var c := s.calls[i];
    var move := Plan(cfg, s, i, c, ans);
    if IsRevoking(c.phase) || c.phase in {Invoking, Returned, Raised} then move
    else
      match ans.fate
      case Done => move
      case LostBefore => Raise(c)
      case LostAfter => Move(move.write, move.after.(phase := Raised))
  }

  function Apply(s: State, w: Write): State {
    match w
    case Nothing => s
    case Append(event) => s.(events := s.events + [event])
    case TakeKey(k, digest) => s.(entries := s.entries[k := Entry(digest, None)])
    case SetResult(k, r) =>
      s.(entries := s.entries[k := Entry(if k in s.entries then s.entries[k].actionDigest else "", Some(r))])
    case PutAttempt(a) => s.(attempts := s.attempts[a.Id() := a])
    case Invoke(effect) => s.(effects := s.effects + [effect])
  }

  function Next(cfg: Config, s: State, i: nat, ans: Answer): State
    requires i < |s.calls|
  {
    var move := Act(cfg, s, i, ans);
    Apply(s, move.write).(calls := s.calls[i := move.after])
  }

  /** A run schedules calls in any order; a call that crashed is one that is never scheduled again. */
  datatype Turn = Turn(call: nat, answer: Answer)

  ghost predicate Schedulable(run: seq<Turn>, calls: nat) {
    forall n | 0 <= n < |run| :: run[n].call < calls
  }

  function After(cfg: Config, s: State, run: seq<Turn>): State
    requires Schedulable(run, |s.calls|)
    decreases |run|
  {
    if run == [] then s else After(cfg, Next(cfg, s, run[0].call, run[0].answer), run[1..])
  }
}
