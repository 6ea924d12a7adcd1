/** At most one external effect per idempotency key, whatever the interleaving and wherever calls crash;
    reused results are that effect's result; an uncertain attempt never becomes a success. */
module BrokerSafety {
  import opened Common
  import opened ExecutionStores
  import opened Broker

  // ---------------------------------------------------------------- the invariant, call by call

  predicate Invoked(effects: seq<Effect>, i: nat) {
    exists n | 0 <= n < |effects| :: effects[n].call == i
  }

  predicate InvokedWith(effects: seq<Effect>, i: nat, r: Option<ExecutionResult>) {
    exists n | 0 <= n < |effects| :: effects[n].call == i && effects[n].returned == r
  }

  /** The call's key is taken, for the digest of this call's own action. */
  predicate SameDigest(entries: Entries, c: Call) {
    c.Key() in entries && entries[c.Key()].actionDigest == c.action.digest
  }

  /** The key is this call's, and no result has been stored for it. */
  predicate Open(entries: Entries, c: Call) {
    c.claimed && c.Key() in entries && entries[c.Key()].result.None?
  }

  /** With a journal configured, the call's attempt is there in state `journal`; the call itself last
      saw it in state `seen`. */
  predicate Journalled(cfg: Config, attempts: Attempts, c: Call, seen: AttemptState, journal: AttemptState) {
    cfg.attempts ==>
      && c.attempt.Some? && c.attempt.value.state == seen
      && c.attempt.value.Id() in attempts && attempts[c.attempt.value.Id()].state == journal
  }

  /** What the stage of a call says about the stores. */
  predicate StageOk(cfg: Config, s: State, i: nat, c: Call) {
    match StageOf(c.phase)
    case Preparing => !c.claimed && c.attempt.None?
    case Refused => !c.claimed && c.attempt.None? && SameDigest(s.entries, c)
    case Creating => Open(s.entries, c) && cfg.attempts && c.attempt.None? && !Invoked(s.effects, i)
    case Starting => Open(s.entries, c) && cfg.attempts && Journalled(cfg, s.attempts, c, Claimed, Claimed)
        && !Invoked(s.effects, i)
    case Ready => Open(s.entries, c) && Journalled(cfg, s.attempts, c, Started, Started) && !Invoked(s.effects, i)
    case Doubting => Open(s.entries, c) && Journalled(cfg, s.attempts, c, Started, Started)
    case InDoubt => Open(s.entries, c) && Journalled(cfg, s.attempts, c, Started, Uncertain)
    case Holding =>
      && Open(s.entries, c) && Journalled(cfg, s.attempts, c, Started, Started)
      && c.result.Some? && InvokedWith(s.effects, i, c.result)
    case Storing =>
      && Open(s.entries, c) && c.result.Some? && InvokedWith(s.effects, i, c.result)
      && Journalled(cfg, s.attempts, c, Started, Outcome(c.result.value))
    case Delivering => SameDigest(s.entries, c) && c.result.Some? && ResultOf(s.entries, c.Key()) == c.result
    case Over => true
  }

  /** What holds of a call at every stage, over included. */
  predicate AlwaysOk(cfg: Config, s: State, i: nat, c: Call) {
    && (c.claimed ==> SameDigest(s.entries, c))
    && (!c.claimed ==> !Invoked(s.effects, i))
    && (c.attempt.Some? ==>
          && cfg.attempts && c.claimed && c.attempt.value.key == c.Key()
          && c.attempt.value.Id() in s.attempts && SameIdentity(s.attempts[c.attempt.value.Id()], c.attempt.value))
    && (cfg.attempts && Invoked(s.effects, i) ==>
          && c.attempt.Some? && c.attempt.value.Id() in s.attempts
          && s.attempts[c.attempt.value.Id()].state != Claimed)
    && (c.claimed && ResultOf(s.entries, c.Key()).Some? ==>
          && InvokedWith(s.effects, i, ResultOf(s.entries, c.Key()))
          && (cfg.attempts ==>
                c.attempt.Some? && c.attempt.value.Id() in s.attempts
                && s.attempts[c.attempt.value.Id()].state == Outcome(ResultOf(s.entries, c.Key()).value)))
  }

  predicate CallOk(cfg: Config, s: State, i: nat, c: Call) {
    StageOk(cfg, s, i, c) && AlwaysOk(cfg, s, i, c)
  }

  ghost predicate CallsOk(cfg: Config, s: State) {
    forall i | 0 <= i < |s.calls| :: CallOk(cfg, s, i, s.calls[i])
  }

  // ---------------------------------------------------------------- the invariant, over all calls

  /** A key is taken by one call only. */
  ghost predicate KeysDistinct(calls: seq<Call>) {
    forall i, j | 0 <= i < |calls| && 0 <= j < |calls| && i != j && calls[i].claimed && calls[j].claimed ::
      calls[i].Key() != calls[j].Key()
  }

  predicate Takes(c: Call, k: Key) {
    c.claimed && c.Key() == k
  }

  ghost predicate Taken(calls: seq<Call>, k: Key) {
    exists i | 0 <= i < |calls| :: Takes(calls[i], k)
  }

  ghost predicate EntriesTaken(entries: Entries, calls: seq<Call>) {
    forall k | k in entries :: Taken(calls, k)
  }

  predicate Holds(c: Call, id: AttemptId) {
    c.attempt.Some? && c.attempt.value.Id() == id
  }

  ghost predicate Owned(calls: seq<Call>, id: AttemptId) {
    exists i | 0 <= i < |calls| :: Holds(calls[i], id)
  }

  ghost predicate AttemptsOwned(attempts: Attempts, calls: seq<Call>) {
    forall id | id in attempts :: attempts[id].Id() == id && Owned(calls, id)
  }

  /** The effect was made by call `c` for its key; with a journal, under the id of the call's attempt. */
  predicate EffectOf(cfg: Config, e: Effect, c: Call) {
    && Takes(c, e.key)
    && (cfg.attempts ==> c.attempt.Some? && !e.mode.Plain? && e.mode.attemptId == c.attempt.value.attemptId)
  }

  ghost predicate EffectsOwned(cfg: Config, effects: seq<Effect>, calls: seq<Call>) {
    && (forall n | 0 <= n < |effects| :: effects[n].call < |calls| && EffectOf(cfg, effects[n], calls[effects[n].call]))
    && (forall m, n | 0 <= m < n < |effects| :: effects[m].call != effects[n].call)
  }

  ghost predicate Inv(cfg: Config, s: State) {
    && CallsOk(cfg, s)
    && KeysDistinct(s.calls)
    && EntriesTaken(s.entries, s.calls)
    && AttemptsOwned(s.attempts, s.calls)
    && EffectsOwned(cfg, s.effects, s.calls)
  }

  lemma InitialInv(cfg: Config, requests: seq<Request>)
    ensures Inv(cfg, Initial(requests))
  {
  }

  lemma CallIsOk(cfg: Config, s: State, j: nat)
    requires CallsOk(cfg, s) && j < |s.calls|
    ensures CallOk(cfg, s, j, s.calls[j])
  {
  }

  // ---------------------------------------------------------------- what a step may write

  /** The shared writes that leave every other call's share of the invariant alone. */
  ghost predicate Permitted(cfg: Config, s: State, i: nat, c: Call, w: Write) {
    match w
    case Nothing => true
    case Append(_) => true
    case TakeKey(k, digest) => k == c.Key() && digest == c.action.digest && k !in s.entries && !c.claimed
    case SetResult(k, r) => k == c.Key() && Open(s.entries, c)
    case PutAttempt(a) =>
      && a.key == c.Key() && c.claimed
      && (if c.attempt.None? then a.state == Claimed && forall id | id in s.attempts :: id.attemptId != a.attemptId
          else
            && a.Id() == c.attempt.value.Id() && a.Id() in s.attempts && SameIdentity(s.attempts[a.Id()], a)
            && a.state in Transitions(s.attempts[a.Id()].state))
    case Invoke(e) =>
      && e.call == i && !Invoked(s.effects, i) && EffectOf(cfg, e, c)
      && Journalled(cfg, s.attempts, c, Started, Started)
  }

  /** What never changes about a call, what only grows, and the writes that make it grow. */
  predicate Continues(c: Call, w: Write, next: Call) {
    && next.action == c.action && next.actorTenant == c.actorTenant
    && (next.claimed <==> c.claimed || w.TakeKey?)
    && (c.attempt.Some? ==> next.attempt.Some? && next.attempt.value.Id() == c.attempt.value.Id())
    && (w.PutAttempt? ==> next.attempt.Some? && next.attempt.value.Id() == w.attempt.Id())
  }

  /** A planned move keeps the call's own share of the invariant. */
  ghost predicate Sound(cfg: Config, s: State, i: nat, c: Call, m: Move) {
    && Permitted(cfg, s, i, c, m.write)
    && Continues(c, m.write, m.after)
    && CallOk(cfg, Apply(s, m.write), i, m.after)
  }

  lemma InvokedAppend(effects: seq<Effect>, e: Effect, i: nat, r: Option<ExecutionResult>)
    ensures Invoked(effects + [e], i) <==> Invoked(effects, i) || e.call == i
    ensures InvokedWith(effects, i, r) ==> InvokedWith(effects + [e], i, r)
    ensures e.call == i && e.returned == r ==> InvokedWith(effects + [e], i, r)
  {
    var more := effects + [e];
    assert more[|effects|] == e;
    if n :| 0 <= n < |effects| && effects[n].call == i { assert more[n].call == i; }
    if n :| 0 <= n < |effects| && effects[n].call == i && effects[n].returned == r {
      assert more[n].call == i && more[n].returned == r;
    }
  }

  // ---------------------------------------------------------------- moves that leave the stores alone

  /** The move touches no store, and the call stays at its stage or is over. */
  predicate Quiet(c: Call, m: Move) {
    && (m.write.Nothing? || m.write.Append?)
    && m.after.action == c.action && m.after.actorTenant == c.actorTenant
    && m.after.claimed == c.claimed && m.after.attempt == c.attempt && m.after.result == c.result
    && (StageOf(m.after.phase) == Over || StageOf(m.after.phase) == StageOf(c.phase))
  }

  lemma QuietSound(cfg: Config, s: State, i: nat, c: Call, m: Move)
    requires CallOk(cfg, s, i, c) && Quiet(c, m)
    ensures Sound(cfg, s, i, c, m)
  {
    hide Invoked, InvokedWith, StageOf;
  }

  lemma StutterQuiet(c: Call)
    ensures Quiet(c, Move(Nothing, c))
  {
  }

  lemma PrepareQuiet(cfg: Config, s: State, i: nat, c: Call, ans: Answer)
    requires StageOf(c.phase) in {Preparing, Refused} && c.phase != Claiming && c.phase != Fetching
    ensures Quiet(c, Prepare(cfg, s, i, c, ans))
  {
    hide SelectExecutor, ClaimKey, FetchResult;
    if c.phase == Selecting { SelectQuiet(cfg, ans, c); }
  }

  lemma SelectQuiet(cfg: Config, ans: Answer, c: Call)
    requires c.phase == Selecting
    ensures Quiet(c, SelectExecutor(cfg, ans, c))
  {
  }

  lemma DeliverQuiet(cfg: Config, s: State, i: nat, c: Call, ans: Answer)
    requires StageOf(c.phase) == Delivering
    ensures Quiet(c, Deliver(i, c, ans))
  {
  }

  /** A call may stop wherever it is. */
  lemma RaiseSound(cfg: Config, s: State, i: nat, c: Call)
    requires CallOk(cfg, s, i, c)
    ensures Sound(cfg, s, i, c, Raise(c))
  {
    QuietSound(cfg, s, i, c, Raise(c));
  }

  // ---------------------------------------------------------------- moves that change the stores or the stage

  lemma ClaimSound(cfg: Config, s: State, i: nat, c: Call)
    requires CallOk(cfg, s, i, c) && c.phase == Claiming
    ensures Sound(cfg, s, i, c, ClaimKey(cfg, s.entries, c))
  {
    hide Invoked, InvokedWith;
  }

  lemma FetchSound(cfg: Config, s: State, i: nat, c: Call)
    requires CallOk(cfg, s, i, c) && c.phase == Fetching
    ensures Sound(cfg, s, i, c, FetchResult(s.entries, c))
  {
    hide Invoked, InvokedWith;
  }

  /** An open key stays open, and its attempt stays put, while an effect is recorded. */
  lemma EffectSound(cfg: Config, s: State, i: nat, c: Call, e: Effect, next: Call)
    requires CallOk(cfg, s, i, c) && StageOf(c.phase) == Ready && e.call == i && EffectOf(cfg, e, c)
    requires next == c.(result := next.result, phase := next.phase)
    requires StageOf(next.phase) in {Over, Doubting, InDoubt, Holding, Storing}
    requires StageOf(next.phase) in {InDoubt, Storing} ==> !cfg.attempts
    requires StageOf(next.phase) in {Holding, Storing} ==> next.result.Some? && e.returned == next.result
    ensures Sound(cfg, s, i, c, Move(Invoke(e), next))
  {
    hide Invoked, InvokedWith, StageOf;
    InvokedAppend(s.effects, e, i, next.result);
  }

  lemma AttemptWhenReady(cfg: Config, s: State, i: nat, c: Call)
    requires CallOk(cfg, s, i, c) && c.phase == Invoking
    ensures cfg.attempts <==> c.attempt.Some?
  {
    hide Invoked, InvokedWith;
  }

  lemma InvokeSound(cfg: Config, s: State, i: nat, c: Call, ans: Answer)
    requires CallOk(cfg, s, i, c) && c.phase == Invoking
    ensures Sound(cfg, s, i, c, InvokeExecutor(cfg, ans, i, c))
  {
    hide Invoked, InvokedWith, Sound, AlwaysOk;
    var move := InvokeExecutor(cfg, ans, i, c);
    AttemptWhenReady(cfg, s, i, c);
    EffectSound(cfg, s, i, c, Effect(i, c.Key(), ModeOf(cfg, c), ans.executed), move.after);
  }

  lemma JournalSound(cfg: Config, s: State, i: nat, c: Call, record: Attempt, next: Call)
    requires CallOk(cfg, s, i, c) && c.attempt.Some? && c.attempt.value.Id() == record.Id() && next.attempt.Some?
    requires SameIdentity(c.attempt.value, record) && next == c.(attempt := next.attempt, phase := next.phase)
    requires SameIdentity(record, next.attempt.value) && Open(s.entries, c)
    requires record.state in Transitions(s.attempts[record.Id()].state)
    requires StageOk(cfg, Apply(s, PutAttempt(record)), i, next)
    ensures Sound(cfg, s, i, c, Journal(cfg, s.attempts, c, record, next))
  {
    hide Invoked, InvokedWith, StageOf;
  }

  lemma CreateSound(cfg: Config, s: State, i: nat, c: Call, ans: Answer)
    requires CallOk(cfg, s, i, c) && c.phase == CreatingAttempt
    ensures Sound(cfg, s, i, c, Perform(cfg, s, i, c, ans))
  {
    hide Invoked, InvokedWith;
    if Perform(cfg, s, i, c, ans) == Raise(c) { RaiseSound(cfg, s, i, c); }
  }

  lemma JournalledSound(cfg: Config, s: State, i: nat, c: Call, ans: Answer)
    requires CallOk(cfg, s, i, c)
    requires c.phase == StartingAttempt || c.phase.MarkingUncertain? || c.phase == FinishingAttempt
    ensures Sound(cfg, s, i, c, Perform(cfg, s, i, c, ans))
  {
    hide Invoked, InvokedWith, Sound;
    var move := Perform(cfg, s, i, c, ans);
    if move == Raise(c) { RaiseSound(cfg, s, i, c); }
    else { JournalSound(cfg, s, i, c, move.write.attempt, move.after); }
  }

  lemma CompleteSound(cfg: Config, s: State, i: nat, c: Call, ans: Answer)
    requires CallOk(cfg, s, i, c) && c.phase == Completing
    ensures Sound(cfg, s, i, c, Perform(cfg, s, i, c, ans))
  {
    hide Invoked, InvokedWith;
  }

  lemma PerformSound(cfg: Config, s: State, i: nat, c: Call, ans: Answer)
    requires CallOk(cfg, s, i, c) && StageOf(c.phase) !in {Preparing, Refused, Delivering, Over} && !IsRevoking(c.phase)
    ensures Sound(cfg, s, i, c, Perform(cfg, s, i, c, ans))
  {
    hide CallOk, Sound, InvokeExecutor, Journal;
    match c.phase
    case CreatingAttempt => CreateSound(cfg, s, i, c, ans);
    case Invoking => InvokeSound(cfg, s, i, c, ans);
    case Completing => CompleteSound(cfg, s, i, c, ans);
    case RecordingStart => QuietSound(cfg, s, i, c, Perform(cfg, s, i, c, ans));
    case RecordingUncertain => QuietSound(cfg, s, i, c, Perform(cfg, s, i, c, ans));
    case _ => JournalledSound(cfg, s, i, c, ans);
  }

  /** Without a journal a call moves on from `Holding` as soon as its lease is revoked, or is in doubt
      when it cannot be. */
  predicate Releases(cfg: Config, c: Call, m: Move) {
    && StageOf(c.phase) == Holding
    && (m.write.Nothing? || m.write.Append?) && m.after == c.(phase := m.after.phase)
    && (m.after.phase.MarkingUncertain? || (!cfg.attempts && m.after.phase in {RecordingUncertain, Completing}))
  }

  lemma RevokeMoves(cfg: Config, i: nat, c: Call, ans: Answer)
    requires IsRevoking(c.phase)
    ensures Quiet(c, RevokeLease(cfg, ans, i, c)) || Releases(cfg, c, RevokeLease(cfg, ans, i, c))
  {
  }

  lemma RevokeSound(cfg: Config, s: State, i: nat, c: Call, ans: Answer)
    requires CallOk(cfg, s, i, c) && IsRevoking(c.phase)
    ensures Sound(cfg, s, i, c, RevokeLease(cfg, ans, i, c))
  {
    hide CallOk, Sound, Quiet, Releases, RevokeLease;
    RevokeMoves(cfg, i, c, ans);
    var move := RevokeLease(cfg, ans, i, c);
    if Quiet(c, move) { QuietSound(cfg, s, i, c, move); }
    else { ReleaseSound(cfg, s, i, c, move); }
  }

  lemma ReleaseSound(cfg: Config, s: State, i: nat, c: Call, m: Move)
    requires CallOk(cfg, s, i, c) && Releases(cfg, c, m)
    ensures Sound(cfg, s, i, c, m)
  {
    hide Invoked, InvokedWith;
  }

  lemma PlanSound(cfg: Config, s: State, i: nat, c: Call, ans: Answer)
    requires CallOk(cfg, s, i, c)
    ensures Sound(cfg, s, i, c, Plan(cfg, s, i, c, ans))
  {
    hide CallOk, Sound, Perform, Deliver, RevokeLease, Quiet;
    if IsRevoking(c.phase) { RevokeSound(cfg, s, i, c, ans); }
    else {
      match StageOf(c.phase)
      case Preparing =>
        if c.phase == Claiming { ClaimSound(cfg, s, i, c); }
        else {
          PrepareQuiet(cfg, s, i, c, ans);
          QuietSound(cfg, s, i, c, Prepare(cfg, s, i, c, ans));
        }
      case Refused => FetchSound(cfg, s, i, c);
      case Delivering =>
        if c.phase == Returned { StutterQuiet(c); QuietSound(cfg, s, i, c, Move(Nothing, c)); }
        else {
          DeliverQuiet(cfg, s, i, c, ans);
          QuietSound(cfg, s, i, c, Deliver(i, c, ans));
        }
      case Over => StutterQuiet(c); QuietSound(cfg, s, i, c, Move(Nothing, c));
      case _ => PerformSound(cfg, s, i, c, ans);
    }
  }

  lemma ActSound(cfg: Config, s: State, i: nat, ans: Answer)
    requires i < |s.calls| && CallOk(cfg, s, i, s.calls[i])
    ensures Sound(cfg, s, i, s.calls[i], Act(cfg, s, i, ans))
  {
    hide CallOk, Plan;
    var c := s.calls[i];
    PlanSound(cfg, s, i, c, ans);
    RaiseSound(cfg, s, i, c);
    var move := Plan(cfg, s, i, c, ans);
    RaiseSound(cfg, Apply(s, move.write), i, move.after);
  }

  // ---------------------------------------------------------------- the calls that did not move

  lemma OtherKeysDiffer(s: State, i: nat, j: nat)
    requires KeysDistinct(s.calls) && i < |s.calls| && j < |s.calls| && i != j && s.calls[i].claimed
             && s.calls[j].claimed
    ensures s.calls[i].Key() != s.calls[j].Key()
  {
  }

  /** A permitted write of another call leaves this call's entry, attempt and effect as they were. */
  lemma OtherWrite(cfg: Config, s: State, i: nat, w: Write, j: nat)
    requires CallsOk(cfg, s) && KeysDistinct(s.calls) && i < |s.calls| && j < |s.calls| && i != j
    requires Permitted(cfg, s, i, s.calls[i], w)
    ensures var c, next := s.calls[j], Apply(s, w);
            && (SameDigest(s.entries, c) ==> SameDigest(next.entries, c))
            && (c.Key() in s.entries && (c.claimed || s.entries[c.Key()].result.Some?) ==>
                  c.Key() in next.entries && next.entries[c.Key()] == s.entries[c.Key()])
            && (c.attempt.Some? ==>
                  var id := c.attempt.value.Id();
                  id in s.attempts && id in next.attempts && next.attempts[id] == s.attempts[id])
            && (Invoked(next.effects, j) <==> Invoked(s.effects, j))
            && (forall r | InvokedWith(s.effects, j, r) :: InvokedWith(next.effects, j, r))
  {
    hide CallsOk, KeysDistinct, Invoked, InvokedWith, StageOk;
    CallIsOk(cfg, s, i);
    CallIsOk(cfg, s, j);
    if s.calls[i].claimed && s.calls[j].claimed { OtherKeysDiffer(s, i, j); }
    if w.Invoke? {
      InvokedAppend(s.effects, w.effect, j, None);
      forall r ensures InvokedWith(s.effects, j, r) ==> InvokedWith(s.effects + [w.effect], j, r) {
        InvokedAppend(s.effects, w.effect, j, r);
      }
    }
  }

  lemma OtherCallOk(cfg: Config, s: State, i: nat, w: Write, j: nat)
    requires CallsOk(cfg, s) && KeysDistinct(s.calls) && i < |s.calls| && j < |s.calls| && i != j
    requires Permitted(cfg, s, i, s.calls[i], w)
    ensures CallOk(cfg, Apply(s, w), j, s.calls[j])
  {
    hide CallsOk, KeysDistinct, Invoked, InvokedWith, Permitted, StageOf;
    CallIsOk(cfg, s, j);
    OtherWrite(cfg, s, i, w, j);
  }

  // ---------------------------------------------------------------- the state as a whole

  /** `Next` is a sound move of one call. */
  lemma NextCallsOk(cfg: Config, s: State, i: nat, m: Move)
    requires CallsOk(cfg, s) && KeysDistinct(s.calls) && i < |s.calls| && Sound(cfg, s, i, s.calls[i], m)
    ensures CallsOk(cfg, Apply(s, m.write).(calls := s.calls[i := m.after]))
  {
    hide CallsOk, KeysDistinct, Permitted, CallOk, Apply, Continues;
    var next := Apply(s, m.write).(calls := s.calls[i := m.after]);
    forall j | 0 <= j < |next.calls| ensures CallOk(cfg, next, j, next.calls[j]) {
      if j == i { SameStores(cfg, Apply(s, m.write), next, i, m.after); }
      else {
        OtherCallOk(cfg, s, i, m.write, j);
        SameStores(cfg, Apply(s, m.write), next, j, s.calls[j]);
      }
    }
    CallsAreOk(cfg, next);
  }

  lemma CallsAreOk(cfg: Config, s: State)
    requires forall j | 0 <= j < |s.calls| :: CallOk(cfg, s, j, s.calls[j])
    ensures CallsOk(cfg, s)
  {
  }

  lemma SameStores(cfg: Config, s: State, t: State, i: nat, c: Call)
    requires t == s.(calls := t.calls) && CallOk(cfg, s, i, c)
    ensures CallOk(cfg, t, i, c)
  {
    hide Invoked, InvokedWith, StageOf;
  }

  lemma NextKeysDistinct(cfg: Config, s: State, i: nat, m: Move)
    requires Inv(cfg, s) && i < |s.calls| && Sound(cfg, s, i, s.calls[i], m)
    ensures KeysDistinct(s.calls[i := m.after])
  {
    forall j | 0 <= j < |s.calls| && j != i && s.calls[j].claimed && m.after.claimed
      ensures s.calls[j].Key() != m.after.Key()
    {
      CallIsOk(cfg, s, j);
    }
  }

  lemma StaysTaken(calls: seq<Call>, i: nat, next: Call, k: Key)
    requires i < |calls| && (Taken(calls, k) || Takes(next, k))
    requires Takes(calls[i], k) ==> Takes(next, k)
    ensures Taken(calls[i := next], k)
  {
    var after := calls[i := next];
    if Takes(next, k) { assert Takes(after[i], k); }
    else {
      var j :| 0 <= j < |calls| && Takes(calls[j], k);
      assert Takes(after[j], k);
    }
  }

  lemma StaysOwned(calls: seq<Call>, i: nat, next: Call, id: AttemptId)
    requires i < |calls| && (Owned(calls, id) || Holds(next, id))
    requires Holds(calls[i], id) ==> Holds(next, id)
    ensures Owned(calls[i := next], id)
  {
    var after := calls[i := next];
    if Holds(next, id) { assert Holds(after[i], id); }
    else {
      var j :| 0 <= j < |calls| && Holds(calls[j], id);
      assert Holds(after[j], id);
    }
  }

  /** A key taken is the call's own from then on; a result is stored under a key that is taken. */
  lemma KeysInOrder(cfg: Config, s: State, i: nat, m: Move)
    requires i < |s.calls| && Sound(cfg, s, i, s.calls[i], m)
    ensures m.write.TakeKey? ==> Takes(m.after, m.write.taken)
    ensures m.write.SetResult? ==> m.write.completed in s.entries
  {
    hide CallOk;
  }

  lemma NextOwners(cfg: Config, s: State, i: nat, m: Move)
    requires Inv(cfg, s) && i < |s.calls| && Sound(cfg, s, i, s.calls[i], m)
    ensures EntriesTaken(Apply(s, m.write).entries, s.calls[i := m.after])
    ensures AttemptsOwned(Apply(s, m.write).attempts, s.calls[i := m.after])
  {
    hide CallsOk, KeysDistinct, CallOk, Owned, Taken, EffectsOwned, Permitted;
    var next, calls := Apply(s, m.write), s.calls[i := m.after];
    assert Permitted(cfg, s, i, s.calls[i], m.write);
    KeysInOrder(cfg, s, i, m);
    forall k | k in next.entries ensures Taken(calls, k) { StaysTaken(s.calls, i, m.after, k); }
    forall id | id in next.attempts ensures Owned(calls, id) && next.attempts[id].Id() == id {
      StaysOwned(s.calls, i, m.after, id);
    }
  }

  lemma NextEffects(cfg: Config, s: State, i: nat, m: Move)
    requires Inv(cfg, s) && i < |s.calls| && Sound(cfg, s, i, s.calls[i], m)
    ensures EffectsOwned(cfg, Apply(s, m.write).effects, s.calls[i := m.after])
  {
    hide CallsOk, KeysDistinct, CallOk, EntriesTaken, AttemptsOwned;
    var next, calls := Apply(s, m.write), s.calls[i := m.after];
    forall n | 0 <= n < |next.effects|
      ensures next.effects[n].call < |calls| && EffectOf(cfg, next.effects[n], calls[next.effects[n].call])
    {
      assert n < |s.effects| ==> EffectOf(cfg, s.effects[n], s.calls[s.effects[n].call]);
    }
  }

  /** Every step keeps the invariant. */
  lemma NextKeepsInv(cfg: Config, s: State, i: nat, ans: Answer)
    requires Inv(cfg, s) && i < |s.calls|
    ensures Inv(cfg, Next(cfg, s, i, ans))
  {
    hide CallsOk, KeysDistinct, CallOk, EntriesTaken, AttemptsOwned, EffectsOwned, Act, Sound;
    CallIsOk(cfg, s, i);
    ActSound(cfg, s, i, ans);
    var m := Act(cfg, s, i, ans);
    NextCallsOk(cfg, s, i, m);
    NextKeysDistinct(cfg, s, i, m);
    NextOwners(cfg, s, i, m);
    NextEffects(cfg, s, i, m);
  }

  lemma NextKeepsCalls(cfg: Config, s: State, i: nat, ans: Answer)
    requires i < |s.calls|
    ensures |Next(cfg, s, i, ans).calls| == |s.calls|
  {
  }

  lemma {:induction false} AfterKeepsInv(cfg: Config, s: State, run: seq<Turn>)
    requires Inv(cfg, s) && Schedulable(run, |s.calls|)
    ensures Inv(cfg, After(cfg, s, run)) && |After(cfg, s, run).calls| == |s.calls|
    decreases |run|
  {
    hide Inv, Next;
    if run != [] {
      NextKeepsInv(cfg, s, run[0].call, run[0].answer);
      NextKeepsCalls(cfg, s, run[0].call, run[0].answer);
      AfterKeepsInv(cfg, Next(cfg, s, run[0].call, run[0].answer), run[1..]);
    }
  }
}
