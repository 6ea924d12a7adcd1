/** The broker's guarantees over whole runs, read off the invariant. */
module BrokerOutcomes {
  import opened Common
  import opened ExecutionStores
  import opened Broker
  import opened BrokerSafety

  /** Some interleaving of the calls leads to `s`. */
  ghost predicate Reachable(cfg: Config, requests: seq<Request>, s: State) {
    exists run :: Schedulable(run, |requests|) && After(cfg, Initial(requests), run) == s
  }

  lemma ReachableInv(cfg: Config, requests: seq<Request>, s: State)
    requires Reachable(cfg, requests, s)
    ensures Inv(cfg, s) && CallsOk(cfg, s) && |s.calls| == |requests|
  {
    hide CallsOk, KeysDistinct, EntriesTaken, AttemptsOwned, EffectsOwned, After;
    var run :| Schedulable(run, |requests|) && After(cfg, Initial(requests), run) == s;
    InitialInv(cfg, requests);
    AfterKeepsInv(cfg, Initial(requests), run);
  }

  // ---------------------------------------------------------------- at most one effect, one result

  /** Two effects never share an idempotency key. */
  lemma EffectsHaveDistinctKeys(cfg: Config, s: State, m: nat, n: nat)
    requires Inv(cfg, s) && m < |s.effects| && n < |s.effects| && s.effects[m].key == s.effects[n].key
    ensures m == n
  {
    hide CallsOk, EntriesTaken, AttemptsOwned;
    assert EffectOf(cfg, s.effects[m], s.calls[s.effects[m].call]);
    assert EffectOf(cfg, s.effects[n], s.calls[s.effects[n].call]);
  }

  /** Over any interleaving of any number of calls, each of which may crash or see its stores fail at any
      step, an executor is invoked at most once for a tenant's idempotency key. */
  lemma AtMostOneEffect(cfg: Config, requests: seq<Request>, s: State, m: nat, n: nat)
    requires Reachable(cfg, requests, s)
    requires m < |s.effects| && n < |s.effects| && s.effects[m].key == s.effects[n].key
    ensures m == n
  {
    hide Inv, Reachable;
    ReachableInv(cfg, requests, s);
    EffectsHaveDistinctKeys(cfg, s, m, n);
  }

  /** A call that made the effect `n` and nothing else for the returned call's key. */
  predicate ResultOfEffect(s: State, c: Call, n: nat) {
    && n < |s.effects| && s.effects[n].key == c.Key() && s.effects[n].returned == c.result
    && s.effects[n].call < |s.calls| && s.calls[s.effects[n].call].claimed
    && s.calls[s.effects[n].call].action.digest == c.action.digest
  }

  lemma EntryHasEffect(cfg: Config, s: State, k: Key) returns (n: nat)
    requires Inv(cfg, s) && ResultOf(s.entries, k).Some?
    ensures n < |s.effects| && s.effects[n].key == k && s.effects[n].returned == ResultOf(s.entries, k)
    ensures s.effects[n].call < |s.calls| && Takes(s.calls[s.effects[n].call], k)
    ensures SameDigest(s.entries, s.calls[s.effects[n].call])
  {
    assert Taken(s.calls, k);
    var i :| 0 <= i < |s.calls| && Takes(s.calls[i], k);
    assert CallOk(cfg, s, i, s.calls[i]);
    n :| 0 <= n < |s.effects| && s.effects[n].call == i && s.effects[n].returned == ResultOf(s.entries, k);
    assert EffectOf(cfg, s.effects[n], s.calls[i]);
  }

  /** Whoever returns for a key, the caller that executed or one that found the key taken, returns what
      the key's single invocation returned, for an action of the same digest. */
  lemma OutcomesShareOneResult(cfg: Config, requests: seq<Request>, s: State, i: nat) returns (n: nat)
    requires Reachable(cfg, requests, s) && i < |s.calls| && s.calls[i].phase == Returned
    ensures s.calls[i].result.Some? && ResultOfEffect(s, s.calls[i], n)
    ensures forall other | 0 <= other < |s.effects| && s.effects[other].key == s.calls[i].Key() :: other == n
  {
    hide Inv, Reachable, CallsOk, Invoked, InvokedWith;
    ReachableInv(cfg, requests, s);
    CallIsOk(cfg, s, i);
    n := EntryHasEffect(cfg, s, s.calls[i].Key());
    forall other | 0 <= other < |s.effects| && s.effects[other].key == s.calls[i].Key() ensures other == n {
      EffectsHaveDistinctKeys(cfg, s, other, n);
    }
  }

  // ---------------------------------------------------------------- uncertain attempts

  lemma AttemptHasCall(cfg: Config, s: State, id: AttemptId) returns (i: nat)
    requires Inv(cfg, s) && id in s.attempts
    ensures i < |s.calls| && Holds(s.calls[i], id) && Takes(s.calls[i], s.attempts[id].key)
            && CallOk(cfg, s, i, s.calls[i])
  {
    hide KeysDistinct, EntriesTaken, EffectsOwned, Invoked, InvokedWith, StageOk;
    assert Owned(s.calls, id);
    i :| 0 <= i < |s.calls| && Holds(s.calls[i], id);
    CallIsOk(cfg, s, i);
  }

  /** A key has at most one attempt; its attempt is `Succeeded` or `Failed`, as the result says, once a
      result is stored, and until then the key has no result. */
  lemma AttemptDecidesResult(cfg: Config, requests: seq<Request>, s: State, id: AttemptId)
    requires Reachable(cfg, requests, s) && id in s.attempts
    ensures forall other | other in s.attempts && s.attempts[other].key == s.attempts[id].key :: other == id
    ensures var stored := ResultOf(s.entries, s.attempts[id].key);
            stored.Some? ==> s.attempts[id].state == Outcome(stored.value)
  {
    hide Inv, Reachable, CallsOk, Invoked, InvokedWith, StageOk;
    ReachableInv(cfg, requests, s);
    var i := AttemptHasCall(cfg, s, id);
    forall other | other in s.attempts && s.attempts[other].key == s.attempts[id].key ensures other == id {
      var j := AttemptHasCall(cfg, s, other);
      if j != i { CallsDiffer(cfg, s, i, j); }
    }
  }

  lemma CallsDiffer(cfg: Config, s: State, i: nat, j: nat)
    requires Inv(cfg, s) && i < |s.calls| && j < |s.calls| && i != j && s.calls[i].claimed && s.calls[j].claimed
    ensures s.calls[i].Key() != s.calls[j].Key()
  {
    OtherKeysDiffer(s, i, j);
  }

  /** With a journal, no executor is invoked without an attempt that recovery can find. */
  lemma EveryEffectIsJournalled(cfg: Config, requests: seq<Request>, s: State, n: nat)
    requires Reachable(cfg, requests, s) && cfg.attempts && n < |s.effects|
    ensures var e := s.effects[n];
            && !e.mode.Plain?
            && var id := AttemptId(e.key.tenantId, e.mode.attemptId);
               id in s.attempts && s.attempts[id].key == e.key && s.attempts[id].state != Claimed
  {
    hide Reachable, CallsOk, KeysDistinct, EntriesTaken, AttemptsOwned, InvokedWith, StageOk;
    ReachableInv(cfg, requests, s);
    var e := s.effects[n];
    assert EffectOf(cfg, e, s.calls[e.call]);
    CallIsOk(cfg, s, e.call);
    assert Invoked(s.effects, e.call);
  }

  /** With a journal, a stored result is accounted for by the key's one attempt, which says what it says. */
  lemma StoredResultHasAttempt(cfg: Config, requests: seq<Request>, s: State, k: Key) returns (id: AttemptId)
    requires Reachable(cfg, requests, s) && cfg.attempts && ResultOf(s.entries, k).Some?
    ensures id in s.attempts && s.attempts[id].key == k
    ensures s.attempts[id].state == if ResultOf(s.entries, k).value.succeeded then Succeeded else Failed
    ensures forall other | other in s.attempts && s.attempts[other].key == k :: other == id
  {
    hide Inv, Reachable, CallsOk, SameDigest;
    ReachableInv(cfg, requests, s);
    var n := EntryHasEffect(cfg, s, k);
    EveryEffectIsJournalled(cfg, requests, s, n);
    id := AttemptId(k.tenantId, s.effects[n].mode.attemptId);
    AttemptDecidesResult(cfg, requests, s, id);
  }

  /** The journal entry is written ahead: at the moment of the invocation it says `Started`. */
  lemma InvocationIsWrittenAhead(cfg: Config, requests: seq<Request>, s: State, i: nat, ans: Answer)
    requires Reachable(cfg, requests, s) && i < |s.calls| && cfg.attempts && Act(cfg, s, i, ans).write.Invoke?
    ensures var e := Act(cfg, s, i, ans).write.effect;
            && !e.mode.Plain?
            && var id := AttemptId(e.key.tenantId, e.mode.attemptId);
               id in s.attempts && s.attempts[id].state == Started
  {
    hide Reachable, Inv, CallsOk, Act, CallOk;
    ReachableInv(cfg, requests, s);
    CallIsOk(cfg, s, i);
    ActSound(cfg, s, i, ans);
    assert s.calls[i].attempt.value.key == s.calls[i].Key() by { ClaimedAttempt(cfg, s, i); }
  }

  lemma ClaimedAttempt(cfg: Config, s: State, i: nat)
    requires i < |s.calls| && CallOk(cfg, s, i, s.calls[i]) && s.calls[i].attempt.Some?
    ensures s.calls[i].attempt.value.key == s.calls[i].Key()
  {
  }

  predicate Terminal(state: AttemptState) {
    state in {Succeeded, Failed, Uncertain}
  }

  lemma TerminalStays(cfg: Config, s: State, i: nat, ans: Answer, id: AttemptId)
    requires Inv(cfg, s) && i < |s.calls| && id in s.attempts && Terminal(s.attempts[id].state)
    ensures id in Next(cfg, s, i, ans).attempts && Next(cfg, s, i, ans).attempts[id] == s.attempts[id]
  {
    hide CallsOk, KeysDistinct, EntriesTaken, EffectsOwned, Act, CallOk;
    CallIsOk(cfg, s, i);
    ActSound(cfg, s, i, ans);
  }

  lemma {:induction false} TerminalStaysForever(cfg: Config, s: State, run: seq<Turn>, id: AttemptId)
    requires Inv(cfg, s) && Schedulable(run, |s.calls|) && id in s.attempts && Terminal(s.attempts[id].state)
    ensures id in After(cfg, s, run).attempts && After(cfg, s, run).attempts[id] == s.attempts[id]
    decreases |run|
  {
    hide Inv, Next;
    if run != [] {
      var next := Next(cfg, s, run[0].call, run[0].answer);
      NextKeepsInv(cfg, s, run[0].call, run[0].answer);
      NextKeepsCalls(cfg, s, run[0].call, run[0].answer);
      TerminalStays(cfg, s, run[0].call, run[0].answer, id);
      TerminalStaysForever(cfg, next, run[1..], id);
    }
  }

  /** Once an attempt is uncertain, whatever happens later it stays uncertain and its key never gets a result. */
  lemma UncertainIsNeverResolved(cfg: Config, requests: seq<Request>, s: State, run: seq<Turn>, id: AttemptId)
    requires Reachable(cfg, requests, s) && Schedulable(run, |s.calls|)
    requires id in s.attempts && s.attempts[id].state == Uncertain
    ensures var later := After(cfg, s, run);
            id in later.attempts && later.attempts[id].state == Uncertain
            && ResultOf(later.entries, s.attempts[id].key).None?
  {
    hide Inv, Reachable, CallsOk, Invoked, InvokedWith, StageOk;
    ReachableInv(cfg, requests, s);
    TerminalStaysForever(cfg, s, run, id);
    AfterKeepsInv(cfg, s, run);
    var i := AttemptHasCall(cfg, After(cfg, s, run), id);
  }

  // ---------------------------------------------------------------- the two store profiles

  /** Every attempt the broker writes is either a new one, `Claimed` under an unused id, or one the
      PostgreSQL journal accepts: same identity, an edge of the transition table. */
  lemma AttemptWritesAreLegal(cfg: Config, requests: seq<Request>, s: State, i: nat, ans: Answer)
    requires Reachable(cfg, requests, s) && i < |s.calls| && Act(cfg, s, i, ans).write.PutAttempt?
    ensures var a := Act(cfg, s, i, ans).write.attempt;
            if a.Id() in s.attempts then Replace(Postgres, s.attempts, a).Some?
            else a.state == Claimed && Create(s.attempts, a).Some?
  {
    hide Reachable, Inv, CallsOk, Act, CallOk;
    ReachableInv(cfg, requests, s);
    CallIsOk(cfg, s, i);
    ActSound(cfg, s, i, ans);
  }

  lemma PrepareAgrees(cfg: Config, s: State, i: nat, c: Call, ans: Answer, profile: Profile)
    ensures Prepare(cfg.(profile := profile), s, i, c, ans) == Prepare(cfg, s, i, c, ans)
    ensures RevokeLease(cfg.(profile := profile), ans, i, c) == RevokeLease(cfg, ans, i, c)
    ensures InvokeExecutor(cfg.(profile := profile), ans, i, c) == InvokeExecutor(cfg, ans, i, c)
  {
  }

  /** A replacement that both stores take. */
  lemma JournalAgrees(cfg: Config, s: State, i: nat, c: Call, record: Attempt, next: Call, profile: Profile)
    requires CallOk(cfg, s, i, c) && c.attempt.Some? && SameIdentity(c.attempt.value, record)
    requires record.state in Transitions(s.attempts[record.Id()].state)
    ensures Journal(cfg.(profile := profile), s.attempts, c, record, next) == Journal(cfg, s.attempts, c, record, next)
  {
    hide StageOk;
  }

  lemma PerformAgrees(cfg: Config, s: State, i: nat, c: Call, ans: Answer, profile: Profile)
    requires CallOk(cfg, s, i, c) && !IsRevoking(c.phase)
    ensures Perform(cfg.(profile := profile), s, i, c, ans) == Perform(cfg, s, i, c, ans)
  {
    hide RevokeLease, InvokeExecutor, Journal, Invoked, InvokedWith;
    var other := cfg.(profile := profile);
    match c.phase
    case StartingAttempt =>
      var record := c.attempt.value.(state := Started);
      JournalAgrees(cfg, s, i, c, record, c.(attempt := Some(record), phase := RecordingStart), profile);
    case Invoking => PrepareAgrees(cfg, s, i, c, ans, profile);
    case MarkingUncertain(context) =>
      if c.attempt.Some? {
        JournalAgrees(cfg, s, i, c, c.attempt.value.(state := Uncertain),
                      c.(phase := if context == AfterRaise then PhaseAfterDoubt(c) else RecordingUncertain), profile);
      }
    case FinishingAttempt =>
      if c.attempt.Some? {
        JournalAgrees(cfg, s, i, c, c.attempt.value.(state := Outcome(c.result.value)), c.(phase := Completing),
            profile);
      }
    case Completing =>
      assert forall any: Profile :: Complete(any, s.entries, c.Key(), c.result.value).Some?;
    case _ =>
  }

  /** So the unchecked in-memory stores take exactly the steps the checked ones would. */
  lemma ProfilesAgree(cfg: Config, s: State, i: nat, ans: Answer, profile: Profile)
    requires Inv(cfg, s) && i < |s.calls|
    ensures Act(cfg.(profile := profile), s, i, ans) == Act(cfg, s, i, ans)
  {
    hide Inv, Prepare, Perform, Deliver, RevokeLease, CallOk;
    assert CallOk(cfg, s, i, s.calls[i]) by { InvCall(cfg, s, i); }
    PrepareAgrees(cfg, s, i, s.calls[i], ans, profile);
    if !IsRevoking(s.calls[i].phase) { PerformAgrees(cfg, s, i, s.calls[i], ans, profile); }
  }

  lemma InvCall(cfg: Config, s: State, i: nat)
    requires Inv(cfg, s) && i < |s.calls|
    ensures CallOk(cfg, s, i, s.calls[i])
  {
    CallIsOk(cfg, s, i);
  }

  lemma {:induction false} RunsAgree(cfg: Config, s: State, run: seq<Turn>, profile: Profile)
    requires Inv(cfg, s) && Schedulable(run, |s.calls|)
    ensures After(cfg.(profile := profile), s, run) == After(cfg, s, run)
    decreases |run|
  {
    hide Inv, Act, Apply;
    if run != [] {
      NextKeepsInv(cfg, s, run[0].call, run[0].answer);
      ProfilesAgree(cfg, s, run[0].call, run[0].answer, profile);
      RunsAgree(cfg, Next(cfg, s, run[0].call, run[0].answer), run[1..], profile);
    }
  }
}
