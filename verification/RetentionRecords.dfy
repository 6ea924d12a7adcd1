/** Which deletions have an execution record: all of them, unless a deletion transaction rolled back after its
    adapter call. Such a deletion never gets one. */
module RetentionRecords {
  import opened Common
  import opened RetentionRules
  import opened Retention
  import opened RetentionSafety

  /** The adapter deleted something, and no execution record says so. */
  predicate LacksRecord(log: seq<Entry>, n: nat) {
    n < |log| && log[n].AdapterCalled? && Executed(log[n].call.executionId) !in log
  }

  ghost predicate SomeLackRecord(log: seq<Entry>) {
    exists n :: LacksRecord(log, n)
  }

  /** The step takes up an intent it confirms, and its transaction rolls back after the adapter has deleted. */
  predicate LosesRecord(s: State, op: Op, now: Time) {
    && op.DeleteNext? && op.fate == RolledBack(true)
    && Open(s.workers, op.worker, if op.worker < |s.workers| then s.workers[op.worker].next else 0)
    && Confirmed(s, s.workers[op.worker].pending[s.workers[op.worker].next], now)
  }

  // ---------------------------------------------------------------- one step

  predicate IsDeletion(e: Entry) {
    e.AdapterCalled? || e.Executed?
  }

  lemma OtherEntries(log: seq<Entry>, added: seq<Entry>)
    requires forall e | e in added :: !IsDeletion(e)
    ensures SomeLackRecord(log + added) <==> SomeLackRecord(log)
  {
    if n: nat :| LacksRecord(log, n) { assert LacksRecord(log + added, n); }
    forall n: nat ensures LacksRecord(log + added, n) ==> LacksRecord(log, n) {
      if |log| <= n < |log + added| { assert !IsDeletion(added[n - |log|]); }
    }
  }

  lemma {:induction false} IntentLogDeletesNothing(p: Policy, holds: Holds, cs: seq<Candidate>, ids: seq<nat>,
                                                   now: Time)
    requires |ids| == |cs|
    ensures forall e | e in IntentLog(p, holds, cs, ids, now) :: !IsDeletion(e)
  {
    if cs != [] {
      IntentLogDeletesNothing(p, holds, cs[..|cs| - 1], ids[..|cs| - 1], now);
    }
  }

  /** The rows a run of other operations adds delete nothing. */
  lemma OtherSteps(s: State, op: Op, now: Time)
    requires Enabled(s, op) && !op.DeleteNext?
    ensures SomeLackRecord(Step(s, op, now).log) <==> SomeLackRecord(s.log)
  {
    hide SomeLackRecord, IntentLog;
    match op
    case PlaceHold(h) => OtherEntries(s.log, [HoldPlaced(h)]);
    case ReleaseHold(id, approved) => OtherEntries(s.log, [HoldReleased(id)]);
    case ApplyPolicy(p, approved) => OtherEntries(s.log, [PolicyApplied(p)]);
    case Begin(cs, ids) =>
      var p := CurrentPolicy(s.policies, now);
      if p.Some? {
        IntentLogDeletesNothing(p.value, s.holds, cs, ids, now);
        OtherEntries(s.log, IntentLog(p.value, s.holds, cs, ids, now));
      }
  }

  lemma Lost(log: seq<Entry>, p: Pending, now: Time)
    requires Unsettled(log, p.executionId)
    ensures SomeLackRecord(log + [AdapterCalled(p, now)])
  {
    assert LacksRecord(log + [AdapterCalled(p, now)], |log|) by {
      assert forall k | 0 <= k < |log| :: log[k] != Executed(p.executionId);
    }
  }

  lemma Kept(log: seq<Entry>, p: Pending, now: Time)
    requires Unsettled(log, p.executionId)
    ensures SomeLackRecord(log + [AdapterCalled(p, now), Executed(p.executionId)]) <==> SomeLackRecord(log)
  {
    var longer := log + [AdapterCalled(p, now), Executed(p.executionId)];
    assert longer[|log| + 1] == Executed(p.executionId);
    if n: nat :| LacksRecord(log, n) {
      assert Settles(log[n], log[n].call.executionId);
      assert LacksRecord(longer, n);
    }
    if n: nat :| LacksRecord(longer, n) {
      assert n != |log| && n != |log| + 1;
      assert LacksRecord(log, n);
    }
  }

  lemma DeletionStep(s: State, w: nat, fate: Fate, clock: Time, now: Time)
    requires Inv(s, clock)
    ensures SomeLackRecord(Step(s, DeleteNext(w, fate), now).log)
       <==> SomeLackRecord(s.log) || LosesRecord(s, DeleteNext(w, fate), now)
  {
    hide LogOk, PoliciesKnown, HoldsKnown, OpensDistinct, OpensOk, SomeLackRecord, CurrentPolicy, DecisionFor,
         Unsettled,
         IntendedBy;
    if w < |s.workers| && s.workers[w].next < |s.workers[w].pending| {
      var intent := s.workers[w].pending[s.workers[w].next];
      OpenIsOk(s, w, s.workers[w].next, clock);
      OtherEntries(s.log, [Cancelled(intent.executionId)]);
      Lost(s.log, intent, now);
      Kept(s.log, intent, now);
      ConfirmedTenant(s, intent, now);
    }
  }

  lemma ConfirmedTenant(s: State, intent: Pending, now: Time)
    ensures Confirmed(s, intent, now) ==>
              var p := CurrentPolicy(s.policies, now); p.Some? && intent.candidate.tenantId == p.value.tenantId
  {
    hide CurrentPolicy;
  }

  lemma StepRecords(s: State, op: Op, clock: Time, now: Time)
    requires Inv(s, clock) && Enabled(s, op)
    ensures SomeLackRecord(Step(s, op, now).log) <==> SomeLackRecord(s.log) || LosesRecord(s, op, now)
  {
    hide Inv, Step, SomeLackRecord;
    if op.DeleteNext? { DeletionStep(s, op.worker, op.fate, clock, now); } else { OtherSteps(s, op, now); }
  }

  /** A confirmed deletion and its record are committed together, exactly when the transaction is. */
  lemma ConfirmedDeletion(s: State, w: nat, fate: Fate, now: Time)
    requires w < |s.workers| && Open(s.workers, w, s.workers[w].next)
    requires Confirmed(s, s.workers[w].pending[s.workers[w].next], now)
    ensures var intent := s.workers[w].pending[s.workers[w].next];
            Step(s, DeleteNext(w, fate), now).log == s.log + [AdapterCalled(intent, now), Executed(intent.executionId)]
            <==> !fate.RolledBack?
  {
    hide CurrentPolicy, DecisionFor;
    var intent := s.workers[w].pending[s.workers[w].next];
    ConfirmedTenant(s, intent, now);
    assert |s.log + [AdapterCalled(intent, now), Executed(intent.executionId)]| == |s.log| + 2;
  }

  // ---------------------------------------------------------------- whole runs

  /** Somewhere along the run a deletion transaction rolls back after its adapter call. */
  ghost predicate LosesSome(s: State, run: seq<Event>, from: Time)
    requires Possible(s, run, from)
    decreases |run|
  {
    run != [] && (
      || LosesRecord(s, run[0].op, run[0].now)
      || LosesSome(Step(s, run[0].op, run[0].now), run[1..], run[0].now))
  }

  lemma {:induction false} RunRecords(s: State, run: seq<Event>, from: Time)
    requires Inv(s, from) && Possible(s, run, from)
    ensures SomeLackRecord(After(s, run, from).log) <==> SomeLackRecord(s.log) || LosesSome(s, run, from)
    decreases |run|
  {
    hide Inv, Step, SomeLackRecord, LosesRecord;
    if run != [] {
      var e := run[0];
      StepKeepsInv(s, e.op, from, e.now);
      StepRecords(s, e.op, from, e.now);
      RunRecords(Step(s, e.op, e.now), run[1..], e.now);
    }
  }

  /** In every run each deletion has its execution record, unless one rolled back after its adapter call. */
  lemma RecordedUnlessRolledBack(tenantId: string, run: seq<Event>, from: Time)
    requires Possible(Empty(tenantId), run, from)
    ensures SomeLackRecord(After(Empty(tenantId), run, from).log) <==> LosesSome(Empty(tenantId), run, from)
  {
    hide Inv, Step, After, LosesSome;
    EmptyInv(tenantId, from);
    RunRecords(Empty(tenantId), run, from);
  }

  // ---------------------------------------------------------------- a lost record stays lost

  lemma LackStays(log: seq<Entry>, added: seq<Entry>, n: nat)
    requires LacksRecord(log, n) && Executed(log[n].call.executionId) !in added
    ensures LacksRecord(log + added, n)
  {
  }

  lemma LackStaysInStep(s: State, op: Op, clock: Time, now: Time, n: nat)
    requires Inv(s, clock) && Enabled(s, op) && LacksRecord(s.log, n)
    ensures LacksRecord(Step(s, op, now).log, n) && s.log <= Step(s, op, now).log
  {
    hide LogOk, PoliciesKnown, HoldsKnown, OpensDistinct, OpensOk, LacksRecord, CurrentPolicy, DecisionFor, IntentLog,
         IntendedBy, Confirmed;
    var id := LackedId(s.log, n);
    match op
    case PlaceHold(h) => LackStays(s.log, [HoldPlaced(h)], n);
    case ReleaseHold(h, approved) => LackStays(s.log, [HoldReleased(h)], n);
    case ApplyPolicy(p, approved) => LackStays(s.log, [PolicyApplied(p)], n);
    case Begin(cs, ids) =>
      var p := CurrentPolicy(s.policies, now);
      if p.Some? {
        IntentLogDeletesNothing(p.value, s.holds, cs, ids, now);
        LackStays(s.log, IntentLog(p.value, s.holds, cs, ids, now), n);
      }
    case DeleteNext(w, fate) =>
      if w < |s.workers| && s.workers[w].next < |s.workers[w].pending| {
        var intent := s.workers[w].pending[s.workers[w].next];
        OpenIsOk(s, w, s.workers[w].next, clock);
        assert intent.executionId != id;
        LackStays(s.log, [Cancelled(intent.executionId)], n);
        LackStays(s.log, [AdapterCalled(intent, now)], n);
        LackStays(s.log, [AdapterCalled(intent, now), Executed(intent.executionId)], n);
      }
  }

  lemma LackedId(log: seq<Entry>, n: nat) returns (id: nat)
    requires LacksRecord(log, n)
    ensures n < |log| && log[n].AdapterCalled? && id == log[n].call.executionId && Settles(log[n], id)
  {
    id := log[n].call.executionId;
  }

  /** Once lost, the record is never written, whatever runs later. */
  lemma {:induction false} LostForever(s: State, run: seq<Event>, from: Time, n: nat)
    requires Inv(s, from) && Possible(s, run, from) && LacksRecord(s.log, n)
    ensures LacksRecord(After(s, run, from).log, n) && s.log <= After(s, run, from).log
    decreases |run|
  {
    hide Inv, Step, LacksRecord;
    if run != [] {
      var e := run[0];
      StepKeepsInv(s, e.op, from, e.now);
      LackStaysInStep(s, e.op, from, e.now, n);
      LostForever(Step(s, e.op, e.now), run[1..], e.now, n);
    }
  }

  /** A run that ends with a deletion and no record of it. */
  lemma LostRecordExample() returns (log: seq<Entry>)
    ensures History("t", log) && log != [] && LacksRecord(log, |log| - 1)
  {
    hide History;
    var p := Policy(1, "t", 1, 0, Some(0), []);
    var c := Candidate("t", "run", "r", 0);
    var intent := Pending(9, c, 1, 1);
    var s1 := Empty("t").(policies := [p], log := [PolicyApplied(p)]);
    var s2 := s1.(log := [PolicyApplied(p), Evaluated(c, Delete), Intended(intent, 0)],
        workers := [Worker([intent], 0)]);
    var s3 := s2.(log := s2.log + [AdapterCalled(intent, 0)], workers := [Worker([intent], 1)]);
    var e1, e2, e3 := Event(ApplyPolicy(p, true), 0), Event(Begin([c], [9]), 0),
        Event(DeleteNext(0, RolledBack(true)), 0);
    assert CurrentPolicy([p], 0) == Some(p);
    assert DecisionFor(p, map[], c, 0) == Some(Decision(Delete, 1, 1, Some(0), {}));
    assert Step(Empty("t"), e1.op, 0) == s1;
    assert Step(s1, e2.op, 0) == s2 by { OneIntent(p, c, intent); }
    assert Step(s2, e3.op, 0) == s3;
    log := s3.log;
    assert Possible(s2, [e3], 0) && After(s2, [e3], 0) == s3 by { hide Step; }
    assert Possible(s1, [e2] + [e3], 0) && After(s1, [e2] + [e3], 0) == s3 by {
      hide Step;
      assert ([e2] + [e3])[1..] == [e3];
    }
    var run := [e1] + ([e2] + [e3]);
    assert Possible(Empty("t"), run, 0) && After(Empty("t"), run, 0) == s3 by {
      hide Step;
      assert run[1..] == [e2] + [e3];
    }
    HistoryBy(run, 0);
  }

  lemma OneIntent(p: Policy, c: Candidate, intent: Pending)
    requires Deletes(p, map[], c, 0) && intent == Pending(9, c, p.policyId, p.revision)
    ensures IntentLog(p, map[], [c], [9], 0) == [Evaluated(c, Delete), Intended(intent, 0)]
    ensures Intents(p, map[], [c], [9], 0) == [intent]
  {
  }

  lemma HistoryBy(run: seq<Event>, from: Time)
    requires Possible(Empty("t"), run, from)
    ensures History("t", After(Empty("t"), run, from).log)
  {
  }
}
