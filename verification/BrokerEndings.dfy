/** How one call ends, whatever it meets: policy, approval, executor and lease provider answer as they like, the
    stores and the ledger do not fail, and the other calls rest. For every such call, the ledger's entries, the
    executor's invocation, the key's entry, the attempt record and the outcome are all determined. */
module BrokerEndings {
  import opened Common
  import opened ExecutionStores
  import opened Broker

  // ---------------------------------------------------------------- what the call meets

  /** The answers to one call: `revoked` is whether the provider revokes its lease, and `told` what becomes of the
      ledger record of that; `observed` and `verified` are the actions the two reports are about. */
  datatype World = World(
    clock: Time, policy: Policy, approval: Option<Approval>, leaseId: nat, attemptId: nat,
    executed: Option<ExecutionResult>, revoked: bool, told: Fate, observed: nat, verified: nat)

  function AnswerAt(w: World, p: Phase): Answer {
    Answer(if p.RecordingRevocation? || p.RecordingRevocationFailure? then w.told else Done,
           w.clock, w.policy, w.approval, if p.Selecting? then w.leaseId else w.attemptId,
           w.executed, w.revoked, if p.Observing? then w.observed else w.verified)
  }

  /** The executor returns `r`, which is a result for this action by this executor. */
  predicate Executes(cfg: Config, a: Action, ans: Answer, r: ExecutionResult) {
    && a.executor in cfg.executors
    && ans.executed == Some(r) && r.actionId == a.actionId
    && r.executorName == cfg.executors[a.executor].name && r.executorVersion == cfg.executors[a.executor].version
    && (cfg.attempts ==> r.attemptId == Some(ans.freshId))
  }

  predicate Equipped(cfg: Config, c: Call) {
    && c.action.executor in cfg.executors && c.executor == Some(cfg.executors[c.action.executor])
    && (c.lease.Some? <==> cfg.leases)
  }

  function Record(cfg: Config, a: Action, ans: Answer, state: AttemptState): Attempt
    requires a.executor in cfg.executors
  {
    var e := cfg.executors[a.executor];
    Attempt(ans.freshId, a.actionId, a.runId, a.Key(), a.digest, e.name, e.version, e.identity, state)
  }

  ghost predicate OnlyCall(s: State, t: State, i: nat)
    requires i < |s.calls|
  {
    |t.calls| == |s.calls| && t.calls == s.calls[i := t.calls[i]] && t.calls[i].action == s.calls[i].action
  }

  /** One turn of call `i`. */
  function Turned(cfg: Config, w: World, s: State, i: nat): (t: State)
    requires i < |s.calls|
    ensures |t.calls| == |s.calls|
  {
    Next(cfg, s, i, AnswerAt(w, s.calls[i].phase))
  }

  /** `n` turns of it. */
  function Alone(cfg: Config, w: World, s: State, i: nat, n: nat): (t: State)
    requires i < |s.calls|
    ensures |t.calls| == |s.calls|
    decreases n
  {
    if n == 0 then s else Alone(cfg, w, Turned(cfg, w, s, i), i, n - 1)
  }

  ghost predicate Leads(cfg: Config, w: World, i: nat, s: State, t: State) {
    i < |s.calls| && exists n: nat :: Alone(cfg, w, s, i, n) == t
  }

  lemma {:induction false} AloneAdds(cfg: Config, w: World, s: State, i: nat, m: nat, n: nat)
    requires i < |s.calls|
    ensures Alone(cfg, w, Alone(cfg, w, s, i, m), i, n) == Alone(cfg, w, s, i, m + n)
    decreases m
  {
    hide Turned;
    if m > 0 { AloneAdds(cfg, w, Turned(cfg, w, s, i), i, m - 1, n); }
  }

  lemma LeadsOn(cfg: Config, w: World, i: nat, s: State, t: State, u: State)
    requires Leads(cfg, w, i, s, t) && Leads(cfg, w, i, t, u)
    ensures Leads(cfg, w, i, s, u)
  {
    hide Alone;
    var m: nat :| Alone(cfg, w, s, i, m) == t;
    var n: nat :| Alone(cfg, w, t, i, n) == u;
    AloneAdds(cfg, w, s, i, m, n);
  }

  /** What leads somewhere is a run of the broker, in which only call `i` has turns. */
  lemma {:induction false} AloneIsRun(cfg: Config, w: World, s: State, i: nat, n: nat) returns (run: seq<Turn>)
    requires i < |s.calls|
    ensures Schedulable(run, |s.calls|) && After(cfg, s, run) == Alone(cfg, w, s, i, n)
    ensures forall k | 0 <= k < |run| :: run[k].call == i
    decreases n
  {
    hide Next;
    if n == 0 { return []; }
    var rest := AloneIsRun(cfg, w, Turned(cfg, w, s, i), i, n - 1);
    run := [Turn(i, AnswerAt(w, s.calls[i].phase))] + rest;
    assert run[1..] == rest;
  }

  // ---------------------------------------------------------------- one turn

  /** What the calls share, apart from the ledger. */
  datatype Stores = Stores(entries: Entries, attempts: Attempts, effects: seq<Effect>)

  function StoresOf(s: State): Stores { Stores(s.entries, s.attempts, s.effects) }

  /** The ledger entries of call `i` with these bodies. */
  function Said(i: nat, a: Action, bodies: seq<Body>): seq<Event> {
    seq(|bodies|, k requires 0 <= k < |bodies| => Event(i, a.digest, bodies[k]))
  }

  /** The call has left the stores like this, told the ledger this, and come to hold these locals. */
  function Left(s: State, i: nat, stores: Stores, bodies: seq<Body>, c: Call): (t: State)
    requires i < |s.calls|
    ensures |t.calls| == |s.calls| && t.calls[i] == c && StoresOf(t) == stores
  {
    State(stores.entries, stores.attempts, s.events + Said(i, c.action, bodies), stores.effects, s.calls[i := c])
  }

  lemma LeftTwice(s: State, i: nat, st: Stores, x: seq<Body>, c: Call, su: Stores, y: seq<Body>, d: Call)
    requires i < |s.calls| && c.action == d.action
    ensures Left(Left(s, i, st, x, c), i, su, y, d) == Left(s, i, su, x + y, d)
  {
    assert Said(i, d.action, x + y) == Said(i, d.action, x) + Said(i, d.action, y);
  }

  predicate Writes(s: State, i: nat, a: Action, write: Write, stores: Stores, bodies: seq<Body>) {
    match write
    case Append(e) => |bodies| == 1 && e == Event(i, a.digest, bodies[0]) && stores == StoresOf(s)
    case _ => bodies == [] && stores == StoresOf(Apply(s, write))
  }

  /** The turn in which the plan is `m`. */
  lemma Takes(cfg: Config, w: World, s: State, i: nat, m: Move, stores: Stores, bodies: seq<Body>)
    requires i < |s.calls| && Plan(cfg, s, i, s.calls[i], AnswerAt(w, s.calls[i].phase)) == m
    requires m.after.action == s.calls[i].action && Writes(s, i, m.after.action, m.write, stores, bodies)
    ensures Leads(cfg, w, i, s, Left(s, i, stores, bodies, m.after))
  {
    hide Plan;
    var t := Turned(cfg, w, s, i);
    assert Said(i, m.after.action, []) == [] && s.events + [] == s.events;
    if m.write.Append? { assert Said(i, m.after.action, bodies) == [m.write.event]; }
    assert t == Left(s, i, stores, bodies, m.after);
    assert Alone(cfg, w, s, i, 1) == t by { assert Alone(cfg, w, t, i, 0) == t; }
  }

  lemma AndThen(cfg: Config, w: World, s: State, i: nat, st: Stores, x: seq<Body>, c: Call,
                su: Stores, y: seq<Body>, d: Call)
    requires i < |s.calls| && c.action == d.action && Leads(cfg, w, i, s, Left(s, i, st, x, c))
    requires var t := Left(s, i, st, x, c); Leads(cfg, w, i, t, Left(t, i, su, y, d))
    ensures Leads(cfg, w, i, s, Left(s, i, su, x + y, d))
  {
    hide Leads, Left;
    LeftTwice(s, i, st, x, c, su, y, d);
    LeadsOn(cfg, w, i, s, Left(s, i, st, x, c), Left(s, i, su, x + y, d));
  }

  // ---------------------------------------------------------------- the outcome is observed and verified

  predicate Delivered(w: World, a: Action) { w.observed == a.actionId && w.verified == a.actionId }

  function DeliveryTold(w: World, a: Action, reused: bool): seq<Body> {
    if w.observed != a.actionId then []
    else [StateObserved(reused)] + if w.verified != a.actionId then [] else [VerificationCompleted(reused)]
  }

  lemma Verifies(cfg: Config, w: World, s: State, i: nat)
    requires i < |s.calls| && s.calls[i].phase == Verifying
    ensures var c := s.calls[i]; var ok := w.verified == c.action.actionId;
            Leads(cfg, w, i, s, Left(s, i, StoresOf(s), if ok then [VerificationCompleted(c.reused)] else [],
                                     c.(phase := if ok then Returned else Raised)))
  {
    hide Leads, Left;
    var c, st := s.calls[i], StoresOf(s);
    if w.verified != c.action.actionId {
      Takes(cfg, w, s, i, Raise(c), st, []);
    } else {
      var d := c.(phase := RecordingVerification);
      Takes(cfg, w, s, i, Move(Nothing, d), st, []);
      var told := [VerificationCompleted(c.reused)];
      Takes(cfg, w, Left(s, i, st, [], d), i, Log(i, d, told[0], Returned), st, told);
      AndThen(cfg, w, s, i, st, [], d, st, told, d.(phase := Returned));
      assert [] + told == told;
    }
  }

  lemma Observes(cfg: Config, w: World, s: State, i: nat)
    requires i < |s.calls| && s.calls[i].phase == Observing
    ensures var c := s.calls[i];
            Leads(cfg, w, i, s, Left(s, i, StoresOf(s), DeliveryTold(w, c.action, c.reused),
                                     c.(phase := if Delivered(w, c.action) then Returned else Raised)))
  {
    hide Leads, Left;
    var c, st := s.calls[i], StoresOf(s);
    if w.observed != c.action.actionId {
      Takes(cfg, w, s, i, Raise(c), st, []);
    } else {
      var d, e := c.(phase := RecordingObservation), c.(phase := Verifying);
      Takes(cfg, w, s, i, Move(Nothing, d), st, []);
      var told := [StateObserved(c.reused)];
      Takes(cfg, w, Left(s, i, st, [], d), i, Log(i, d, told[0], Verifying), st, told);
      AndThen(cfg, w, s, i, st, [], d, st, told, e);
      assert [] + told == told;
      Verifies(cfg, w, Left(s, i, st, told, e), i);
      AndThen(cfg, w, s, i, st, told, e, st,
              if w.verified == c.action.actionId then [VerificationCompleted(c.reused)] else [],
              c.(phase := if Delivered(w, c.action) then Returned else Raised));
    }
  }

  // ---------------------------------------------------------------- the lease is revoked

  predicate RevocationOk(w: World) { w.revoked && w.told == Done }

  function RevocationTold(w: World, lease: Option<nat>): seq<Body> {
    if lease.None? || w.told == LostBefore then []
    else if w.revoked then [LeaseRevoked(lease)] else [LeaseRevocationFailed(lease)]
  }

  predicate RecordsRevocation(w: World, p: Phase, context: Context) {
    p == if w.revoked then RecordingRevocation(context) else RecordingRevocationFailure(context)
  }

  lemma RecordsIt(cfg: Config, w: World, s: State, i: nat, context: Context)
    requires i < |s.calls| && RecordsRevocation(w, s.calls[i].phase, context) && s.calls[i].lease.Some?
    ensures var c := s.calls[i];
            Leads(cfg, w, i, s, Left(s, i, StoresOf(s), RevocationTold(w, c.lease),
                                     c.(phase := PhaseAfterRevocation(cfg, context, RevocationOk(w)))))
  {
    hide Leads, Left, PhaseAfterRevocation;
    var c, told := s.calls[i], RevocationTold(w, s.calls[i].lease);
    var d := c.(phase := PhaseAfterRevocation(cfg, context, RevocationOk(w)));
    Takes(cfg, w, s, i, Move(if told == [] then Nothing else Append(Event(i, c.action.digest, told[0])), d),
          StoresOf(s), told);
  }

  lemma Revokes(cfg: Config, w: World, s: State, i: nat, context: Context)
    requires i < |s.calls| && s.calls[i].phase == Revoking(context) && s.calls[i].lease.Some?
    ensures var c := s.calls[i];
            Leads(cfg, w, i, s, Left(s, i, StoresOf(s), RevocationTold(w, c.lease),
                                     c.(phase := PhaseAfterRevocation(cfg, context, RevocationOk(w)))))
  {
    hide Leads, Left, PhaseAfterRevocation, RevocationTold;
    var c, st, told := s.calls[i], StoresOf(s), RevocationTold(w, s.calls[i].lease);
    var d := c.(phase := if w.revoked then RecordingRevocation(context) else RecordingRevocationFailure(context));
    Takes(cfg, w, s, i, Move(Nothing, d), st, []);
    RecordsIt(cfg, w, Left(s, i, st, [], d), i, context);
    AndThen(cfg, w, s, i, st, [], d, st, told, c.(phase := PhaseAfterRevocation(cfg, context, RevocationOk(w))));
    assert [] + told == told;
  }

  // ---------------------------------------------------------------- an invocation in doubt

  lemma TellsDoubt(cfg: Config, w: World, s: State, i: nat)
    requires i < |s.calls| && s.calls[i].phase == RecordingUncertain
    ensures var c := s.calls[i];
            Leads(cfg, w, i, s, Left(s, i, StoresOf(s), [ExecutionUncertain(AttemptIdOf(c))], c.(phase := Raised)))
  {
    hide Leads, Left;
    var c, told := s.calls[i], [ExecutionUncertain(AttemptIdOf(s.calls[i]))];
    Takes(cfg, w, s, i, Log(i, c, told[0], Raised), StoresOf(s), told);
  }

  lemma Doubts(cfg: Config, w: World, s: State, i: nat)
    requires i < |s.calls| && s.calls[i].phase == PhaseAfterDoubt(s.calls[i])
    ensures var c := s.calls[i];
            Leads(cfg, w, i, s, Left(s, i, StoresOf(s),
                                     RevocationTold(w, c.lease) + [ExecutionUncertain(AttemptIdOf(c))],
                                     c.(phase := Raised)))
  {
    hide Leads, Left;
    var c, st := s.calls[i], StoresOf(s);
    var d, told := c.(phase := RecordingUncertain), [ExecutionUncertain(AttemptIdOf(c))];
    if c.lease.None? {
      TellsDoubt(cfg, w, s, i);
      assert [] + told == told;
    } else {
      hide RevocationTold;
      Revokes(cfg, w, s, i, AfterRaise);
      TellsDoubt(cfg, w, Left(s, i, st, RevocationTold(w, c.lease), d), i);
      AndThen(cfg, w, s, i, st, RevocationTold(w, c.lease), d, st, told, c.(phase := Raised));
    }
  }

  /** The call's own record is in the journal, started. */
  predicate Recorded(s: State, c: Call) {
    && c.attempt.Some? && c.attempt.value.state == Started
    && c.attempt.value.Id() in s.attempts && s.attempts[c.attempt.value.Id()] == c.attempt.value
  }

  /** The stores with the call's record, if it has one, in this state. */
  function Journalled(stores: Stores, c: Call, state: AttemptState): Stores {
    if c.attempt.None? then stores
    else stores.(attempts := stores.attempts[c.attempt.value.Id() := c.attempt.value.(state := state)])
  }

  lemma Marks(cfg: Config, w: World, s: State, i: nat, context: Context)
    requires i < |s.calls| && s.calls[i].phase == MarkingUncertain(context) && Recorded(s, s.calls[i])
    ensures var c := s.calls[i];
            Leads(cfg, w, i, s,
                  Left(s, i, Journalled(StoresOf(s), c, Uncertain), [],
                       c.(phase := if context == AfterRaise then PhaseAfterDoubt(c) else RecordingUncertain)))
  {
    hide Leads, Left;
    var c := s.calls[i];
    var next := c.(phase := if context == AfterRaise then PhaseAfterDoubt(c) else RecordingUncertain);
    Takes(cfg, w, s, i, Move(PutAttempt(c.attempt.value.(state := Uncertain)), next),
          Journalled(StoresOf(s), c, Uncertain), []);
  }

  /** After the executor raised. */
  lemma RaiseEnds(cfg: Config, w: World, s: State, i: nat)
    requires i < |s.calls| && (s.calls[i].attempt.Some? ==> Recorded(s, s.calls[i]))
    requires var c := s.calls[i];
             c.phase == if c.attempt.Some? then MarkingUncertain(AfterRaise) else PhaseAfterDoubt(c)
    ensures var c := s.calls[i];
            Leads(cfg, w, i, s, Left(s, i, Journalled(StoresOf(s), c, Uncertain),
                                     RevocationTold(w, c.lease) + [ExecutionUncertain(AttemptIdOf(c))],
                                     c.(phase := Raised)))
  {
    hide Leads, RevocationTold, Left;
    var c := s.calls[i];
    if c.attempt.None? {
      Doubts(cfg, w, s, i);
    } else {
      var d, st := c.(phase := PhaseAfterDoubt(c)), Journalled(StoresOf(s), c, Uncertain);
      var told := RevocationTold(w, c.lease) + [ExecutionUncertain(AttemptIdOf(c))];
      Marks(cfg, w, s, i, AfterRaise);
      Doubts(cfg, w, Left(s, i, st, [], d), i);
      AndThen(cfg, w, s, i, st, [], d, st, told, c.(phase := Raised));
      assert [] + told == told;
    }
  }

  /** The executor returned, but its lease could not be revoked, or not on record. */
  lemma RevocationEnds(cfg: Config, w: World, s: State, i: nat)
    requires i < |s.calls| && s.calls[i].phase == Revoking(AfterReturn) && s.calls[i].lease.Some? && !RevocationOk(w)
    requires cfg.attempts <==> s.calls[i].attempt.Some?
    requires s.calls[i].attempt.Some? ==> Recorded(s, s.calls[i])
    ensures var c := s.calls[i];
            Leads(cfg, w, i, s, Left(s, i, Journalled(StoresOf(s), c, Uncertain),
                                     RevocationTold(w, c.lease) + [ExecutionUncertain(AttemptIdOf(c))],
                                     c.(phase := Raised)))
  {
    hide Leads, RevocationTold, RevocationOk, Left;
    var c, st, told := s.calls[i], StoresOf(s), RevocationTold(w, s.calls[i].lease);
    var d, su := c.(phase := RecordingUncertain), Journalled(st, c, Uncertain);
    Revokes(cfg, w, s, i, AfterReturn);
    if c.attempt.Some? {
      var e := c.(phase := MarkingUncertain(AfterReturn));
      Marks(cfg, w, Left(s, i, st, told, e), i, AfterReturn);
      AndThen(cfg, w, s, i, st, told, e, su, [], d);
      assert told + [] == told;
    }
    var last := [ExecutionUncertain(AttemptIdOf(c))];
    TellsDoubt(cfg, w, Left(s, i, su, told, d), i);
    AndThen(cfg, w, s, i, su, told, d, su, last, d.(phase := Raised));
  }

  // ---------------------------------------------------------------- an invocation that returned

  /** The stores with the result under the call's key. */
  function WithResult(stores: Stores, c: Call, r: ExecutionResult): Stores {
    stores.(entries := stores.entries[c.Key() := Entry(c.action.digest, Some(r))])
  }

  predicate Holds(stores: Stores, c: Call) {
    c.Key() in stores.entries && stores.entries[c.Key()] == Entry(c.action.digest, None)
  }

  /** The result is stored and handed on. */
  lemma Completes(cfg: Config, w: World, s: State, i: nat, r: ExecutionResult)
    requires i < |s.calls| && s.calls[i].phase == Completing && s.calls[i].result == Some(r) && !s.calls[i].reused
    requires Holds(StoresOf(s), s.calls[i])
    ensures var c := s.calls[i];
            Leads(cfg, w, i, s, Left(s, i, WithResult(StoresOf(s), c, r),
                                     [ExecutionCompleted(r)] + DeliveryTold(w, c.action, false),
                                     c.(phase := if Delivered(w, c.action) then Returned else Raised)))
  {
    hide Leads, Left, DeliveryTold, Delivered;
    var c, st := s.calls[i], WithResult(StoresOf(s), s.calls[i], r);
    var d, e := c.(phase := RecordingCompletion), c.(phase := Observing);
    Takes(cfg, w, s, i, Move(SetResult(c.Key(), r), d), st, []);
    var told := [ExecutionCompleted(r)];
    Takes(cfg, w, Left(s, i, st, [], d), i, Log(i, d, told[0], Observing), st, told);
    AndThen(cfg, w, s, i, st, [], d, st, told, e);
    assert [] + told == told;
    Observes(cfg, w, Left(s, i, st, told, e), i);
    AndThen(cfg, w, s, i, st, told, e, st, DeliveryTold(w, c.action, false),
            c.(phase := if Delivered(w, c.action) then Returned else Raised));
  }

  /** The executor returned `r`, and the lease, if any, is revoked on record. */
  lemma ReturnEnds(cfg: Config, w: World, s: State, i: nat, r: ExecutionResult)
    requires i < |s.calls| && s.calls[i].result == Some(r) && !s.calls[i].reused
    requires s.calls[i].lease.Some? ==> RevocationOk(w)
    requires s.calls[i].phase == if s.calls[i].lease.Some? then Revoking(AfterReturn) else PhaseAfterReturn(cfg)
    requires cfg.attempts <==> s.calls[i].attempt.Some?
    requires s.calls[i].attempt.Some? ==> Recorded(s, s.calls[i])
    requires Holds(StoresOf(s), s.calls[i])
    ensures var c := s.calls[i];
            Leads(cfg, w, i, s,
                  Left(s, i, WithResult(Journalled(StoresOf(s), c, Outcome(r)), c, r),
                       RevocationTold(w, c.lease) + ([ExecutionCompleted(r)] + DeliveryTold(w, c.action, false)),
                       c.(phase := if Delivered(w, c.action) then Returned else Raised)))
  {
    hide Leads, Left, RevocationOk, DeliveryTold, Delivered;
    var c, st := s.calls[i], StoresOf(s);
    var d := c.(phase := PhaseAfterReturn(cfg));
    var told := RevocationTold(w, c.lease);
    if c.lease.Some? {
      hide RevocationTold;
      Revokes(cfg, w, s, i, AfterReturn);
      Finishes(cfg, w, Left(s, i, st, told, d), i, r);
      AndThen(cfg, w, s, i, st, told, d, WithResult(Journalled(st, c, Outcome(r)), c, r),
              [ExecutionCompleted(r)] + DeliveryTold(w, c.action, false),
              c.(phase := if Delivered(w, c.action) then Returned else Raised));
    } else {
      Finishes(cfg, w, s, i, r);
      var rest := [ExecutionCompleted(r)] + DeliveryTold(w, c.action, false);
      assert [] + rest == rest;
    }
  }

  lemma Finishes(cfg: Config, w: World, s: State, i: nat, r: ExecutionResult)
    requires i < |s.calls| && s.calls[i].result == Some(r) && !s.calls[i].reused
    requires s.calls[i].phase == PhaseAfterReturn(cfg)
    requires cfg.attempts <==> s.calls[i].attempt.Some?
    requires s.calls[i].attempt.Some? ==> Recorded(s, s.calls[i])
    requires Holds(StoresOf(s), s.calls[i])
    ensures var c := s.calls[i];
            Leads(cfg, w, i, s,
                  Left(s, i, WithResult(Journalled(StoresOf(s), c, Outcome(r)), c, r),
                       [ExecutionCompleted(r)] + DeliveryTold(w, c.action, false),
                       c.(phase := if Delivered(w, c.action) then Returned else Raised)))
  {
    hide Leads, Left, DeliveryTold, Delivered;
    var c, st := s.calls[i], Journalled(StoresOf(s), s.calls[i], Outcome(r));
    if c.attempt.None? {
      Completes(cfg, w, s, i, r);
    } else {
      var d := c.(phase := Completing);
      Takes(cfg, w, s, i, Move(PutAttempt(c.attempt.value.(state := Outcome(r))), d), st, []);
      Completes(cfg, w, Left(s, i, st, [], d), i, r);
      var rest := [ExecutionCompleted(r)] + DeliveryTold(w, c.action, false);
      AndThen(cfg, w, s, i, st, [], d, WithResult(st, c, r), rest,
              c.(phase := if Delivered(w, c.action) then Returned else Raised));
      assert [] + rest == rest;
    }
  }

  // ---------------------------------------------------------------- from the start of the execution to its end

  /** How an execution ends: the executor raised or the lease was not revoked on record; or what it returned is
      no result of this action by this executor; or all is well. */
  datatype Ending = Doubtful | Invalid | Finished

  function EndingOf(cfg: Config, w: World, a: Action): Ending {
    if w.executed.None? then Doubtful
    else if !Executes(cfg, a, AnswerAt(w, Invoking), w.executed.value) then Invalid
    else if cfg.leases && !RevocationOk(w) then Doubtful
    else Finished
  }

  /** What the ledger is told after the start. */
  function EndingTold(cfg: Config, w: World, a: Action, lease: Option<nat>, attempt: Option<nat>): seq<Body> {
    match EndingOf(cfg, w, a)
    case Doubtful => RevocationTold(w, lease) + [ExecutionUncertain(attempt)]
    case Invalid => []
    case Finished =>
      if w.executed.None? then []
      else RevocationTold(w, lease) + ([ExecutionCompleted(w.executed.value)] + DeliveryTold(w, a, false))
  }

  function EndingState(cfg: Config, w: World, a: Action): AttemptState {
    match EndingOf(cfg, w, a)
    case Doubtful => Uncertain
    case Invalid => Started
    case Finished => if w.executed.Some? && w.executed.value.succeeded then Succeeded else Failed
  }

  function EndingResult(cfg: Config, w: World, a: Action): Option<ExecutionResult> {
    if EndingOf(cfg, w, a).Finished? then w.executed else None
  }

  function EndingPhase(cfg: Config, w: World, a: Action): Phase {
    if EndingOf(cfg, w, a).Finished? && Delivered(w, a) then Returned else Raised
  }

  predicate Ready(cfg: Config, w: World, s: State, c: Call) {
    && Equipped(cfg, c) && !c.reused && c.result.None? && Holds(StoresOf(s), c)
    && (cfg.attempts <==> c.attempt.Some?)
    && (c.attempt.Some? ==> Recorded(s, c) && c.attempt.value.attemptId == w.attemptId)
  }

  /** What the stores hold in the end. */
  function EndingStores(cfg: Config, w: World, i: nat, st: Stores, c: Call): Stores {
    var done := Journalled(st, c, EndingState(cfg, w, c.action)).(
                effects := st.effects + [Effect(i, c.Key(), ModeOf(cfg, c), w.executed)]);
    if EndingOf(cfg, w, c.action).Finished? && w.executed.Some? then WithResult(done, c, w.executed.value) else done
  }

  /** The turn at the executor. */
  lemma Invokes(cfg: Config, w: World, s: State, i: nat)
    requires i < |s.calls| && s.calls[i].phase == Invoking && Ready(cfg, w, s, s.calls[i])
    ensures var c := s.calls[i];
            Leads(cfg, w, i, s, Left(s, i, Invoked(cfg, w, i, StoresOf(s), c), [], AfterInvoking(cfg, w, c)))
  {
    hide Leads, Left;
    var c := s.calls[i];
    Takes(cfg, w, s, i, InvokeExecutor(cfg, AnswerAt(w, Invoking), i, c), Invoked(cfg, w, i, StoresOf(s), c), []);
  }

  function Invoked(cfg: Config, w: World, i: nat, st: Stores, c: Call): Stores {
    st.(effects := st.effects + [Effect(i, c.Key(), ModeOf(cfg, c), w.executed)])
  }

  function AfterInvoking(cfg: Config, w: World, c: Call): Call {
    if w.executed.None? then
      c.(phase := if c.attempt.Some? then MarkingUncertain(AfterRaise) else PhaseAfterDoubt(c))
    else if !Executes(cfg, c.action, AnswerAt(w, Invoking), w.executed.value) then c.(phase := Raised)
    else c.(result := w.executed, phase := if c.lease.Some? then Revoking(AfterReturn) else PhaseAfterReturn(cfg))
  }

  lemma InvokedEnds(cfg: Config, w: World, s: State, i: nat) returns (d: Call)
    requires i < |s.calls| && s.calls[i].phase == Invoking && Ready(cfg, w, s, s.calls[i])
    ensures var c := s.calls[i];
            && d == AfterInvoking(cfg, w, c).(phase := EndingPhase(cfg, w, c.action))
            && Leads(cfg, w, i, s, Left(s, i, EndingStores(cfg, w, i, StoresOf(s), c),
                                        EndingTold(cfg, w, c.action, c.lease, AttemptIdOf(c)), d))
  {
    hide Leads, Left, RevocationTold, RevocationOk, DeliveryTold, Delivered, Executes, ModeOf, Equipped;
    var c, a := s.calls[i], s.calls[i].action;
    var st, b := Invoked(cfg, w, i, StoresOf(s), c), AfterInvoking(cfg, w, c);
    d := b.(phase := EndingPhase(cfg, w, a));
    Invokes(cfg, w, s, i);
    var t := Left(s, i, st, [], b);
    if EndingOf(cfg, w, a).Invalid? {
      assert Journalled(st, c, Started) == st;
      return;
    }
    InvokedOnward(cfg, w, s, t, i, d);
    var told := EndingTold(cfg, w, a, c.lease, AttemptIdOf(c));
    AndThen(cfg, w, s, i, st, [], b, EndingStores(cfg, w, i, StoresOf(s), c), told, d);
    assert [] + told == told;
  }

  /** From the turn at the executor to the end. */
  lemma InvokedOnward(cfg: Config, w: World, s: State, t: State, i: nat, d: Call)
    requires i < |s.calls| && Ready(cfg, w, s, s.calls[i]) && !EndingOf(cfg, w, s.calls[i].action).Invalid?
    requires t == Left(s, i, Invoked(cfg, w, i, StoresOf(s), s.calls[i]), [], AfterInvoking(cfg, w, s.calls[i]))
    requires d == AfterInvoking(cfg, w, s.calls[i]).(phase := EndingPhase(cfg, w, s.calls[i].action))
    ensures var c := s.calls[i];
            Leads(cfg, w, i, t, Left(t, i, EndingStores(cfg, w, i, StoresOf(s), c),
                                     EndingTold(cfg, w, c.action, c.lease, AttemptIdOf(c)), d))
  {
    hide Leads, Left, RevocationTold, DeliveryTold, Delivered, Executes, ModeOf;
    var c := s.calls[i];
    if w.executed.None? {
      RaiseEnds(cfg, w, t, i);
    } else if EndingOf(cfg, w, c.action).Doubtful? {
      RevocationEnds(cfg, w, t, i);
    } else {
      ReturnEnds(cfg, w, t, i, w.executed.value);
    }
  }

  // ---------------------------------------------------------------- from the claim to the execution

  /** The call with its attempt, if there is a journal, started. */
  function WithStarted(cfg: Config, w: World, c: Call): Call
    requires c.action.executor in cfg.executors
  {
    if cfg.attempts then c.(attempt := Some(Record(cfg, c.action, AnswerAt(w, Invoking), Started)), phase := Invoking)
    else c.(phase := Invoking)
  }

  predicate FreshAttempt(w: World, s: State) {
    forall id | id in s.attempts :: id.attemptId != w.attemptId
  }

  lemma StartsAttempt(cfg: Config, w: World, s: State, i: nat)
    requires i < |s.calls| && s.calls[i].phase == StartingAttempt && s.calls[i].attempt.Some?
    requires var a := s.calls[i].attempt.value;
             a.state == Claimed && a.Id() in s.attempts && s.attempts[a.Id()] == a
    ensures var c := s.calls[i];
            var d := c.(attempt := Some(c.attempt.value.(state := Started)), phase := RecordingStart);
            Leads(cfg, w, i, s, Left(s, i, Journalled(StoresOf(s), d, Started), [], d))
  {
    hide Leads, Left;
    var c := s.calls[i];
    var d := c.(attempt := Some(c.attempt.value.(state := Started)), phase := RecordingStart);
    Takes(cfg, w, s, i, Move(PutAttempt(d.attempt.value), d), Journalled(StoresOf(s), d, Started), []);
  }

  const NOTHING: seq<Body> := []

  lemma Creates(cfg: Config, w: World, s: State, i: nat)
    requires i < |s.calls| && s.calls[i].phase == CreatingAttempt && Equipped(cfg, s.calls[i])
    requires cfg.attempts && FreshAttempt(w, s)
    ensures var c := s.calls[i]; var d := WithStarted(cfg, w, c).(phase := RecordingStart);
            Leads(cfg, w, i, s, Left(s, i, Journalled(StoresOf(s), d, Started), [], d))
  {
    hide Leads, Left;
    var c, ans := s.calls[i], AnswerAt(w, Invoking);
    var claimed, started := Record(cfg, c.action, ans, Claimed), Record(cfg, c.action, ans, Started);
    var b := c.(attempt := Some(claimed), phase := StartingAttempt);
    var d := c.(attempt := Some(started), phase := RecordingStart);
    var st := Journalled(StoresOf(s), b, Claimed);
    Takes(cfg, w, s, i, Move(PutAttempt(claimed), b), st, []);
    var su := Journalled(st, d, Started);
    StartsAttempt(cfg, w, Left(s, i, st, [], b), i);
    AndThen(cfg, w, s, i, st, [], b, su, [], d);
    assert su == Journalled(StoresOf(s), d, Started);
    assert NOTHING + NOTHING == NOTHING;
  }

  lemma StartsUp(cfg: Config, w: World, s: State, i: nat)
    requires i < |s.calls| && s.calls[i].phase == PhaseAfterClaim(cfg) && Equipped(cfg, s.calls[i])
    requires s.calls[i].attempt.None? && FreshAttempt(w, s)
    ensures var c := s.calls[i]; var d := WithStarted(cfg, w, c);
            Leads(cfg, w, i, s, Left(s, i, Journalled(StoresOf(s), d, Started),
                                     [ExecutionStarted(AttemptIdOf(d), c.lease)], d))
  {
    hide Leads, Left;
    var c := s.calls[i];
    var d := WithStarted(cfg, w, c);
    var b, su := d.(phase := RecordingStart), Journalled(StoresOf(s), d, Started);
    var told := [ExecutionStarted(AttemptIdOf(d), c.lease)];
    if cfg.attempts {
      Creates(cfg, w, s, i);
      Takes(cfg, w, Left(s, i, su, [], b), i, Log(i, b, told[0], Invoking), su, told);
      AndThen(cfg, w, s, i, su, [], b, su, told, d);
      assert [] + told == told;
    } else {
      Takes(cfg, w, s, i, Log(i, c, told[0], Invoking), su, told);
    }
  }

  // ---------------------------------------------------------------- up to the claim

  predicate Admitted(w: World, c: Call) {
    c.actorTenant == c.action.tenantId && (c.action.expiresAt.Some? ==> w.clock < c.action.expiresAt.value)
  }

  predicate Bound(w: World, a: Action) { w.policy.actionDigest == a.digest }

  /** Policy lets the action through, with an approval that approves where it asks for one. */
  predicate Cleared(w: World, c: Call) {
    && Admitted(w, c) && Bound(w, c.action) && w.policy.outcome != Deny
    && (w.policy.outcome == RequireApproval ==> w.approval.Some? && w.approval.value.approved)
  }

  function ClearanceTold(w: World, c: Call): seq<Body> {
    if !Admitted(w, c) then []
    else if !Bound(w, c.action) then [ActionProposed]
    else [ActionProposed, PolicyEvaluated(w.policy)] + ApprovalTold(w)
  }

  function ApprovalTold(w: World): seq<Body> {
    if w.policy.outcome != RequireApproval then []
    else if w.approval.None? then [ApprovalRequested]
    else [ApprovalDecided(w.approval.value)]
  }

  lemma Proposes(cfg: Config, w: World, s: State, i: nat)
    requires i < |s.calls| && s.calls[i].phase == Proposing && Admitted(w, s.calls[i]) && Bound(w, s.calls[i].action)
    ensures var c := s.calls[i];
            Leads(cfg, w, i, s, Left(s, i, StoresOf(s), [ActionProposed],
                                     c.(policy := Some(w.policy), phase := RecordingPolicy)))
  {
    hide Leads, Left;
    var c, st := s.calls[i], StoresOf(s);
    var d, e := c.(phase := Evaluating), c.(policy := Some(w.policy), phase := RecordingPolicy);
    Takes(cfg, w, s, i, Log(i, c, ActionProposed, Evaluating), st, [ActionProposed]);
    Takes(cfg, w, Left(s, i, st, [ActionProposed], d), i, Move(Nothing, e), st, []);
    AndThen(cfg, w, s, i, st, [ActionProposed], d, st, [], e);
    assert [ActionProposed] + [] == [ActionProposed];
  }

  function PhaseAfterApproval(w: World): Phase {
    if w.approval.Some? && w.approval.value.approved then Selecting else Raised
  }

  lemma Approves(cfg: Config, w: World, s: State, i: nat)
    requires i < |s.calls| && s.calls[i].phase == SeekingApproval && w.policy.outcome == RequireApproval
    ensures var c := s.calls[i];
            Leads(cfg, w, i, s, Left(s, i, StoresOf(s), ApprovalTold(w),
                                     c.(approval := w.approval, phase := PhaseAfterApproval(w))))
  {
    hide Leads, Left;
    var c, st := s.calls[i], StoresOf(s);
    var d := c.(approval := w.approval, phase := if w.approval.Some? then RecordingApproval else RequestingApproval);
    var told := ApprovalTold(w);
    Takes(cfg, w, s, i, Move(Nothing, d), st, []);
    Takes(cfg, w, Left(s, i, st, [], d), i, Log(i, d, told[0], PhaseAfterApproval(w)), st, told);
    AndThen(cfg, w, s, i, st, [], d, st, told, d.(phase := PhaseAfterApproval(w)));
    assert [] + told == told;
  }

  /** The call up to the choice of its executor, or to its refusal. */
  lemma Clears(cfg: Config, w: World, s: State, i: nat) returns (d: Call)
    requires i < |s.calls| && s.calls[i].phase == Proposing
    ensures var c := s.calls[i];
            && d == c.(policy := d.policy, approval := d.approval, phase := if Cleared(w, c) then Selecting else Raised)
            && Leads(cfg, w, i, s, Left(s, i, StoresOf(s), ClearanceTold(w, c), d))
  {
    hide Leads, Left;
    var c, st := s.calls[i], StoresOf(s);
    if !Admitted(w, c) {
      d := c.(phase := Raised);
      Takes(cfg, w, s, i, Raise(c), st, []);
    } else if !Bound(w, c.action) {
      d := Unbinds(cfg, w, s, i);
    } else {
      hide ApprovalTold;
      Proposes(cfg, w, s, i);
      var e := c.(policy := Some(w.policy), phase := RecordingPolicy);
      d := Rules(cfg, w, Left(s, i, st, [ActionProposed], e), i);
      AndThen(cfg, w, s, i, st, [ActionProposed], e, st, [PolicyEvaluated(w.policy)] + ApprovalTold(w), d);
      assert [ActionProposed] + ([PolicyEvaluated(w.policy)] + ApprovalTold(w)) == ClearanceTold(w, c);
    }
  }

  lemma Unbinds(cfg: Config, w: World, s: State, i: nat) returns (d: Call)
    requires i < |s.calls| && s.calls[i].phase == Proposing && Admitted(w, s.calls[i]) && !Bound(w, s.calls[i].action)
    ensures d == s.calls[i].(phase := Raised)
    ensures Leads(cfg, w, i, s, Left(s, i, StoresOf(s), [ActionProposed], d))
  {
    hide Leads, Left;
    var c, st := s.calls[i], StoresOf(s);
    var b := c.(phase := Evaluating);
    d := c.(phase := Raised);
    Takes(cfg, w, s, i, Log(i, c, ActionProposed, Evaluating), st, [ActionProposed]);
    Takes(cfg, w, Left(s, i, st, [ActionProposed], b), i, Raise(b), st, []);
    AndThen(cfg, w, s, i, st, [ActionProposed], b, st, [], d);
    assert [ActionProposed] + [] == [ActionProposed];
  }

  lemma Rules(cfg: Config, w: World, s: State, i: nat) returns (d: Call)
    requires i < |s.calls| && s.calls[i].phase == RecordingPolicy && s.calls[i].policy == Some(w.policy)
    ensures var c := s.calls[i];
            var ok := w.policy.outcome != Deny
                      && (w.policy.outcome == RequireApproval ==> w.approval.Some? && w.approval.value.approved);
            && d == c.(approval := d.approval, phase := if ok then Selecting else Raised)
            && Leads(cfg, w, i, s, Left(s, i, StoresOf(s), [PolicyEvaluated(w.policy)] + ApprovalTold(w), d))
  {
    hide Leads, Left;
    var c, st, told := s.calls[i], StoresOf(s), [PolicyEvaluated(w.policy)];
    if w.policy.outcome == RequireApproval {
      var b := c.(phase := SeekingApproval);
      d := c.(approval := w.approval, phase := PhaseAfterApproval(w));
      Takes(cfg, w, s, i, Log(i, c, told[0], SeekingApproval), st, told);
      Approves(cfg, w, Left(s, i, st, told, b), i);
      AndThen(cfg, w, s, i, st, told, b, st, ApprovalTold(w), d);
    } else {
      d := c.(phase := if w.policy.outcome == Deny then Raised else Selecting);
      Takes(cfg, w, s, i, Log(i, c, told[0], d.phase), st, told);
      assert told + ApprovalTold(w) == told;
    }
  }

  /** The executor is registered and takes attempts and leases where the broker works with them. */
  predicate Served(cfg: Config, a: Action) {
    && a.executor in cfg.executors
    && (cfg.attempts || cfg.leases ==> cfg.executors[a.executor].attemptAware)
    && (cfg.leases ==> cfg.executors[a.executor].leaseAware)
  }

  function LeaseOf(cfg: Config, w: World): Option<nat> { if cfg.leases then Some(w.leaseId) else None }

  function LeaseTold(cfg: Config, w: World): seq<Body> {
    if cfg.leases then [LeaseIssued(Some(w.leaseId))] else []
  }

  /** The call at its claim. */
  function AtClaim(cfg: Config, w: World, c: Call): Call
    requires c.action.executor in cfg.executors
  {
    c.(executor := Some(cfg.executors[c.action.executor]), lease := LeaseOf(cfg, w), phase := Claiming)
  }

  lemma Selects(cfg: Config, w: World, s: State, i: nat)
    requires i < |s.calls| && s.calls[i].phase == Selecting && Served(cfg, s.calls[i].action) && s.calls[i].lease.None?
    ensures Leads(cfg, w, i, s, Left(s, i, StoresOf(s), LeaseTold(cfg, w), AtClaim(cfg, w, s.calls[i])))
  {
    hide Leads, Left;
    var c, st, told := s.calls[i], StoresOf(s), LeaseTold(cfg, w);
    var d := AtClaim(cfg, w, c);
    if cfg.leases {
      var b := d.(phase := RecordingLease);
      Takes(cfg, w, s, i, Move(Nothing, b), st, []);
      Takes(cfg, w, Left(s, i, st, [], b), i, Log(i, b, told[0], Claiming), st, told);
      AndThen(cfg, w, s, i, st, [], b, st, told, d);
      assert [] + told == told;
    } else {
      Takes(cfg, w, s, i, Move(Nothing, d), st, []);
    }
  }

  lemma Unserves(cfg: Config, w: World, s: State, i: nat)
    requires i < |s.calls| && s.calls[i].phase == Selecting && !Served(cfg, s.calls[i].action)
    ensures Leads(cfg, w, i, s, Left(s, i, StoresOf(s), [], s.calls[i].(phase := Raised)))
  {
    hide Leads, Left;
    Takes(cfg, w, s, i, Raise(s.calls[i]), StoresOf(s), []);
  }

  // ---------------------------------------------------------------- how calls end

  /** Call `i` alone leads from `s` to `t`, where it is over with `phase` after telling the ledger `told`. */
  ghost predicate Ended(cfg: Config, w: World, s: State, t: State, i: nat, told: seq<Body>, phase: Phase) {
    && i < |s.calls| && Leads(cfg, w, i, s, t) && OnlyCall(s, t, i)
    && t.events == s.events + Said(i, s.calls[i].action, told) && t.calls[i].phase == phase
  }

  predicate IsNew(s: State, i: nat) {
    i < |s.calls| && s.calls[i] == NewCall(Request(s.calls[i].action, s.calls[i].actorTenant))
  }

  lemma EndedBy(cfg: Config, w: World, s: State, t: State, i: nat, stores: Stores, told: seq<Body>, d: Call)
    requires i < |s.calls| && d.action == s.calls[i].action && t == Left(s, i, stores, told, d)
    requires Leads(cfg, w, i, s, t)
    ensures Ended(cfg, w, s, t, i, told, d.phase) && StoresOf(t) == stores && t.calls[i] == d
  {
    hide Leads;
  }

  /** A call that policy or approval does not clear raises; it has told the ledger how far it came, and no more. */
  lemma UnclearedCallEnds(cfg: Config, w: World, s: State, i: nat) returns (t: State)
    requires IsNew(s, i) && !Cleared(w, s.calls[i])
    ensures Ended(cfg, w, s, t, i, ClearanceTold(w, s.calls[i]), Raised) && StoresOf(t) == StoresOf(s)
  {
    hide Leads, Left, Cleared, ClearanceTold;
    var d := Clears(cfg, w, s, i);
    t := Left(s, i, StoresOf(s), ClearanceTold(w, s.calls[i]), d);
    EndedBy(cfg, w, s, t, i, StoresOf(s), ClearanceTold(w, s.calls[i]), d);
  }

  /** A cleared call that no executor can serve raises without asking for a lease. */
  lemma UnservedCallEnds(cfg: Config, w: World, s: State, i: nat) returns (t: State)
    requires IsNew(s, i) && Cleared(w, s.calls[i]) && !Served(cfg, s.calls[i].action)
    ensures Ended(cfg, w, s, t, i, ClearanceTold(w, s.calls[i]), Raised) && StoresOf(t) == StoresOf(s)
  {
    hide Leads, Left, Cleared, ClearanceTold, Served;
    var st, told := StoresOf(s), ClearanceTold(w, s.calls[i]);
    var c := Clears(cfg, w, s, i);
    var d := c.(phase := Raised);
    Unserves(cfg, w, Left(s, i, st, told, c), i);
    AndThen(cfg, w, s, i, st, told, c, st, [], d);
    assert told + [] == told;
    t := Left(s, i, st, told, d);
    EndedBy(cfg, w, s, t, i, st, told, d);
  }

  /** What a cleared, served call has told when it claims its key. */
  function ClaimTold(cfg: Config, w: World, c: Call): seq<Body> { ClearanceTold(w, c) + LeaseTold(cfg, w) }

  lemma Claims(cfg: Config, w: World, s: State, i: nat) returns (d: Call)
    requires IsNew(s, i) && Cleared(w, s.calls[i]) && Served(cfg, s.calls[i].action)
    ensures Leads(cfg, w, i, s, Left(s, i, StoresOf(s), ClaimTold(cfg, w, s.calls[i]), d))
    ensures var c := s.calls[i];
            d == c.(policy := d.policy, approval := d.approval, executor := Some(cfg.executors[c.action.executor]),
                    lease := LeaseOf(cfg, w), phase := Claiming)
  {
    hide Leads, Left, Cleared, ClearanceTold, LeaseTold;
    var st, told := StoresOf(s), ClearanceTold(w, s.calls[i]);
    var c := Clears(cfg, w, s, i);
    d := AtClaim(cfg, w, c);
    Selects(cfg, w, Left(s, i, st, told, c), i);
    AndThen(cfg, w, s, i, st, told, c, st, LeaseTold(cfg, w), d);
  }

  /** A key that belongs to another action: the call raises, and its lease stays out. */
  lemma ForeignKeyEnds(cfg: Config, w: World, s: State, i: nat) returns (t: State)
    requires IsNew(s, i) && Cleared(w, s.calls[i]) && Served(cfg, s.calls[i].action)
    requires var a := s.calls[i].action; a.Key() in s.entries && s.entries[a.Key()].actionDigest != a.digest
    ensures Ended(cfg, w, s, t, i, ClaimTold(cfg, w, s.calls[i]), Raised) && StoresOf(t) == StoresOf(s)
  {
    hide Leads, Left, Cleared, ClaimTold, Served;
    var st, told := StoresOf(s), ClaimTold(cfg, w, s.calls[i]);
    var c := Claims(cfg, w, s, i);
    var d := c.(phase := Raised);
    Takes(cfg, w, Left(s, i, st, told, c), i, Raise(c), st, []);
    AndThen(cfg, w, s, i, st, told, c, st, [], d);
    assert told + [] == told;
    t := Left(s, i, st, told, d);
    EndedBy(cfg, w, s, t, i, st, told, d);
  }

  // ---------------------------------------------------------------- a key that is taken

  /** The result stored for the action is one by this executor. */
  predicate Reusable(cfg: Config, s: State, a: Action) {
    && a.Key() in s.entries && s.entries[a.Key()].result.Some? && a.executor in cfg.executors
    && var r := s.entries[a.Key()].result.value;
       r.actionId == a.actionId && r.executorName == cfg.executors[a.executor].name
  }

  predicate Reuses(cfg: Config, w: World, s: State, a: Action) {
    (cfg.leases ==> RevocationOk(w)) && Reusable(cfg, s, a)
  }

  function ReuseTold(cfg: Config, w: World, s: State, a: Action): seq<Body> {
    RevocationTold(w, LeaseOf(cfg, w)) + if Reuses(cfg, w, s, a) then DeliveryTold(w, a, true) else []
  }

  lemma Fetches(cfg: Config, w: World, s: State, i: nat) returns (d: Call)
    requires i < |s.calls| && s.calls[i].phase == Fetching && Equipped(cfg, s.calls[i]) && s.calls[i].result.None?
    ensures var c := s.calls[i];
            && d.action == c.action
            && d.phase == (if Reusable(cfg, s, c.action) && Delivered(w, c.action) then Returned else Raised)
            && (Reusable(cfg, s, c.action) ==> d.result == s.entries[c.Key()].result && d.reused)
            && Leads(cfg, w, i, s, Left(s, i, StoresOf(s),
                                        if Reusable(cfg, s, c.action) then DeliveryTold(w, c.action, true) else [], d))
  {
    hide Leads, Left, Delivered, DeliveryTold;
    var c, st := s.calls[i], StoresOf(s);
    if Reusable(cfg, s, c.action) {
      var b := c.(result := s.entries[c.Key()].result, reused := true, phase := Observing);
      d := b.(phase := if Delivered(w, c.action) then Returned else Raised);
      Takes(cfg, w, s, i, Move(Nothing, b), st, []);
      Observes(cfg, w, Left(s, i, st, [], b), i);
      AndThen(cfg, w, s, i, st, [], b, st, DeliveryTold(w, c.action, true), d);
      assert [] + DeliveryTold(w, c.action, true) == DeliveryTold(w, c.action, true);
    } else {
      d := c.(phase := Raised);
      Takes(cfg, w, s, i, Raise(c), st, []);
    }
  }

  lemma RefusedEnds(cfg: Config, w: World, s: State, i: nat) returns (d: Call)
    requires i < |s.calls| && Equipped(cfg, s.calls[i]) && s.calls[i].result.None?
    requires s.calls[i].phase == if s.calls[i].lease.Some? then Revoking(Unclaimed) else Fetching
    requires s.calls[i].lease == LeaseOf(cfg, w)
    ensures var c := s.calls[i];
            && d.action == c.action
            && d.phase == (if Reuses(cfg, w, s, c.action) && Delivered(w, c.action) then Returned else Raised)
            && (Reuses(cfg, w, s, c.action) ==> d.result == s.entries[c.Key()].result && d.reused)
            && Leads(cfg, w, i, s, Left(s, i, StoresOf(s), ReuseTold(cfg, w, s, c.action), d))
  {
    hide Leads, Left, Delivered, DeliveryTold, RevocationOk, Reusable;
    var c, st := s.calls[i], StoresOf(s);
    if c.lease.None? {
      d := Fetches(cfg, w, s, i);
      assert [] + DeliveryTold(w, c.action, true) == DeliveryTold(w, c.action, true);
      assert NOTHING + NOTHING == NOTHING;
    } else {
      hide RevocationTold;
      Revokes(cfg, w, s, i, Unclaimed);
      var told := RevocationTold(w, c.lease);
      var e := c.(phase := if RevocationOk(w) then Fetching else Raised);
      if RevocationOk(w) {
        var t := Left(s, i, st, told, e);
        d := Fetches(cfg, w, t, i);
        SameEntries(cfg, s, t, c.action);
        AndThen(cfg, w, s, i, st, told, e, st,
                if Reusable(cfg, s, c.action) then DeliveryTold(w, c.action, true) else [], d);
      } else {
        d := e;
        assert told + [] == told;
      }
    }
  }

  lemma SameEntries(cfg: Config, s: State, t: State, a: Action)
    requires t.entries == s.entries
    ensures Reusable(cfg, t, a) <==> Reusable(cfg, s, a)
  {
  }

  /** A key that is taken for this action: no store changes and nothing is invoked; the lease is revoked; and the
      call returns the stored result, if there is one that is this executor's, and raises otherwise. */
  lemma RepeatedCallEnds(cfg: Config, w: World, s: State, i: nat) returns (t: State)
    requires IsNew(s, i) && Cleared(w, s.calls[i]) && Served(cfg, s.calls[i].action)
    requires var a := s.calls[i].action; a.Key() in s.entries && s.entries[a.Key()].actionDigest == a.digest
    ensures var a := s.calls[i].action;
            && Ended(cfg, w, s, t, i, ClaimTold(cfg, w, s.calls[i]) + ReuseTold(cfg, w, s, a),
                     if Reuses(cfg, w, s, a) && Delivered(w, a) then Returned else Raised)
            && StoresOf(t) == StoresOf(s)
            && (Reuses(cfg, w, s, a) ==> t.calls[i].result == s.entries[a.Key()].result && t.calls[i].reused)
  {
    hide Leads, Left, Cleared, ClaimTold, ReuseTold, Reuses, Delivered;
    var st, told, a := StoresOf(s), ClaimTold(cfg, w, s.calls[i]), s.calls[i].action;
    var c := Claims(cfg, w, s, i);
    var u := Left(s, i, st, told, c);
    var b := c.(phase := if c.lease.Some? then Revoking(Unclaimed) else Fetching);
    Takes(cfg, w, u, i, Move(Nothing, b), st, []);
    AndThen(cfg, w, s, i, st, told, c, st, [], b);
    assert told + [] == told;
    var v := Left(s, i, st, told, b);
    var d := RefusedEnds(cfg, w, v, i);
    assert Reuses(cfg, w, v, a) == Reuses(cfg, w, s, a) && ReuseTold(cfg, w, v, a) == ReuseTold(cfg, w, s, a) by {
      SameReuse(cfg, w, s, v, a);
    }
    AndThen(cfg, w, s, i, st, told, b, st, ReuseTold(cfg, w, s, a), d);
    t := Left(s, i, st, told + ReuseTold(cfg, w, s, a), d);
    EndedBy(cfg, w, s, t, i, st, told + ReuseTold(cfg, w, s, a), d);
  }

  lemma SameReuse(cfg: Config, w: World, s: State, t: State, a: Action)
    requires t.entries == s.entries
    ensures Reuses(cfg, w, t, a) == Reuses(cfg, w, s, a) && ReuseTold(cfg, w, t, a) == ReuseTold(cfg, w, s, a)
  {
    hide DeliveryTold, RevocationTold;
  }

  // ---------------------------------------------------------------- a key that is free

  function AttemptOf(cfg: Config, w: World): Option<nat> { if cfg.attempts then Some(w.attemptId) else None }

  /** With its attempt and its lease, where the broker works with them; without a journal, with neither. */
  function HowInvoked(cfg: Config, w: World): Mode {
    if !cfg.attempts then Plain
    else if cfg.leases then WithLease(w.attemptId, w.leaseId) else WithAttempt(w.attemptId)
  }

  function StartTold(cfg: Config, w: World, c: Call): seq<Body> {
    ClaimTold(cfg, w, c) + [ExecutionStarted(AttemptOf(cfg, w), LeaseOf(cfg, w))]
  }

  lemma TakesKey(cfg: Config, w: World, s: State, i: nat) returns (d: Call)
    requires IsNew(s, i) && Cleared(w, s.calls[i]) && Served(cfg, s.calls[i].action)
    requires s.calls[i].Key() !in s.entries
    ensures var c := s.calls[i]; var st := WithKey(StoresOf(s), c);
            && d == c.(policy := d.policy, approval := d.approval, executor := Some(cfg.executors[c.action.executor]),
                       lease := LeaseOf(cfg, w), claimed := true, phase := PhaseAfterClaim(cfg))
            && Leads(cfg, w, i, s, Left(s, i, st, ClaimTold(cfg, w, c), d))
  {
    hide Leads, Left, Cleared, ClaimTold;
    var told, a := ClaimTold(cfg, w, s.calls[i]), s.calls[i].action;
    var c := Claims(cfg, w, s, i);
    d := c.(claimed := true, phase := PhaseAfterClaim(cfg));
    var st := WithKey(StoresOf(s), c);
    Takes(cfg, w, Left(s, i, StoresOf(s), told, c), i, Move(TakeKey(a.Key(), a.digest), d), st, []);
    AndThen(cfg, w, s, i, StoresOf(s), told, c, st, [], d);
    assert told + [] == told;
  }

  function WithKey(st: Stores, c: Call): Stores {
    st.(entries := st.entries[c.Key() := Entry(c.action.digest, None)])
  }

  lemma Begins(cfg: Config, w: World, s: State, i: nat) returns (d: Call, st: Stores)
    requires IsNew(s, i) && Cleared(w, s.calls[i]) && Served(cfg, s.calls[i].action)
    requires s.calls[i].Key() !in s.entries && FreshAttempt(w, s)
    ensures Leads(cfg, w, i, s, Left(s, i, st, StartTold(cfg, w, s.calls[i]), d))
    ensures d.action == s.calls[i].action && d.phase == Invoking && d.lease == LeaseOf(cfg, w)
    ensures st == Journalled(WithKey(StoresOf(s), d), d, Started) && Equipped(cfg, d) && !d.reused && d.result.None?
    ensures d.attempt == if cfg.attempts then Some(Record(cfg, d.action, AnswerAt(w, Invoking), Started)) else None
  {
    hide Leads, Left, Cleared, ClaimTold;
    var told, a := ClaimTold(cfg, w, s.calls[i]), s.calls[i].action;
    var b := TakesKey(cfg, w, s, i);
    var su := WithKey(StoresOf(s), b);
    StartsUp(cfg, w, Left(s, i, su, told, b), i);
    d := WithStarted(cfg, w, b);
    st := Journalled(su, d, Started);
    AndThen(cfg, w, s, i, su, told, b, st, [ExecutionStarted(AttemptOf(cfg, w), LeaseOf(cfg, w))], d);
  }

  lemma IsReady(cfg: Config, w: World, s: State, t: State, d: Call)
    requires StoresOf(t) == Journalled(WithKey(StoresOf(s), d), d, Started) && Equipped(cfg, d) && !d.reused
    requires d.result.None? && d.lease == LeaseOf(cfg, w)
    requires d.attempt == if cfg.attempts then Some(Record(cfg, d.action, AnswerAt(w, Invoking), Started)) else None
    ensures Ready(cfg, w, t, d) && ModeOf(cfg, d) == HowInvoked(cfg, w) && AttemptIdOf(d) == AttemptOf(cfg, w)
  {
  }

  /** A cleared, served call for an unused key invokes the executor exactly once, with its attempt and lease. What
      the executor and the revocation do decides the ending, and the ending decides everything else. */
  lemma ExecutingCallEnds(cfg: Config, w: World, s: State, i: nat) returns (t: State)
    requires IsNew(s, i) && Cleared(w, s.calls[i]) && Served(cfg, s.calls[i].action)
    requires s.calls[i].Key() !in s.entries && FreshAttempt(w, s)
    ensures var a := s.calls[i].action;
            && Ended(cfg, w, s, t, i, StartTold(cfg, w, s.calls[i])
                                      + EndingTold(cfg, w, a, LeaseOf(cfg, w), AttemptOf(cfg, w)),
                     EndingPhase(cfg, w, a))
            && t.effects == s.effects + [Effect(i, a.Key(), HowInvoked(cfg, w), w.executed)]
            && t.entries == s.entries[a.Key() := Entry(a.digest, EndingResult(cfg, w, a))]
            && t.attempts == (if !cfg.attempts then s.attempts
                              else
                                var record := Record(cfg, a, AnswerAt(w, Invoking), EndingState(cfg, w, a));
                                s.attempts[record.Id() := record])
            && (t.calls[i].phase == Returned ==> t.calls[i].result == w.executed && !t.calls[i].reused)
  {
    hide Leads, Left, Cleared, StartTold, EndingTold, Ready, Equipped, HowInvoked, EndingStores, FreshAttempt;
    var a, told := s.calls[i].action, StartTold(cfg, w, s.calls[i]);
    var c, st := Begins(cfg, w, s, i);
    var u := Left(s, i, st, told, c);
    IsReady(cfg, w, s, u, c);
    var d := InvokedEnds(cfg, w, u, i);
    var rest := EndingTold(cfg, w, a, LeaseOf(cfg, w), AttemptOf(cfg, w));
    var su := EndingStores(cfg, w, i, st, c);
    AndThen(cfg, w, s, i, st, told, c, su, rest, d);
    t := Left(s, i, su, told + rest, d);
    EndedBy(cfg, w, s, t, i, su, told + rest, d);
    LastStores(cfg, w, i, StoresOf(s), c);
  }

  lemma LastStores(cfg: Config, w: World, i: nat, st: Stores, c: Call)
    requires c.action.executor in cfg.executors && ModeOf(cfg, c) == HowInvoked(cfg, w)
    requires c.attempt == if cfg.attempts then Some(Record(cfg, c.action, AnswerAt(w, Invoking), Started)) else None
    ensures var su, a := EndingStores(cfg, w, i, Journalled(WithKey(st, c), c, Started), c), c.action;
            && su.effects == st.effects + [Effect(i, a.Key(), HowInvoked(cfg, w), w.executed)]
            && su.entries == st.entries[a.Key() := Entry(a.digest, EndingResult(cfg, w, a))]
            && su.attempts == (if !cfg.attempts then st.attempts
                               else
                                 var record := Record(cfg, a, AnswerAt(w, Invoking), EndingState(cfg, w, a));
                                 st.attempts[record.Id() := record])
  {
    hide EndingOf;
  }

  /** The executor raised: one invocation, in doubt. The attempt is uncertain, the ledger says so last, after what
      became of the lease; the key is kept and has no result. */
  lemma RaisedExecutorLeavesDoubt(cfg: Config, w: World, s: State, i: nat) returns (t: State)
    requires IsNew(s, i) && Cleared(w, s.calls[i]) && Served(cfg, s.calls[i].action)
    requires s.calls[i].Key() !in s.entries && FreshAttempt(w, s) && w.executed.None?
    ensures InDoubt(cfg, w, s, t, i)
  {
    hide Leads, Cleared, StartTold, FreshAttempt, RevocationTold;
    t := ExecutingCallEnds(cfg, w, s, i);
  }

  /** The executor returned a result of this action, but the lease was not revoked, or not on record: in doubt too. */
  lemma UnrevokedLeaseLeavesDoubt(cfg: Config, w: World, s: State, i: nat, r: ExecutionResult) returns (t: State)
    requires IsNew(s, i) && Cleared(w, s.calls[i]) && Served(cfg, s.calls[i].action)
    requires s.calls[i].Key() !in s.entries && FreshAttempt(w, s)
    requires w.executed == Some(r) && Executes(cfg, s.calls[i].action, AnswerAt(w, Invoking), r)
    requires cfg.leases && (!w.revoked || w.told != Done)
    ensures InDoubt(cfg, w, s, t, i)
  {
    hide Leads, Cleared, Served, StartTold, FreshAttempt, RevocationTold;
    var a := s.calls[i].action;
    assert EndingOf(cfg, w, a).Doubtful?;
    t := ExecutingCallEnds(cfg, w, s, i);
    assert EndingTold(cfg, w, a, LeaseOf(cfg, w), AttemptOf(cfg, w)) == DoubtTold(cfg, w);
    assert EndingState(cfg, w, a) == Uncertain && EndingResult(cfg, w, a).None?;
  }

  /** From `s` to `t`, call `i` invoked its executor once and raised, all accounted for as uncertain. */
  ghost predicate InDoubt(cfg: Config, w: World, s: State, t: State, i: nat) {
    && IsNew(s, i) && s.calls[i].action.executor in cfg.executors
    && var a := s.calls[i].action;
    && Ended(cfg, w, s, t, i, StartTold(cfg, w, s.calls[i]) + DoubtTold(cfg, w), Raised)
    && t.effects == s.effects + [Effect(i, a.Key(), HowInvoked(cfg, w), w.executed)]
    && t.entries == s.entries[a.Key() := Entry(a.digest, None)]
    && t.attempts == if !cfg.attempts then s.attempts
                     else
                       var record := Record(cfg, a, AnswerAt(w, Invoking), Uncertain);
                       s.attempts[record.Id() := record]
  }

  function DoubtTold(cfg: Config, w: World): seq<Body> {
    RevocationTold(w, LeaseOf(cfg, w)) + [ExecutionUncertain(AttemptOf(cfg, w))]
  }

  /** An attempt is not always brought to an end: it stays started, with nothing told after the start and the lease
      still out, exactly when the executor returned something that is no result of this action by this executor. */
  lemma StaysStartedExactlyWhen(cfg: Config, w: World, s: State, i: nat) returns (t: State)
    requires IsNew(s, i) && Cleared(w, s.calls[i]) && Served(cfg, s.calls[i].action)
    requires s.calls[i].Key() !in s.entries && FreshAttempt(w, s) && cfg.attempts
    ensures var a := s.calls[i].action; var id := AttemptId(a.tenantId, w.attemptId);
            && Leads(cfg, w, i, s, t) && t.calls[i].phase in {Returned, Raised} && id in t.attempts
            && (t.attempts[id].state == Started <==>
                  w.executed.Some? && !Executes(cfg, a, AnswerAt(w, Invoking), w.executed.value))
            && (t.attempts[id].state == Started ==>
                  t.calls[i].phase == Raised && t.events == s.events + Said(i, a, StartTold(cfg, w, s.calls[i])))
  {
    hide Leads, Cleared, StartTold, FreshAttempt, RevocationTold, RevocationOk, Executes;
    t := ExecutingCallEnds(cfg, w, s, i);
    var told := StartTold(cfg, w, s.calls[i]);
    assert told + [] == told;
  }

  /** A result for another action. */
  lemma StaysStartedExample(cfg: Config, w: World, s: State, i: nat) returns (t: State)
    requires IsNew(s, i) && Cleared(w, s.calls[i]) && Served(cfg, s.calls[i].action)
    requires s.calls[i].Key() !in s.entries && FreshAttempt(w, s) && cfg.attempts
    requires w.executed.Some? && w.executed.value.actionId != s.calls[i].action.actionId
    ensures var a := s.calls[i].action; var id := AttemptId(a.tenantId, w.attemptId);
            && Leads(cfg, w, i, s, t) && t.calls[i].phase == Raised
            && id in t.attempts && t.attempts[id].state == Started
  {
    hide Leads, Cleared, StartTold, FreshAttempt, Served;
    t := StaysStartedExactlyWhen(cfg, w, s, i);
  }
}
