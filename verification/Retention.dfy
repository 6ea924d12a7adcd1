/** Two-phase retention in the PostgreSQL governance store. One transaction records deletion intents;
    later, one transaction per intent decides again and calls the external adapter. Every transaction
    holds the tenant's lock, so it is one atomic step; holds, releases, policy changes and other
    executions may come in between. The state is one tenant's rows. */
module Retention {
  import opened Common
  import opened RetentionRules

  /** What happened, in order: committed audit records, and the adapter calls, which no rollback undoes. */
  datatype Entry =
    | HoldPlaced(hold: Hold)
    | HoldReleased(holdId: nat)
    | PolicyApplied(policy: Policy)
    | Evaluated(evaluated: Candidate, disposition: Disposition)
    | Intended(intent: Pending, at: Time)
    | AdapterCalled(call: Pending, at: Time)
    | Executed(executionId: nat)
    | Cancelled(executionId: nat)

  /** A deletion intent: the candidate and the policy revision it was decided under. */
  datatype Pending = Pending(executionId: nat, candidate: Candidate, policyId: nat, revision: nat)

  /** One `execute_retention` call after its first transaction: `next` is the intent it takes up next. */
  datatype Worker = Worker(pending: seq<Pending>, next: nat)

  datatype State = State(tenantId: string, policies: seq<Policy>, holds: Holds, log: seq<Entry>, workers: seq<Worker>)

  /** How a deletion transaction ends: committed; committed without the caller learning it; or rolled
      back, in which case the adapter may already have deleted. */
  datatype Fate = Committed | CommittedUnseen | RolledBack(deleted: bool)

  datatype Op =
    | PlaceHold(hold: Hold)
    | ReleaseHold(holdId: nat, approved: bool)
    | ApplyPolicy(policy: Policy, approved: bool)
    | Begin(candidates: seq<Candidate>, ids: seq<nat>)
    | DeleteNext(worker: nat, fate: Fate)

  predicate UniqueCandidates(cs: seq<Candidate>) {
    forall i, j | 0 <= i < j < |cs| :: (cs[i].resourceType, cs[i].resourceId) != (cs[j].resourceType, cs[j].resourceId)
  }

  predicate OfTenant(cs: seq<Candidate>, tenantId: string) {
    forall i | 0 <= i < |cs| :: cs[i].tenantId == tenantId
  }

  predicate Deletes(p: Policy, holds: Holds, c: Candidate, now: Time) {
    var decision := DecisionFor(p, holds, c, now);
    decision.Some? && decision.value.disposition == Delete
  }

  /** The audit records of the intent transaction, candidate by candidate. */
  function IntentLog(p: Policy, holds: Holds, cs: seq<Candidate>, ids: seq<nat>, now: Time): seq<Entry>
    requires |ids| == |cs|
  {
    if cs == [] then []
    else
      var n := |cs| - 1;
      IntentLog(p, holds, cs[..n], ids[..n], now)
      + if Deletes(p, holds, cs[n], now) then
          [Evaluated(cs[n], Delete), Intended(Pending(ids[n], cs[n], p.policyId, p.revision), now)]
        else [Evaluated(cs[n], Retain)]
  }

  function Intents(p: Policy, holds: Holds, cs: seq<Candidate>, ids: seq<nat>, now: Time): seq<Pending>
    requires |ids| == |cs|
  {
    if cs == [] then []
    else
      var n := |cs| - 1;
      Intents(p, holds, cs[..n], ids[..n], now)
      + if Deletes(p, holds, cs[n], now) then [Pending(ids[n], cs[n], p.policyId, p.revision)] else []
  }

  function BeginStep(s: State, cs: seq<Candidate>, ids: seq<nat>, now: Time): State
    requires |ids| == |cs|
  {
    var p := CurrentPolicy(s.policies, now);
    if !UniqueCandidates(cs) || p.None? || !OfTenant(cs, p.value.tenantId) then s
    else
      s.(log := s.log + IntentLog(p.value, s.holds, cs, ids, now),
         workers := s.workers + [Worker(Intents(p.value, s.holds, cs, ids, now), 0)])
  }

  /** The second transaction still reaches the decision the intent recorded, under the same revision. */
  predicate Confirmed(s: State, intent: Pending, now: Time) {
    var p := CurrentPolicy(s.policies, now);
    && p.Some? && Deletes(p.value, s.holds, intent.candidate, now)
    && p.value.policyId == intent.policyId && p.value.revision == intent.revision
  }

  /** The call raises out of its loop: it takes up no further intent. */
  function Abandon(s: State, w: nat): State
    requires w < |s.workers|
  {
    s.(workers := s.workers[w := s.workers[w].(next := |s.workers[w].pending|)])
  }

  function Advance(s: State, w: nat, fate: Fate): State
    requires w < |s.workers|
  {
    if fate == Committed then s.(workers := s.workers[w := s.workers[w].(next := s.workers[w].next + 1)])
    else Abandon(s, w)
  }

  function DeleteStep(s: State, w: nat, fate: Fate, now: Time): State
    requires w < |s.workers|
  {
    var worker := s.workers[w];
    if worker.next >= |worker.pending| then s
    else
      var intent, p := worker.pending[worker.next], CurrentPolicy(s.policies, now);
      if p.None? || intent.candidate.tenantId != p.value.tenantId then Abandon(s, w)
      else if !Confirmed(s, intent, now) then
        if fate.RolledBack? then Abandon(s, w)
        else Advance(s.(log := s.log + [Cancelled(intent.executionId)]), w, fate)
      else
        match fate
        case RolledBack(deleted) =>
          Abandon(if deleted then s.(log := s.log + [AdapterCalled(intent, now)]) else s, w)
        case _ =>
          Advance(s.(log := s.log + [AdapterCalled(intent, now), Executed(intent.executionId)]), w, fate)
  }

  function Step(s: State, op: Op, now: Time): State
    requires op.Begin? ==> |op.ids| == |op.candidates|
  {
    match op
    case PlaceHold(h) =>
      if h.tenantId != s.tenantId || !h.active || h.holdId in s.holds then s
      else s.(holds := s.holds[h.holdId := h], log := s.log + [HoldPlaced(h)])
    case ReleaseHold(id, approved) =>
      if id !in s.holds || !s.holds[id].active || !approved || now < s.holds[id].placedAt then s
      else s.(holds := s.holds[id := s.holds[id].(active := false)], log := s.log + [HoldReleased(id)])
    case ApplyPolicy(p, approved) =>
      if p.tenantId != s.tenantId || p.revision != |s.policies| + 1 || !approved then s
      else s.(policies := s.policies + [p], log := s.log + [PolicyApplied(p)])
    case Begin(cs, ids) => BeginStep(s, cs, ids, now)
    case DeleteNext(w, fate) => if w < |s.workers| then DeleteStep(s, w, fate, now) else s
  }

  // ---------------------------------------------------------------- runs

  predicate Mentions(e: Entry, id: nat) {
    match e
    case Intended(p, _) => p.executionId == id
    case AdapterCalled(p, _) => p.executionId == id
    case Executed(x) => x == id
    case Cancelled(x) => x == id
    case _ => false
  }

  predicate Distinct(ids: seq<nat>) {
    forall i, j | 0 <= i < j < |ids| :: ids[i] != ids[j]
  }

  /** Generated execution ids are new and distinct. */
  ghost predicate Enabled(s: State, op: Op) {
    op.Begin? ==>
      && |op.ids| == |op.candidates| && Distinct(op.ids)
      && forall n, i | 0 <= n < |s.log| && 0 <= i < |op.ids| :: !Mentions(s.log[n], op.ids[i])
  }

  datatype Event = Event(op: Op, now: Time)

  function Empty(tenantId: string): State { State(tenantId, [], map[], [], []) }

  ghost predicate Possible(s: State, run: seq<Event>, from: Time)
    decreases |run|
  {
    run == [] || (
      && from <= run[0].now && Enabled(s, run[0].op)
      && Possible(Step(s, run[0].op, run[0].now), run[1..], run[0].now))
  }

  ghost function After(s: State, run: seq<Event>, from: Time): State
    requires Possible(s, run, from)
    decreases |run|
  {
    if run == [] then s else After(Step(s, run[0].op, run[0].now), run[1..], run[0].now)
  }

  // ---------------------------------------------------------------- the store

  class PostgresGovernanceStore {
    const tenantId: string
    var policies: seq<Policy>
    var holds: Holds
    var log: seq<Entry>
    var workers: seq<Worker>

    ghost function Contents(): State
      reads this
    {
      State(tenantId, policies, holds, log, workers)
    }

    constructor (tenantId: string)
      ensures Contents() == Empty(tenantId)
    {
      this.tenantId := tenantId;
      policies, holds, log, workers := [], map[], [], [];
    }

    method PlaceLegalHold(hold: Hold, now: Time)
      modifies this
      ensures Contents() == Step(old(Contents()), PlaceHold(hold), now)
    {
      if hold.tenantId != tenantId || !hold.active || hold.holdId in holds {
        return;
      }
      holds := holds[hold.holdId := hold];
      log := log + [HoldPlaced(hold)];
    }

    method ReleaseLegalHold(holdId: nat, approved: bool, now: Time)
      modifies this
      ensures Contents() == Step(old(Contents()), ReleaseHold(holdId, approved), now)
    {
      if holdId !in holds || !holds[holdId].active {
        return;
      }
      if !approved || now < holds[holdId].placedAt {
        return;
      }
      holds := holds[holdId := holds[holdId].(active := false)];
      log := log + [HoldReleased(holdId)];
    }

    method ApplyRetentionPolicy(policy: Policy, approved: bool, now: Time)
      modifies this
      ensures Contents() == Step(old(Contents()), ApplyPolicy(policy, approved), now)
    {
      if policy.tenantId != tenantId {
        return;
      }
      var expectedRevision := |policies| + 1;
      if policy.revision != expectedRevision || !approved {
        return;
      }
      policies := policies + [policy];
      log := log + [PolicyApplied(policy)];
    }

    /** The first transaction of `execute_retention`: `ids[i]` is the execution id generated for candidate `i`. */
    method RecordIntents(candidates: seq<Candidate>, ids: seq<nat>, now: Time)
      requires |ids| == |candidates|
      modifies this
      ensures Contents() == Step(old(Contents()), Begin(candidates, ids), now)
    {
      var policy := CurrentPolicy(policies, now);
      if !UniqueCandidates(candidates) || policy.None? || !OfTenant(candidates, policy.value.tenantId) {
        return;
      }
      var pending, audit: seq<Entry> := [], [];
      for i := 0 to |candidates|
        invariant pending == Intents(policy.value, holds, candidates[..i], ids[..i], now)
        invariant audit == IntentLog(policy.value, holds, candidates[..i], ids[..i], now)
      {
        var candidate := candidates[i];
        assert candidates[..i + 1][..i] == candidates[..i] && ids[..i + 1][..i] == ids[..i];
        if Deletes(policy.value, holds, candidate, now) {
          var intent := Pending(ids[i], candidate, policy.value.policyId, policy.value.revision);
          audit := audit + [Evaluated(candidate, Delete), Intended(intent, now)];
          pending := pending + [intent];
        } else {
          audit := audit + [Evaluated(candidate, Retain)];
        }
      }
      assert candidates[..|candidates|] == candidates && ids[..|ids|] == ids;
      log := log + audit;
      workers := workers + [Worker(pending, 0)];
    }

    /** One round of the second loop, in its own transaction. */
    method DeletePending(w: nat, fate: Fate, now: Time)
      modifies this
      ensures Contents() == Step(old(Contents()), DeleteNext(w, fate), now)
    {
      if w >= |workers| || workers[w].next >= |workers[w].pending| {
        return;
      }
      var intent := workers[w].pending[workers[w].next];
      var policy := CurrentPolicy(policies, now);
      var raised := true;
      if policy.Some? {
        var decision := DecisionFor(policy.value, holds, intent.candidate, now);
        if decision.Some? {
          if || decision.value.disposition != Delete
             || decision.value.policyId != intent.policyId
             || decision.value.policyRevision != intent.revision
          {
            if !fate.RolledBack? {
              log := log + [Cancelled(intent.executionId)];
            }
          } else if fate.RolledBack? {
            if fate.deleted {
              log := log + [AdapterCalled(intent, now)];
            }
          } else {
            log := log + [AdapterCalled(intent, now), Executed(intent.executionId)];
          }
          raised := fate != Committed;
        }
      }
      workers := workers[w := workers[w].(next := if raised then |workers[w].pending| else workers[w].next + 1)];
    }
  }
}
