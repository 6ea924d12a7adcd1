/** What the history of every run looks like: each adapter call follows its own intent, under the policy
    in force, with no hold standing and the windows elapsed; each execution id has one outcome. */
module RetentionSafety {
  import opened Common
  import opened RetentionRules
  import opened Retention

  // ---------------------------------------------------------------- what each entry requires of its past

  /** An entry that settles the execution id. */
  predicate Settles(e: Entry, id: nat) {
    match e
    case AdapterCalled(p, _) => p.executionId == id
    case Executed(x) => x == id
    case Cancelled(x) => x == id
    case _ => false
  }

  ghost predicate Unsettled(past: seq<Entry>, id: nat) {
    forall k | 0 <= k < |past| :: !Settles(past[k], id)
  }

  ghost predicate Unmentioned(past: seq<Entry>, id: nat) {
    forall k | 0 <= k < |past| :: !Mentions(past[k], id)
  }

  ghost predicate IntendedBy(past: seq<Entry>, p: Pending, at: Time) {
    exists k | 0 <= k < |past| :: past[k].Intended? && past[k].intent == p && past[k].at <= at
  }

  ghost predicate ReleasedAfter(past: seq<Entry>, k: int, holdId: nat) {
    exists j | k < j < |past| :: 0 <= j && past[j] == HoldReleased(holdId)
  }

  /** Every hold ever placed on the resource has been released since. */
  ghost predicate HoldsReleased(past: seq<Entry>, c: Candidate) {
    forall k | 0 <= k < |past| ::
        past[k].HoldPlaced? && past[k].hold.Covers(c) ==> ReleasedAfter(past, k, past[k].hold.holdId)
  }

  /** `q` is in force at `at`: of the policies applied so far and effective by then, the latest. */
  ghost predicate InForce(past: seq<Entry>, q: Policy, at: Time) {
    && PolicyApplied(q) in past && q.effectiveAt <= at
    && forall k | 0 <= k < |past| ::
         past[k].PolicyApplied? && past[k].policy.effectiveAt <= at && past[k].policy != q ==>
           past[k].policy.effectiveAt < q.effectiveAt
           || (past[k].policy.effectiveAt == q.effectiveAt && past[k].policy.revision < q.revision)
  }

  ghost predicate Allows(past: seq<Entry>, q: Policy, p: Pending, at: Time) {
    && q.policyId == p.policyId && q.revision == p.revision && q.tenantId == p.candidate.tenantId
    && InForce(past, q, at) && Elapsed(q, p.candidate, at)
  }

  ghost predicate Deletable(past: seq<Entry>, p: Pending, at: Time) {
    HoldsReleased(past, p.candidate) && exists q :: Allows(past, q, p, at)
  }

  ghost predicate EntryOk(past: seq<Entry>, e: Entry) {
    match e
    case PolicyApplied(p) => forall k | 0 <= k < |past| ::
        past[k].PolicyApplied? ==> past[k].policy.revision < p.revision
    case Intended(p, at) => Unmentioned(past, p.executionId) && Deletable(past, p, at)
    case AdapterCalled(p, at) => Unsettled(past, p.executionId) && IntendedBy(past, p, at) && Deletable(past, p, at)
    case Executed(id) => past != [] && past[|past| - 1].AdapterCalled? && past[|past| - 1].call.executionId == id
    case Cancelled(id) => Unsettled(past, id) && !Unmentioned(past, id)
    case _ => true
  }

  ghost predicate LogOk(log: seq<Entry>) {
    log == [] || (LogOk(log[..|log| - 1]) && EntryOk(log[..|log| - 1], log[|log| - 1]))
  }

  // ---------------------------------------------------------------- the invariant

  ghost predicate PoliciesKnown(s: State) {
    && RevisionsAscend(s.policies)
    && (forall p | p in s.policies :: PolicyApplied(p) in s.log)
    && (forall k | 0 <= k < |s.log| :: s.log[k].PolicyApplied? ==> s.log[k].policy in s.policies)
  }

  /** A hold in the history is in the store with the scope it was placed with, and active unless released since. */
  predicate HoldKnown(holds: Holds, h: Hold) {
    h.holdId in holds && holds[h.holdId].(active := true) == h.(active := true)
  }

  ghost predicate HoldsKnown(holds: Holds, log: seq<Entry>) {
    forall k | 0 <= k < |log| :: log[k].HoldPlaced? ==>
      && HoldKnown(holds, log[k].hold)
      && (holds[log[k].hold.holdId].active || ReleasedAfter(log, k, log[k].hold.holdId))
  }

  predicate Open(workers: seq<Worker>, w: nat, i: nat) {
    w < |workers| && workers[w].next <= i < |workers[w].pending|
  }

  ghost predicate OpenOk(log: seq<Entry>, p: Pending, clock: Time) {
    Unsettled(log, p.executionId) && IntendedBy(log, p, clock)
  }

  ghost predicate OpensOk(log: seq<Entry>, workers: seq<Worker>, clock: Time) {
    forall w: nat, i: nat | Open(workers, w, i) :: OpenOk(log, workers[w].pending[i], clock)
  }

  ghost predicate OpensDistinct(workers: seq<Worker>) {
    forall v: nat, i: nat, w: nat, j: nat | Open(workers, v, i) && Open(workers, w, j) && (v != w || i != j) ::
      workers[v].pending[i].executionId != workers[w].pending[j].executionId
  }

  ghost predicate Inv(s: State, clock: Time) {
    && LogOk(s.log)
    && PoliciesKnown(s)
    && HoldsKnown(s.holds, s.log)
    && OpensOk(s.log, s.workers, clock)
    && OpensDistinct(s.workers)
  }

  // ---------------------------------------------------------------- appending to the history

  lemma LogAppend(log: seq<Entry>, e: Entry)
    requires LogOk(log) && EntryOk(log, e)
    ensures LogOk(log + [e])
  {
    assert (log + [e])[..|log|] == log;
  }

  lemma ReleasedStays(log: seq<Entry>, e: Entry, k: int, id: nat)
    requires ReleasedAfter(log, k, id)
    ensures ReleasedAfter(log + [e], k, id)
  {
    var j :| k < j < |log| && 0 <= j && log[j] == HoldReleased(id);
    assert (log + [e])[j] == HoldReleased(id);
  }

  lemma HoldsKnownAppend(holds: Holds, log: seq<Entry>, e: Entry)
    requires HoldsKnown(holds, log) && !e.HoldPlaced?
    ensures HoldsKnown(holds, log + [e])
  {
    hide ReleasedAfter;
    var more := log + [e];
    forall k | 0 <= k < |more| && more[k].HoldPlaced?
      ensures HoldKnown(holds, more[k].hold)
      ensures holds[more[k].hold.holdId].active || ReleasedAfter(more, k, more[k].hold.holdId)
    {
      assert log[k] == more[k];
      if ReleasedAfter(log, k, more[k].hold.holdId) { ReleasedStays(log, e, k, more[k].hold.holdId); }
    }
  }

  lemma PoliciesKnownAppend(s: State, e: Entry)
    requires PoliciesKnown(s) && !e.PolicyApplied?
    ensures PoliciesKnown(s.(log := s.log + [e]))
  {
  }

  lemma IntendedStays(log: seq<Entry>, e: Entry, p: Pending, clock: Time, now: Time)
    requires IntendedBy(log, p, clock) && clock <= now
    ensures IntendedBy(log + [e], p, now)
  {
    var k :| 0 <= k < |log| && log[k].Intended? && log[k].intent == p && log[k].at <= clock;
    assert (log + [e])[k] == log[k];
  }

  lemma OpensAppend(log: seq<Entry>, workers: seq<Worker>, e: Entry, clock: Time, now: Time)
    requires OpensOk(log, workers, clock) && clock <= now
    requires forall w: nat, i: nat | Open(workers, w, i) :: !Settles(e, workers[w].pending[i].executionId)
    ensures OpensOk(log + [e], workers, now)
  {
    hide IntendedBy;
    forall w: nat, i: nat | Open(workers, w, i) ensures OpenOk(log + [e], workers[w].pending[i], now) {
      assert OpenOk(log, workers[w].pending[i], clock);
      IntendedStays(log, e, workers[w].pending[i], clock, now);
    }
  }

  lemma OpensLater(log: seq<Entry>, workers: seq<Worker>, clock: Time, now: Time)
    requires OpensOk(log, workers, clock) && clock <= now
    ensures OpensOk(log, workers, now)
  {
    forall w: nat, i: nat | Open(workers, w, i) ensures OpenOk(log, workers[w].pending[i], now) {
      assert OpenOk(log, workers[w].pending[i], clock);
    }
  }

  // ---------------------------------------------------------------- the decision, seen from the history

  /** What the store decides to delete, the history allows. */
  lemma DecisionAgrees(s: State, p: Pending, now: Time)
    requires PoliciesKnown(s) && HoldsKnown(s.holds, s.log)
    requires var q := CurrentPolicy(s.policies, now);
             q.Some? && Deletes(q.value, s.holds, p.candidate, now) && q.value.policyId == p.policyId
                 && q.value.revision == p.revision
    ensures Deletable(s.log, p, now)
  {
    hide Elapsed, ReleasedAfter;
    var q := CurrentPolicy(s.policies, now).value;
    CurrentPolicyIsLatest(s.policies, now);
    DecisionIsSound(q, s.holds, p.candidate, now);
    assert InForce(s.log, q, now);
    assert Allows(s.log, q, p, now);
    forall k | 0 <= k < |s.log| && s.log[k].HoldPlaced? && s.log[k].hold.Covers(p.candidate)
      ensures ReleasedAfter(s.log, k, s.log[k].hold.holdId)
    {
      var h := s.log[k].hold;
      assert s.holds[h.holdId].Covers(p.candidate);
      assert !s.holds[h.holdId].AppliesTo(p.candidate);
    }
  }

  // ---------------------------------------------------------------- steps on holds and policies

  lemma PlaceKeepsInv(s: State, h: Hold, clock: Time, now: Time)
    requires Inv(s, clock) && clock <= now
    ensures Inv(Step(s, PlaceHold(h), now), now)
  {
    hide LogOk, IntendedBy, Unsettled, OpensDistinct, ReleasedAfter;
    var t := Step(s, PlaceHold(h), now);
    if t == s { OpensLater(s.log, s.workers, clock, now); }
    else {
      LogAppend(s.log, HoldPlaced(h));
      OpensAppend(s.log, s.workers, HoldPlaced(h), clock, now);
      forall k | 0 <= k < |t.log| && t.log[k].HoldPlaced?
        ensures HoldKnown(t.holds, t.log[k].hold)
        ensures t.holds[t.log[k].hold.holdId].active || ReleasedAfter(t.log, k, t.log[k].hold.holdId)
      {
        if k < |s.log| {
          assert s.log[k] == t.log[k];
          if ReleasedAfter(s.log, k, s.log[k].hold.holdId) {
            ReleasedStays(s.log, HoldPlaced(h), k, s.log[k].hold.holdId);
          }
        }
      }
    }
  }

  lemma ReleaseKeepsInv(s: State, id: nat, approved: bool, clock: Time, now: Time)
    requires Inv(s, clock) && clock <= now
    ensures Inv(Step(s, ReleaseHold(id, approved), now), now)
  {
    hide LogOk, IntendedBy, Unsettled, OpensDistinct, ReleasedAfter;
    var t := Step(s, ReleaseHold(id, approved), now);
    if t == s { OpensLater(s.log, s.workers, clock, now); }
    else {
      LogAppend(s.log, HoldReleased(id));
      OpensAppend(s.log, s.workers, HoldReleased(id), clock, now);
      forall k | 0 <= k < |t.log| && t.log[k].HoldPlaced?
        ensures HoldKnown(t.holds, t.log[k].hold)
        ensures t.holds[t.log[k].hold.holdId].active || ReleasedAfter(t.log, k, t.log[k].hold.holdId)
      {
        assert s.log[k] == t.log[k];
        if ReleasedAfter(s.log, k, s.log[k].hold.holdId) {
          ReleasedStays(s.log, HoldReleased(id), k, s.log[k].hold.holdId);
        }
        if s.log[k].hold.holdId == id { JustReleased(s.log, k, id); }
      }
    }
  }

  lemma JustReleased(log: seq<Entry>, k: int, id: nat)
    requires k < |log|
    ensures ReleasedAfter(log + [HoldReleased(id)], k, id)
  {
    assert (log + [HoldReleased(id)])[|log|] == HoldReleased(id);
  }

  lemma ApplyKeepsInv(s: State, p: Policy, approved: bool, clock: Time, now: Time)
    requires Inv(s, clock) && clock <= now
    ensures Inv(Step(s, ApplyPolicy(p, approved), now), now)
  {
    hide LogOk, IntendedBy, Unsettled, OpensDistinct, ReleasedAfter, HoldsKnown;
    var t := Step(s, ApplyPolicy(p, approved), now);
    if t == s { OpensLater(s.log, s.workers, clock, now); }
    else {
      assert EntryOk(s.log, PolicyApplied(p));
      LogAppend(s.log, PolicyApplied(p));
      OpensAppend(s.log, s.workers, PolicyApplied(p), clock, now);
      HoldsKnownAppend(s.holds, s.log, PolicyApplied(p));
      assert t.log[|s.log|] == PolicyApplied(p);
    }
  }

  // ---------------------------------------------------------------- recording intents

  /** What appending a harmless record keeps. */
  lemma QuietAppend(s: State, e: Entry, clock: Time, now: Time)
    requires LogOk(s.log) && PoliciesKnown(s) && HoldsKnown(s.holds, s.log) && OpensOk(s.log, s.workers, clock)
             && clock <= now
    requires e.Evaluated? || e.Intended?
    requires EntryOk(s.log, e)
    ensures LogOk(s.log + [e]) && PoliciesKnown(s.(log := s.log + [e])) && HoldsKnown(s.holds, s.log + [e])
    ensures OpensOk(s.log + [e], s.workers, now)
  {
    hide LogOk, PoliciesKnown, HoldsKnown, OpensOk, EntryOk;
    LogAppend(s.log, e);
    PoliciesKnownAppend(s, e);
    HoldsKnownAppend(s.holds, s.log, e);
    OpensAppend(s.log, s.workers, e, clock, now);
  }

  ghost predicate NewOpens(log: seq<Entry>, pending: seq<Pending>, ids: seq<nat>, now: Time) {
    && (forall i | 0 <= i < |pending| :: pending[i].executionId in ids && OpenOk(log, pending[i], now))
    && (forall i, j | 0 <= i < j < |pending| :: pending[i].executionId != pending[j].executionId)
  }

  lemma IntentStep(log: seq<Entry>, pending: seq<Pending>, ids: seq<nat>, c: Candidate, p: Pending, now: Time)
    requires NewOpens(log, pending, ids, now) && Unmentioned(log, p.executionId) && p.executionId !in ids
    ensures NewOpens(log + [Evaluated(c, Delete)] + [Intended(p, now)], pending + [p], ids + [p.executionId], now)
  {
    hide Unmentioned, IntendedBy, Unsettled;
    var first := log + [Evaluated(c, Delete)];
    var more, all := first + [Intended(p, now)], pending + [p];
    forall i | 0 <= i < |all| ensures all[i].executionId in ids + [p.executionId] && OpenOk(more, all[i], now) {
      if i < |pending| {
        assert OpenOk(log, pending[i], now);
        OpenStays(log, Evaluated(c, Delete), pending[i], now);
        OpenStays(first, Intended(p, now), pending[i], now);
      } else {
        JustIntended(log, c, p, now);
      }
    }
  }

  lemma OpenStays(log: seq<Entry>, e: Entry, p: Pending, now: Time)
    requires OpenOk(log, p, now) && !Settles(e, p.executionId)
    ensures OpenOk(log + [e], p, now)
  {
    hide IntendedBy;
    IntendedStays(log, e, p, now, now);
  }

  lemma JustIntended(log: seq<Entry>, c: Candidate, p: Pending, now: Time)
    requires Unmentioned(log, p.executionId)
    ensures OpenOk(log + [Evaluated(c, Delete)] + [Intended(p, now)], p, now)
  {
    var more := log + [Evaluated(c, Delete)] + [Intended(p, now)];
    assert more[|log| + 1] == Intended(p, now);
    forall k | 0 <= k < |more| ensures !Settles(more[k], p.executionId) {
      if k < |log| { assert !Mentions(log[k], p.executionId); }
    }
  }

  lemma UnmentionedAppend(log: seq<Entry>, e: Entry, id: nat)
    requires Unmentioned(log, id) && !Mentions(e, id)
    ensures Unmentioned(log + [e], id)
  {
  }

  /** The invariant holds after each candidate's records; `s.log` grows, nothing else changes. */
  lemma {:induction false} BeginLog(s: State, q: Policy, cs: seq<Candidate>, ids: seq<nat>, clock: Time, now: Time)
    requires LogOk(s.log) && PoliciesKnown(s) && HoldsKnown(s.holds, s.log) && OpensOk(s.log, s.workers, clock)
             && clock <= now
    requires CurrentPolicy(s.policies, now) == Some(q) && |ids| == |cs| && Distinct(ids)
    requires forall id | id in ids :: Unmentioned(s.log, id)
    ensures var log := s.log + IntentLog(q, s.holds, cs, ids, now);
            && LogOk(log) && PoliciesKnown(s.(log := log)) && HoldsKnown(s.holds, log) && OpensOk(log, s.workers, now)
            && NewOpens(log, Intents(q, s.holds, cs, ids, now), ids, now)
            && (forall id | Unmentioned(s.log, id) && id !in ids :: Unmentioned(log, id))
    decreases |cs|
  {
    hide LogOk, PoliciesKnown, HoldsKnown, OpensOk, Unmentioned, Deletes, NewOpens;
    if cs == [] {
      assert s.log + [] == s.log;
      OpensLater(s.log, s.workers, clock, now);
      assert NewOpens(s.log, [], [], now) by { NoNewOpens(s.log, now); }
    } else {
      var n := |cs| - 1;
      var c, id := cs[n], ids[n];
      assert ids == ids[..n] + [id];
      BeginLog(s, q, cs[..n], ids[..n], clock, now);
      var log := s.log + IntentLog(q, s.holds, cs[..n], ids[..n], now);
      var t := s.(log := log);
      assert Unmentioned(log, id);
      var delete := Deletes(q, s.holds, c, now);
      var first := Evaluated(c, if delete then Delete else Retain);
      QuietAppend(t, first, now, now);
      forall x | Unmentioned(log, x) ensures Unmentioned(log + [first], x) { UnmentionedAppend(log, first, x); }
      if delete {
        var p := Pending(id, c, q.policyId, q.revision);
        var u := t.(log := log + [first]);
        DecisionAgrees(u, p, now);
        QuietAppend(u, Intended(p, now), now, now);
        IntentStep(log, Intents(q, s.holds, cs[..n], ids[..n], now), ids[..n], c, p, now);
        forall x | Unmentioned(log + [first], x) && x != id ensures Unmentioned(log + [first] + [Intended(p, now)], x) {
          UnmentionedAppend(log + [first], Intended(p, now), x);
        }
        assert log + [first] + [Intended(p, now)] == s.log + IntentLog(q, s.holds, cs, ids, now);
      } else {
        NewOpensQuiet(log, Intents(q, s.holds, cs[..n], ids[..n], now), ids[..n], first, id, now);
        assert log + [first] == s.log + IntentLog(q, s.holds, cs, ids, now);
        assert Intents(q, s.holds, cs, ids, now) == Intents(q, s.holds, cs[..n], ids[..n], now);
      }
    }
  }

  lemma NoNewOpens(log: seq<Entry>, now: Time)
    ensures NewOpens(log, [], [], now)
  {
  }

  lemma NewOpensQuiet(log: seq<Entry>, pending: seq<Pending>, ids: seq<nat>, e: Entry, id: nat, now: Time)
    requires NewOpens(log, pending, ids, now) && e.Evaluated?
    ensures NewOpens(log + [e], pending, ids + [id], now)
  {
    forall i | 0 <= i < |pending| ensures pending[i].executionId in ids + [id] && OpenOk(log + [e], pending[i], now) {
      OpenStays(log, e, pending[i], now);
    }
  }

  lemma FreshDiffers(log: seq<Entry>, p: Pending, clock: Time, id: nat)
    requires IntendedBy(log, p, clock) && Unmentioned(log, id)
    ensures p.executionId != id
  {
    var k :| 0 <= k < |log| && log[k].Intended? && log[k].intent == p && log[k].at <= clock;
    assert !Mentions(log[k], id);
  }

  lemma BeginKeepsInv(s: State, cs: seq<Candidate>, ids: seq<nat>, clock: Time, now: Time)
    requires Inv(s, clock) && clock <= now && Enabled(s, Begin(cs, ids))
    ensures Inv(Step(s, Begin(cs, ids), now), now)
  {
    hide LogOk, PoliciesKnown, HoldsKnown, IntendedBy, Unsettled, Unmentioned, IntentLog, Intents;
    var t := Step(s, Begin(cs, ids), now);
    if t == s { OpensLater(s.log, s.workers, clock, now); }
    else {
      var q := CurrentPolicy(s.policies, now).value;
      forall id | id in ids ensures Unmentioned(s.log, id) { EnabledId(s, cs, ids, id); }
      BeginLog(s, q, cs, ids, clock, now);
      var pending := Intents(q, s.holds, cs, ids, now);
      PoliciesKnownWorkers(s.(log := t.log), t);
      assert forall w: nat, i: nat :: Open(t.workers, w, i) ==>
        if w < |s.workers| then Open(s.workers, w, i) else 0 <= i < |pending| && t.workers[w].pending[i] == pending[i];
      forall v: nat, i: nat, w: nat, j: nat | Open(t.workers, v, i) && Open(t.workers, w, j) && v < |s.workers| == w
        ensures t.workers[v].pending[i].executionId != t.workers[w].pending[j].executionId
      {
        assert OpenOk(s.log, s.workers[v].pending[i], clock);
        FreshDiffers(s.log, s.workers[v].pending[i], clock, pending[j].executionId);
      }
    }
  }

  lemma EnabledId(s: State, cs: seq<Candidate>, ids: seq<nat>, id: nat)
    requires Enabled(s, Begin(cs, ids)) && id in ids
    ensures Unmentioned(s.log, id)
  {
    var i :| 0 <= i < |ids| && ids[i] == id;
    forall n | 0 <= n < |s.log| ensures !Mentions(s.log[n], id) {
      assert !Mentions(s.log[n], ids[i]);
    }
  }

  lemma PoliciesKnownWorkers(s: State, t: State)
    requires PoliciesKnown(s) && t.policies == s.policies && t.log == s.log
    ensures PoliciesKnown(t)
  {
  }

  // ---------------------------------------------------------------- taking up an intent

  /** A worker that moves on leaves the remaining intents open and distinct. */
  lemma MovesOn(s: State, w: nat, next: nat, clock: Time)
    requires Inv(s, clock) && w < |s.workers| && s.workers[w].next <= next
    ensures Inv(s.(workers := s.workers[w := s.workers[w].(next := next)]), clock)
  {
    hide LogOk, HoldsKnown, OpenOk;
    var workers := s.workers[w := s.workers[w].(next := next)];
    assert forall v: nat, i: nat :: Open(workers, v, i) ==> Open(s.workers, v, i);
    PoliciesKnownWorkers(s, s.(workers := workers));
  }

  /** Settling the intent a worker has taken up, before it moves on. */
  lemma Settle(s: State, w: nat, e: Entry, next: nat, clock: Time, now: Time)
    requires Inv(s, clock) && clock <= now && w < |s.workers| && Open(s.workers, w, s.workers[w].next)
    requires next > s.workers[w].next && EntryOk(s.log, e) && !e.HoldPlaced? && !e.PolicyApplied?
    requires forall id | Settles(e, id) :: id == s.workers[w].pending[s.workers[w].next].executionId
    ensures Inv(s.(log := s.log + [e], workers := s.workers[w := s.workers[w].(next := next)]), now)
  {
    hide LogOk, HoldsKnown, EntryOk, IntendedBy, Unsettled, PoliciesKnown;
    var t := s.(workers := s.workers[w := s.workers[w].(next := next)]);
    MovesOn(s, w, next, clock);
    LogAppend(t.log, e);
    PoliciesKnownAppend(t, e);
    HoldsKnownAppend(t.holds, t.log, e);
    forall v: nat, i: nat | Open(t.workers, v, i) ensures !Settles(e, t.workers[v].pending[i].executionId) {
      assert Open(s.workers, v, i);
    }
    OpensAppend(t.log, t.workers, e, clock, now);
  }

  /** The execution record follows its adapter call in the same transaction. */
  lemma SettleAgain(s: State, id: nat, now: Time)
    requires Inv(s, now) && s.log != [] && s.log[|s.log| - 1].AdapterCalled?
             && s.log[|s.log| - 1].call.executionId == id
    ensures Inv(s.(log := s.log + [Executed(id)]), now)
  {
    hide LogOk, HoldsKnown, PoliciesKnown;
    LogAppend(s.log, Executed(id));
    PoliciesKnownAppend(s, Executed(id));
    HoldsKnownAppend(s.holds, s.log, Executed(id));
    forall v: nat, i: nat | Open(s.workers, v, i) ensures s.workers[v].pending[i].executionId != id {
      assert OpenOk(s.log, s.workers[v].pending[i], now);
    }
    OpensAppend(s.log, s.workers, Executed(id), now, now);
  }

  lemma IntendedIsMentioned(log: seq<Entry>, p: Pending, clock: Time)
    requires IntendedBy(log, p, clock)
    ensures !Unmentioned(log, p.executionId)
  {
    var k :| 0 <= k < |log| && log[k].Intended? && log[k].intent == p && log[k].at <= clock;
    assert Mentions(log[k], p.executionId);
  }

  lemma DeleteKeepsInv(s: State, w: nat, fate: Fate, clock: Time, now: Time)
    requires Inv(s, clock) && clock <= now && w < |s.workers|
    ensures Inv(DeleteStep(s, w, fate, now), now)
  {
    hide LogOk, HoldsKnown, PoliciesKnown, OpensDistinct, OpensOk, IntendedBy, Unsettled, Unmentioned, Deletable,
         Confirmed;
    assert Inv(s, now) by { OpensLater(s.log, s.workers, clock, now); }
    var t, worker := DeleteStep(s, w, fate, now), s.workers[w];
    if worker.next < |worker.pending| {
      var intent, next := worker.pending[worker.next], t.workers[w].next;
      OpenIsOk(s, w, worker.next, now);
      if t.log == s.log { MovesOn(s, w, next, now); }
      else if !Confirmed(s, intent, now) {
        IntendedIsMentioned(s.log, intent, now);
        Settle(s, w, Cancelled(intent.executionId), next, now, now);
      } else {
        ConfirmedDeletable(s, intent, now);
        Settle(s, w, AdapterCalled(intent, now), next, now, now);
        var u := s.(log := s.log + [AdapterCalled(intent, now)], workers := s.workers[w := worker.(next := next)]);
        if !fate.RolledBack? {
          SettleAgain(u, intent.executionId, now);
          assert s.log + [AdapterCalled(intent, now)] + [Executed(intent.executionId)]
              == s.log + [AdapterCalled(intent, now), Executed(intent.executionId)];
        }
      }
    }
  }

  lemma OpenIsOk(s: State, w: nat, i: nat, clock: Time)
    requires OpensOk(s.log, s.workers, clock) && Open(s.workers, w, i)
    ensures OpenOk(s.log, s.workers[w].pending[i], clock)
  {
  }

  lemma ConfirmedDeletable(s: State, p: Pending, now: Time)
    requires Inv(s, now) && Confirmed(s, p, now)
    ensures Deletable(s.log, p, now)
  {
    DecisionAgrees(s, p, now);
  }

  // ---------------------------------------------------------------- whole runs

  lemma StepKeepsInv(s: State, op: Op, clock: Time, now: Time)
    requires Inv(s, clock) && clock <= now && Enabled(s, op)
    ensures Inv(Step(s, op, now), now)
  {
    hide LogOk, HoldsKnown, PoliciesKnown, OpensDistinct, DeleteStep, BeginStep;
    match op
    case PlaceHold(h) => PlaceKeepsInv(s, h, clock, now);
    case ReleaseHold(id, approved) => ReleaseKeepsInv(s, id, approved, clock, now);
    case ApplyPolicy(p, approved) => ApplyKeepsInv(s, p, approved, clock, now);
    case Begin(cs, ids) => BeginKeepsInv(s, cs, ids, clock, now);
    case DeleteNext(w, fate) =>
      if w < |s.workers| { DeleteKeepsInv(s, w, fate, clock, now); }
      else { OpensLater(s.log, s.workers, clock, now); }
  }

  lemma {:induction false} AfterKeepsLog(s: State, run: seq<Event>, from: Time)
    requires Inv(s, from) && Possible(s, run, from)
    ensures LogOk(After(s, run, from).log)
    decreases |run|
  {
    hide Step, LogOk, HoldsKnown, PoliciesKnown, OpensDistinct, OpensOk;
    if run != [] {
      StepKeepsInv(s, run[0].op, from, run[0].now);
      AfterKeepsLog(Step(s, run[0].op, run[0].now), run[1..], run[0].now);
    }
  }

  lemma EmptyInv(tenantId: string, clock: Time)
    ensures Inv(Empty(tenantId), clock)
  {
  }

  lemma {:induction false} EntryIsOk(log: seq<Entry>, n: nat)
    requires LogOk(log) && n < |log|
    ensures EntryOk(log[..n], log[n])
  {
    if n < |log| - 1 {
      EntryIsOk(log[..|log| - 1], n);
      assert log[..|log| - 1][..n] == log[..n];
    }
  }

  /** The histories of all runs of the store. */
  ghost predicate History(tenantId: string, log: seq<Entry>) {
    exists run, from :: Possible(Empty(tenantId), run, from) && After(Empty(tenantId), run, from).log == log
  }

  lemma HistoryIsOk(tenantId: string, log: seq<Entry>)
    requires History(tenantId, log)
    ensures LogOk(log)
  {
    var run, from :| Possible(Empty(tenantId), run, from) && After(Empty(tenantId), run, from).log == log;
    EmptyInv(tenantId, from);
    AfterKeepsLog(Empty(tenantId), run, from);
  }

  /** Whatever ran between its two transactions: when the adapter deletes, the intent was recorded before,
      every hold ever placed on the resource has been released, and the policy in force is the one the
      intent was decided under, with retention and grace elapsed. */
  lemma DeletionIsSafe(tenantId: string, log: seq<Entry>, n: nat)
    requires History(tenantId, log) && n < |log| && log[n].AdapterCalled?
    ensures IntendedBy(log[..n], log[n].call, log[n].at)
    ensures HoldsReleased(log[..n], log[n].call.candidate)
    ensures exists q :: Allows(log[..n], q, log[n].call, log[n].at)
  {
    hide LogOk, IntendedBy, HoldsReleased, Allows;
    HistoryIsOk(tenantId, log);
    EntryIsOk(log, n);
  }

  /** A revision names one policy, so intent and deletion saw the same rules. */
  lemma RevisionNamesPolicy(tenantId: string, log: seq<Entry>, m: nat, n: nat)
    requires History(tenantId, log) && m < |log| && n < |log| && log[m].PolicyApplied? && log[n].PolicyApplied?
    requires log[m].policy.revision == log[n].policy.revision
    ensures m == n
  {
    assert m < n ==> log[..n][m] == log[m];
    assert n < m ==> log[..m][n] == log[n];
    HistoryIsOk(tenantId, log);
    EntryIsOk(log, m);
    EntryIsOk(log, n);
  }

  /** An execution id is intended once. */
  lemma IntentIsUnique(tenantId: string, log: seq<Entry>, m: nat, n: nat)
    requires History(tenantId, log) && m <= n < |log| && log[m].Intended? && log[n].Intended?
    requires log[m].intent.executionId == log[n].intent.executionId
    ensures m == n
  {
    assert m < n ==> Mentions(log[..n][m], log[n].intent.executionId);
    HistoryIsOk(tenantId, log);
    EntryIsOk(log, n);
  }

  /** It is settled once: cancelled, or handed to the adapter once and then perhaps recorded as executed
      by the very next entry. */
  lemma SettledOnce(tenantId: string, log: seq<Entry>, m: nat, n: nat, id: nat)
    requires History(tenantId, log) && m < n < |log| && Settles(log[m], id) && Settles(log[n], id)
    ensures log[m].AdapterCalled? && log[n] == Executed(id) && n == m + 1
  {
    assert log[..n][m] == log[m] && log[..n][|log[..n]| - 1] == log[n - 1];
    assert m < n - 1 ==> log[..n - 1][m] == log[m];
    HistoryIsOk(tenantId, log);
    EntryIsOk(log, n);
    if log[n].Executed? { EntryIsOk(log, n - 1); }
  }

  /** Nothing is settled that was not intended. */
  lemma SettledWasIntended(tenantId: string, log: seq<Entry>, n: nat, id: nat) returns (m: nat)
    requires History(tenantId, log) && n < |log| && Settles(log[n], id)
    ensures m < n && log[m].Intended? && log[m].intent.executionId == id
  {
    HistoryIsOk(tenantId, log);
    m := FirstMention(log, n, id);
  }

  lemma {:induction false} FirstMention(log: seq<Entry>, n: nat, id: nat) returns (m: nat)
    requires LogOk(log) && n < |log| && Settles(log[n], id)
    ensures m < n && log[m].Intended? && log[m].intent.executionId == id
    decreases n
  {
    EntryIsOk(log, n);
    match log[n]
    case AdapterCalled(p, at) =>
      m :| 0 <= m < n && log[..n][m].Intended? && log[..n][m].intent == p;
    case Executed(x) =>
      assert log[..n][|log[..n]| - 1] == log[n - 1];
      m := FirstMention(log, n - 1, id);
    case Cancelled(x) =>
      m :| 0 <= m < n && Mentions(log[..n][m], id);
      assert !Settles(log[..n][m], id);
  }
}
