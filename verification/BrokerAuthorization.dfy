/** Nothing is executed that was not allowed: in every reachable state each effect has its
    `ExecutionStarted` event, and each of those follows a digest-bound policy event that does not deny
    and, where that policy demands one, an approved approval event. */
module BrokerAuthorization {
  import opened Common
  import opened ExecutionStores
  import opened Broker
  import opened BrokerSafety
  import opened BrokerOutcomes

  predicate IsBoundPolicy(e: Event, i: nat, digest: string) {
    && e.call == i && e.digest == digest && e.body.PolicyEvaluated?
    && e.body.policy.actionDigest == digest && e.body.policy.outcome != Deny
  }

  predicate IsApproval(e: Event, i: nat) {
    e.call == i && e.body.ApprovalDecided? && e.body.approval.approved
  }

  predicate ApprovedAfter(events: seq<Event>, j: nat, n: nat, i: nat)
    requires n <= |events|
  {
    exists k | j < k < n :: IsApproval(events[k], i)
  }

  /** Event `j`, before `n`, clears the action: no approval was required, or it was granted in between. */
  predicate ClearedBy(events: seq<Event>, j: nat, n: nat, i: nat, digest: string)
    requires j < n <= |events|
  {
    && IsBoundPolicy(events[j], i, digest)
    && (events[j].body.policy.outcome == RequireApproval ==> ApprovedAfter(events, j, n, i))
  }

  ghost predicate Cleared(events: seq<Event>, n: nat, i: nat, digest: string)
    requires n <= |events|
  {
    exists j | 0 <= j < n :: ClearedBy(events, j, n, i, digest)
  }

  ghost predicate Pending(events: seq<Event>, i: nat, digest: string) {
    exists j | 0 <= j < |events| :: IsBoundPolicy(events[j], i, digest)
  }

  predicate IsStart(e: Event, i: nat, digest: string) {
    e.call == i && e.digest == digest && e.body.ExecutionStarted?
  }

  ghost predicate StartRecorded(events: seq<Event>, i: nat, digest: string) {
    exists n | 0 <= n < |events| :: IsStart(events[n], i, digest)
  }

  // ---------------------------------------------------------------- the invariant

  /** How far the ledger has cleared a call that has reached phase `c.phase`. */
  ghost predicate ClearanceOk(events: seq<Event>, i: nat, c: Call) {
    match c.phase
    case Proposing => true
    case Evaluating => true
    case RecordingPolicy => c.policy.Some? && c.policy.value.actionDigest == c.action.digest
    case SeekingApproval => Pending(events, i, c.action.digest)
    case RequestingApproval => true
    case RecordingApproval => Pending(events, i, c.action.digest)
    case Raised => true
    case _ =>
      && Cleared(events, |events|, i, c.action.digest)
      && (c.phase == Invoking ==> StartRecorded(events, i, c.action.digest))
  }

  ghost predicate ClearancesOk(s: State) {
    forall i | 0 <= i < |s.calls| :: ClearanceOk(s.events, i, s.calls[i])
  }

  ghost predicate StartsCleared(events: seq<Event>) {
    forall n | 0 <= n < |events| && events[n].body.ExecutionStarted? ::
      Cleared(events, n, events[n].call, events[n].digest)
  }

  ghost predicate EffectsStarted(s: State) {
    forall n | 0 <= n < |s.effects| ::
      s.effects[n].call < |s.calls|
          && StartRecorded(s.events, s.effects[n].call, s.calls[s.effects[n].call].action.digest)
  }

  ghost predicate Authorized(s: State) {
    ClearancesOk(s) && StartsCleared(s.events) && EffectsStarted(s)
  }

  lemma InitialAuthorized(requests: seq<Request>)
    ensures Authorized(Initial(requests))
  {
  }

  // ---------------------------------------------------------------- appending an event

  lemma ApprovedStays(events: seq<Event>, e: Event, j: nat, n: nat, i: nat)
    requires n <= |events| && ApprovedAfter(events, j, n, i)
    ensures ApprovedAfter(events + [e], j, n, i) && ApprovedAfter(events + [e], j, |events| + 1, i)
  {
    var k :| j < k < n && IsApproval(events[k], i);
    assert (events + [e])[k] == events[k];
  }

  lemma ClearedStays(events: seq<Event>, e: Event, n: nat, i: nat, digest: string)
    requires n <= |events| && Cleared(events, n, i, digest)
    ensures Cleared(events + [e], n, i, digest) && Cleared(events + [e], |events| + 1, i, digest)
  {
    var j :| 0 <= j < n && ClearedBy(events, j, n, i, digest);
    var more := events + [e];
    assert more[j] == events[j];
    if events[j].body.policy.outcome == RequireApproval { ApprovedStays(events, e, j, n, i); }
    assert ClearedBy(more, j, n, i, digest) && ClearedBy(more, j, |more|, i, digest);
  }

  lemma PendingStays(events: seq<Event>, e: Event, i: nat, digest: string)
    requires Pending(events, i, digest) || IsBoundPolicy(e, i, digest)
    ensures Pending(events + [e], i, digest)
  {
    var more := events + [e];
    if IsBoundPolicy(e, i, digest) { assert more[|events|] == e; }
    else {
      var j :| 0 <= j < |events| && IsBoundPolicy(events[j], i, digest);
      assert more[j] == events[j];
    }
  }

  lemma StartStays(events: seq<Event>, e: Event, i: nat, digest: string)
    requires StartRecorded(events, i, digest) || IsStart(e, i, digest)
    ensures StartRecorded(events + [e], i, digest)
  {
    var more := events + [e];
    if IsStart(e, i, digest) { assert more[|events|] == e; }
    else {
      var n :| 0 <= n < |events| && IsStart(events[n], i, digest);
      assert more[n] == events[n];
    }
  }

  lemma ClearanceStays(events: seq<Event>, e: Event, i: nat, c: Call)
    requires ClearanceOk(events, i, c)
    ensures ClearanceOk(events + [e], i, c)
  {
    hide Cleared, Pending, StartRecorded;
    var digest := c.action.digest;
    if Cleared(events, |events|, i, digest) { ClearedStays(events, e, |events|, i, digest); }
    if Pending(events, i, digest) { PendingStays(events, e, i, digest); }
    if StartRecorded(events, i, digest) { StartStays(events, e, i, digest); }
  }

  /** A policy that allows clears at once. */
  lemma AllowClears(events: seq<Event>, e: Event, i: nat, digest: string)
    requires IsBoundPolicy(e, i, digest) && e.body.policy.outcome == Allow
    ensures Cleared(events + [e], |events| + 1, i, digest)
  {
    assert (events + [e])[|events|] == e;
    assert ClearedBy(events + [e], |events|, |events| + 1, i, digest);
  }

  /** A pending policy is cleared by the approval that follows it. */
  lemma ApprovalClears(events: seq<Event>, e: Event, i: nat, digest: string)
    requires Pending(events, i, digest) && IsApproval(e, i)
    ensures Cleared(events + [e], |events| + 1, i, digest)
  {
    var more := events + [e];
    var j :| 0 <= j < |events| && IsBoundPolicy(events[j], i, digest);
    assert more[|events|] == e && more[j] == events[j];
    assert ApprovedAfter(more, j, |more|, i);
    assert ClearedBy(more, j, |more|, i, digest);
  }

  // ---------------------------------------------------------------- one step

  predicate BeforeClearance(p: Phase) {
    p in {Proposing, Evaluating, RecordingPolicy, SeekingApproval, RequestingApproval, RecordingApproval}
  }

  /** A move of a call that is past clearance stays past it; it enters `Invoking` only by recording the
      start, and invokes only from there. */
  predicate Onward(i: nat, c: Call, m: Move) {
    && m.after.action == c.action && !BeforeClearance(m.after.phase)
    && (m.after.phase == Invoking ==> m.write.Append? && IsStart(m.write.event, i, c.action.digest))
    && (m.write.Append? ==> m.write.event.call == i && m.write.event.digest == c.action.digest)
    && (m.write.Invoke? ==> c.phase == Invoking && m.write.effect.call == i)
  }

  lemma PrepareOnward(cfg: Config, s: State, i: nat, c: Call, ans: Answer)
    requires StageOf(c.phase) in {Preparing, Refused} && !BeforeClearance(c.phase) && !IsRevoking(c.phase)
    ensures Onward(i, c, Prepare(cfg, s, i, c, ans))
  {
  }

  lemma RevokeOnward(cfg: Config, i: nat, c: Call, ans: Answer)
    requires IsRevoking(c.phase)
    ensures Onward(i, c, RevokeLease(cfg, ans, i, c))
  {
  }

  lemma InvokeOnward(cfg: Config, i: nat, c: Call, ans: Answer)
    requires c.phase == Invoking
    ensures Onward(i, c, InvokeExecutor(cfg, ans, i, c))
  {
    hide ValidResult, ModeOf;
  }

  lemma PerformOnward(cfg: Config, s: State, i: nat, c: Call, ans: Answer)
    ensures Onward(i, c, Perform(cfg, s, i, c, ans))
  {
    hide InvokeExecutor, Replace, Create, Complete, NewAttempt, Outcome, AttemptIdOf;
    if c.phase == Invoking { InvokeOnward(cfg, i, c, ans); }
  }

  lemma DeliverOnward(i: nat, c: Call, ans: Answer)
    ensures Onward(i, c, Deliver(i, c, ans))
  {
  }

  /** Where a call is after a step, if it was still before clearance. */
  lemma ClearingMove(cfg: Config, s: State, i: nat, c: Call, ans: Answer)
    requires BeforeClearance(c.phase) && ClearanceOk(s.events, i, c)
    ensures var m := Prepare(cfg, s, i, c, ans);
            && ClearanceOk(Apply(s, m.write).events, i, m.after)
            && !m.write.Invoke? && m.after.action == c.action
            && (m.write.Append? ==> m.write.event.call == i && m.write.event.digest == c.action.digest
                                    && !m.write.event.body.ExecutionStarted?)
  {
    hide Cleared, Pending, StartRecorded;
    var m := Prepare(cfg, s, i, c, ans);
    if m.write.Append? {
      var e := m.write.event;
      if c.phase == RecordingPolicy {
        if c.policy.value.outcome == Allow { AllowClears(s.events, e, i, c.action.digest); }
        if c.policy.value.outcome != Deny { PendingStays(s.events, e, i, c.action.digest); }
      } else if c.phase == RecordingApproval && c.approval.value.approved {
        ApprovalClears(s.events, e, i, c.action.digest);
      }
    }
  }

  /** The move leaves the call cleared as far as its phase says; a start it records has been cleared, an
      executor it invokes has its start recorded. */
  ghost predicate Keeps(s: State, i: nat, c: Call, m: Move) {
    && ClearanceOk(Apply(s, m.write).events, i, m.after) && m.after.action == c.action
    && (m.write.Append? ==>
          && m.write.event.call == i && m.write.event.digest == c.action.digest
          && (m.write.event.body.ExecutionStarted? ==> Cleared(s.events, |s.events|, i, c.action.digest)))
    && (m.write.Invoke? ==> m.write.effect.call == i && StartRecorded(s.events, i, c.action.digest))
  }

  lemma OnwardKeeps(s: State, i: nat, c: Call, m: Move)
    requires ClearanceOk(s.events, i, c) && !BeforeClearance(c.phase) && c.phase != Raised && Onward(i, c, m)
    ensures Keeps(s, i, c, m)
  {
    hide Cleared, Pending, StartRecorded;
    var digest := c.action.digest;
    if m.write.Append? {
      ClearedStays(s.events, m.write.event, |s.events|, i, digest);
      if IsStart(m.write.event, i, digest) { StartStays(s.events, m.write.event, i, digest); }
    }
  }

  lemma PlanKeeps(cfg: Config, s: State, i: nat, c: Call, ans: Answer)
    requires ClearanceOk(s.events, i, c)
    ensures Keeps(s, i, c, Plan(cfg, s, i, c, ans))
  {
    hide ClearanceOk, Onward, Prepare, Perform, Deliver, RevokeLease, Cleared, StartRecorded, Apply;
    var m := Plan(cfg, s, i, c, ans);
    if BeforeClearance(c.phase) { ClearingMove(cfg, s, i, c, ans); }
    else if m == Move(Nothing, c) { StutterKeeps(s, i, c); }
    else {
      if IsRevoking(c.phase) { RevokeOnward(cfg, i, c, ans); }
      else if StageOf(c.phase) in {Preparing, Refused} { PrepareOnward(cfg, s, i, c, ans); }
      else if StageOf(c.phase) == Delivering { DeliverOnward(i, c, ans); }
      else { PerformOnward(cfg, s, i, c, ans); }
      OnwardKeeps(s, i, c, m);
    }
  }

  lemma StutterKeeps(s: State, i: nat, c: Call)
    requires ClearanceOk(s.events, i, c)
    ensures Keeps(s, i, c, Move(Nothing, c))
  {
    hide ClearanceOk;
  }

  lemma ActKeeps(cfg: Config, s: State, i: nat, ans: Answer)
    requires i < |s.calls| && ClearanceOk(s.events, i, s.calls[i])
    ensures Keeps(s, i, s.calls[i], Act(cfg, s, i, ans))
  {
    hide Plan, Cleared, Pending, StartRecorded;
    PlanKeeps(cfg, s, i, s.calls[i], ans);
  }

  // ---------------------------------------------------------------- all calls, all events, all effects

  lemma NextClearances(s: State, i: nat, m: Move)
    requires ClearancesOk(s) && i < |s.calls| && Keeps(s, i, s.calls[i], m)
    ensures ClearancesOk(Apply(s, m.write).(calls := s.calls[i := m.after]))
  {
    hide ClearanceOk;
    var next := Apply(s, m.write).(calls := s.calls[i := m.after]);
    forall j | 0 <= j < |next.calls| ensures ClearanceOk(next.events, j, next.calls[j]) {
      if j != i && m.write.Append? { ClearanceStays(s.events, m.write.event, j, s.calls[j]); }
    }
  }

  lemma NextStarts(s: State, i: nat, m: Move)
    requires StartsCleared(s.events) && i < |s.calls| && Keeps(s, i, s.calls[i], m)
    ensures StartsCleared(Apply(s, m.write).events)
  {
    hide ClearanceOk, Cleared, StartRecorded;
    var next := Apply(s, m.write).events;
    forall n | 0 <= n < |next| && next[n].body.ExecutionStarted?
      ensures Cleared(next, n, next[n].call, next[n].digest) {
      if m.write.Append? { ClearedStays(s.events, m.write.event, n, next[n].call, next[n].digest); }
    }
  }

  lemma NextEffectsStarted(s: State, i: nat, m: Move)
    requires EffectsStarted(s) && i < |s.calls| && Keeps(s, i, s.calls[i], m)
    ensures EffectsStarted(Apply(s, m.write).(calls := s.calls[i := m.after]))
  {
    hide ClearanceOk, Cleared, StartRecorded;
    var next := Apply(s, m.write).(calls := s.calls[i := m.after]);
    forall n | 0 <= n < |next.effects|
      ensures next.effects[n].call < |next.calls|
      ensures StartRecorded(next.events, next.effects[n].call, next.calls[next.effects[n].call].action.digest)
    {
      if m.write.Append? {
        StartStays(s.events, m.write.event, s.effects[n].call, s.calls[s.effects[n].call].action.digest);
      }
    }
  }

  lemma NextAuthorized(cfg: Config, s: State, i: nat, ans: Answer)
    requires Authorized(s) && i < |s.calls|
    ensures Authorized(Next(cfg, s, i, ans))
  {
    hide StartsCleared, EffectsStarted, ClearanceOk, Act, Keeps;
    ActKeeps(cfg, s, i, ans);
    var m := Act(cfg, s, i, ans);
    NextClearances(s, i, m);
    NextStarts(s, i, m);
    NextEffectsStarted(s, i, m);
  }

  lemma {:induction false} AfterAuthorized(cfg: Config, s: State, run: seq<Turn>)
    requires Authorized(s) && Schedulable(run, |s.calls|)
    ensures Authorized(After(cfg, s, run))
    decreases |run|
  {
    hide Authorized, Next;
    if run != [] {
      NextAuthorized(cfg, s, run[0].call, run[0].answer);
      NextKeepsCalls(cfg, s, run[0].call, run[0].answer);
      AfterAuthorized(cfg, Next(cfg, s, run[0].call, run[0].answer), run[1..]);
    }
  }

  /** Every recorded start follows, in the same call, a policy event bound to the action's digest that
      does not deny and, when it requires approval, an approved approval event after that. */
  lemma StartsAreAuthorized(cfg: Config, requests: seq<Request>, s: State, n: nat) returns (j: nat)
    requires Reachable(cfg, requests, s) && n < |s.events| && s.events[n].body.ExecutionStarted?
    ensures j < n && ClearedBy(s.events, j, n, s.events[n].call, s.events[n].digest)
  {
    var run :| Schedulable(run, |requests|) && After(cfg, Initial(requests), run) == s;
    InitialAuthorized(requests);
    AfterAuthorized(cfg, Initial(requests), run);
    j :| 0 <= j < n && ClearedBy(s.events, j, n, s.events[n].call, s.events[n].digest);
  }

  /** Every invocation of an executor has its start on record, for the action the call was made with. */
  lemma EffectsAreRecorded(cfg: Config, requests: seq<Request>, s: State, n: nat) returns (k: nat)
    requires Reachable(cfg, requests, s) && n < |s.effects|
    ensures s.effects[n].call < |s.calls| && k < |s.events|
    ensures IsStart(s.events[k], s.effects[n].call, s.calls[s.effects[n].call].action.digest)
  {
    var run :| Schedulable(run, |requests|) && After(cfg, Initial(requests), run) == s;
    InitialAuthorized(requests);
    AfterAuthorized(cfg, Initial(requests), run);
    assert StartRecorded(s.events, s.effects[n].call, s.calls[s.effects[n].call].action.digest);
    k :| 0 <= k < |s.events| && IsStart(s.events[k], s.effects[n].call, s.calls[s.effects[n].call].action.digest);
  }
}
