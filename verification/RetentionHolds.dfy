/** What holds, releases and policies do over the events of a run: a hold stands from its placement to its approved
    release, nothing it covers is deleted meanwhile, only approved policies are in force, and what no hold covers
    and the policy lets go is deleted. */
module RetentionHolds {
  import opened Common
  import opened RetentionRules
  import opened Retention

  // ---------------------------------------------------------------- runs, seen from their last event

  lemma {:induction false} OneMoreEvent(s: State, run: seq<Event>, e: Event, from: Time)
    requires Possible(s, run + [e], from)
    ensures Possible(s, run, from) && Enabled(After(s, run, from), e.op)
    ensures After(s, run + [e], from) == Step(After(s, run, from), e.op, e.now)
    decreases |run|
  {
    hide Step;
    if run == [] {
      assert (run + [e])[1..] == [];
    } else {
      assert (run + [e])[1..] == run[1..] + [e];
      OneMoreEvent(Step(s, run[0].op, run[0].now), run[1..], e, run[0].now);
    }
  }

  lemma LastEvent(s: State, run: seq<Event>, from: Time)
    requires run != [] && Possible(s, run, from)
    ensures var front, e := run[..|run| - 1], run[|run| - 1];
            && Possible(s, front, from) && Enabled(After(s, front, from), e.op)
            && After(s, run, from) == Step(After(s, front, from), e.op, e.now)
  {
    hide Possible, After;
    var front, e := run[..|run| - 1], run[|run| - 1];
    assert run == front + [e];
    OneMoreEvent(s, front, e, from);
  }

  // ---------------------------------------------------------------- holds

  /** The event places this hold, if its id is new. */
  predicate Places(tenantId: string, e: Event, h: Hold) {
    e.op == PlaceHold(h) && h.active && h.tenantId == tenantId
  }

  /** The event is an approved release of the hold, not before its placement. */
  predicate Frees(e: Event, h: Hold) {
    e.op == ReleaseHold(h.holdId, true) && h.placedAt <= e.now
  }

  ghost predicate TakenBefore(tenantId: string, run: seq<Event>, n: nat, id: nat) {
    exists k, g :: 0 <= k < n && k < |run| && Places(tenantId, run[k], g) && g.holdId == id
  }

  ghost predicate StandsSince(tenantId: string, run: seq<Event>, k: nat, h: Hold) {
    && k < |run| && Places(tenantId, run[k], h) && !TakenBefore(tenantId, run, k, h.holdId)
    && forall j | k < j < |run| :: !Frees(run[j], h)
  }

  /** The hold was placed, under a new id, and not released since with an approval. */
  ghost predicate Stands(tenantId: string, run: seq<Event>, h: Hold) {
    exists k :: StandsSince(tenantId, run, k, h)
  }

  predicate Active(s: State, h: Hold) {
    h.active && h.holdId in s.holds && s.holds[h.holdId] == h
  }

  lemma TakenGrows(tenantId: string, run: seq<Event>, e: Event, id: nat)
    ensures TakenBefore(tenantId, run + [e], |run| + 1, id)
       <==> TakenBefore(tenantId, run, |run|, id) || exists g :: Places(tenantId, e, g) && g.holdId == id
    ensures forall k: nat | k <= |run| :: TakenBefore(tenantId, run + [e], k, id) <==> TakenBefore(tenantId, run, k, id)
  {
    hide Places;
    var longer := run + [e];
    assert longer[|run|] == e && forall k | 0 <= k < |run| :: longer[k] == run[k];
    if k, g :| 0 <= k < |run| && Places(tenantId, run[k], g) && g.holdId == id {
      assert Places(tenantId, longer[k], g);
    }
    if g :| Places(tenantId, e, g) && g.holdId == id { assert Places(tenantId, longer[|run|], g); }
  }

  lemma StandsGrows(tenantId: string, run: seq<Event>, e: Event, h: Hold)
    ensures Stands(tenantId, run + [e], h)
       <==> || (Stands(tenantId, run, h) && !Frees(e, h))
            || (Places(tenantId, e, h) && !TakenBefore(tenantId, run, |run|, h.holdId))
  {
    hide Places, Frees, TakenBefore;
    var longer := run + [e];
    TakenGrows(tenantId, run, e, h.holdId);
    assert longer[|run|] == e && forall k | 0 <= k < |run| :: longer[k] == run[k];
    if k: nat :| StandsSince(tenantId, run, k, h) && !Frees(e, h) { assert StandsSince(tenantId, longer, k, h); }
    if Places(tenantId, e, h) && !TakenBefore(tenantId, run, |run|, h.holdId) {
      assert StandsSince(tenantId, longer, |run|, h);
    }
    if k: nat :| StandsSince(tenantId, longer, k, h) {
      if k < |run| { assert StandsSince(tenantId, run, k, h); }
    }
  }

  lemma StepOnHolds(s: State, e: Event, h: Hold)
    requires e.op.Begin? ==> |e.op.ids| == |e.op.candidates|
    ensures var t := Step(s, e.op, e.now);
            && t.tenantId == s.tenantId
            && (Active(t, h) <==>
                  || (Active(s, h) && !Frees(e, h))
                  || (Places(s.tenantId, e, h) && h.holdId !in s.holds))
            && (forall id :: id in t.holds <==>
                  id in s.holds || exists g :: Places(s.tenantId, e, g) && g.holdId == id)
  {
    hide IntentLog, Intents, CurrentPolicy, Confirmed;
  }

  ghost predicate HoldsAre(tenantId: string, run: seq<Event>, s: State) {
    && s.tenantId == tenantId
    && (forall h :: Active(s, h) <==> Stands(tenantId, run, h))
    && (forall id: nat :: id in s.holds <==> TakenBefore(tenantId, run, |run|, id))
  }

  lemma HoldsStep(tenantId: string, run: seq<Event>, s: State, e: Event)
    requires HoldsAre(tenantId, run, s) && (e.op.Begin? ==> |e.op.ids| == |e.op.candidates|)
    ensures HoldsAre(tenantId, run + [e], Step(s, e.op, e.now))
  {
    hide Stands, TakenBefore, Active, Places, Frees, Step;
    var t := Step(s, e.op, e.now);
    forall h ensures Active(t, h) <==> Stands(tenantId, run + [e], h) {
      StepOnHolds(s, e, h);
      StandsGrows(tenantId, run, e, h);
    }
    forall id: nat ensures id in t.holds <==> TakenBefore(tenantId, run + [e], |run + [e]|, id) {
      TakenGrows(tenantId, run, e, id);
      var h: Hold :| true;
      StepOnHolds(s, e, h);
    }
    var h: Hold :| true;
    StepOnHolds(s, e, h);
  }

  lemma {:induction false} HoldsOf(tenantId: string, run: seq<Event>, from: Time)
    requires Possible(Empty(tenantId), run, from)
    ensures HoldsAre(tenantId, run, After(Empty(tenantId), run, from))
    decreases |run|
  {
    hide Possible, After, HoldsAre;
    if run == [] {
      assert HoldsAre(tenantId, run, After(Empty(tenantId), run, from)) by { NoHolds(tenantId, from); }
    } else {
      var front, e := run[..|run| - 1], run[|run| - 1];
      LastEvent(Empty(tenantId), run, from);
      HoldsOf(tenantId, front, from);
      assert run == front + [e];
      HoldsStep(tenantId, front, After(Empty(tenantId), front, from), e);
    }
  }

  lemma NoHolds(tenantId: string, from: Time)
    ensures Possible(Empty(tenantId), [], from)
    ensures HoldsAre(tenantId, [], After(Empty(tenantId), [], from))
  {
  }

  /** Over every run: a hold is active exactly when an event placed it under a new id and no approved release,
      at or after its placement, has come since. A new hold is active at once; an unapproved release does nothing. */
  lemma HoldStandsExactlyWhen(tenantId: string, run: seq<Event>, from: Time, h: Hold)
    requires Possible(Empty(tenantId), run, from)
    ensures Active(After(Empty(tenantId), run, from), h) <==> Stands(tenantId, run, h)
  {
    hide Possible, After, Stands, Active;
    HoldsOf(tenantId, run, from);
  }

  // ---------------------------------------------------------------- what a hold protects

  /** The adapter is called for the candidate in what `longer` adds to `log`. */
  ghost predicate CallsFor(log: seq<Entry>, longer: seq<Entry>, c: Candidate) {
    exists n :: |log| <= n < |longer| && longer[n].AdapterCalled? && longer[n].call.candidate == c
  }

  lemma HeldNeverDeletes(holds: Holds, h: Hold, p: Policy, c: Candidate, now: Time)
    requires h.active && h.holdId in holds && holds[h.holdId] == h && h.Covers(c)
    ensures !Deletes(p, holds, c, now)
  {
    DecisionIsSound(p, holds, c, now);
    assert holds[h.holdId].AppliesTo(c);
  }

  lemma {:induction false} IntentsOnly(p: Policy, holds: Holds, cs: seq<Candidate>, ids: seq<nat>, now: Time)
    requires |ids| == |cs|
    ensures forall e | e in IntentLog(p, holds, cs, ids, now) :: !e.AdapterCalled?
  {
    if cs != [] { IntentsOnly(p, holds, cs[..|cs| - 1], ids[..|cs| - 1], now); }
  }

  /** While a hold is active, no step has the adapter delete what it covers. */
  lemma HoldProtectsStep(s: State, op: Op, now: Time, h: Hold, c: Candidate)
    requires Active(s, h) && h.Covers(c) && (op.Begin? ==> |op.ids| == |op.candidates|)
    ensures s.log <= Step(s, op, now).log && !CallsFor(s.log, Step(s, op, now).log, c)
  {
    hide IntentLog, Intents, CurrentPolicy, Deletes;
    forall p ensures !Deletes(p, s.holds, c, now) { HeldNeverDeletes(s.holds, h, p, c, now); }
    if op.Begin? {
      var p := CurrentPolicy(s.policies, now);
      if p.Some? { IntentsOnly(p.value, s.holds, op.candidates, op.ids, now); }
    }
  }

  /** A hold that is placed and not released with an approval stays as it was placed, and nothing it covers is
      deleted, whatever else the run does: other holds, policies, unapproved releases, intents made before. */
  lemma UnreleasedHoldProtects(s: State, h: Hold, now: Time, rest: seq<Event>)
    requires h.active && h.tenantId == s.tenantId && h.holdId !in s.holds
    requires Possible(Step(s, PlaceHold(h), now), rest, now)
    requires forall j | 0 <= j < |rest| :: rest[j].op != ReleaseHold(h.holdId, true)
    ensures var t := After(Step(s, PlaceHold(h), now), rest, now);
            && h.holdId in t.holds && t.holds[h.holdId] == h
            && forall c | h.Covers(c) :: !CallsFor(s.log, t.log, c)
  {
    hide Possible, After, CallsFor;
    var u := Step(s, PlaceHold(h), now);
    assert u.log == s.log + [HoldPlaced(h)];
    assert forall c :: !CallsFor(s.log, u.log, c) by { JustPlaced(s.log, h); }
    ActiveHoldProtects(u, h, rest, now);
    forall c | h.Covers(c) ensures !CallsFor(s.log, After(u, rest, now).log, c) {
      StillNotCalled(s.log, u.log, After(u, rest, now).log, c);
    }
  }

  lemma StillNotCalled(log: seq<Entry>, more: seq<Entry>, most: seq<Entry>, c: Candidate)
    requires log <= more <= most
    ensures CallsFor(log, most, c) ==> CallsFor(log, more, c) || CallsFor(more, most, c)
  {
    if n :| |log| <= n < |most| && most[n].AdapterCalled? && most[n].call.candidate == c {
      if n < |more| { assert more[n] == most[n]; }
    }
  }

  lemma {:induction false} ActiveHoldProtects(s: State, h: Hold, rest: seq<Event>, from: Time)
    requires Active(s, h) && Possible(s, rest, from)
    requires forall j | 0 <= j < |rest| :: rest[j].op != ReleaseHold(h.holdId, true)
    ensures var t := After(s, rest, from);
            Active(t, h) && s.log <= t.log && forall c | h.Covers(c) :: !CallsFor(s.log, t.log, c)
    decreases |rest|
  {
    hide Step, CallsFor;
    if rest == [] {
      forall c ensures !CallsFor(s.log, s.log, c) { NoCalls(s.log, c); }
    } else {
      hide Active;
      var e, t := rest[0], Step(s, rest[0].op, rest[0].now);
      StepOnHolds(s, e, h);
      assert !Frees(e, h) by { assert rest[0].op != ReleaseHold(h.holdId, true); }
      assert s.log <= t.log by { HoldGrows(s, e, h); }
      ActiveHoldProtects(t, h, rest[1..], e.now);
      forall c | h.Covers(c) ensures !CallsFor(s.log, After(t, rest[1..], e.now).log, c) {
        HoldProtectsStep(s, e.op, e.now, h, c);
        StillNotCalled(s.log, t.log, After(t, rest[1..], e.now).log, c);
      }
    }
  }

  lemma JustPlaced(log: seq<Entry>, h: Hold)
    ensures forall c :: !CallsFor(log, log + [HoldPlaced(h)], c)
  {
  }

  lemma NoCalls(log: seq<Entry>, c: Candidate)
    ensures !CallsFor(log, log, c)
  {
  }

  lemma HoldGrows(s: State, e: Event, h: Hold)
    requires e.op.Begin? ==> |e.op.ids| == |e.op.candidates|
    ensures s.log <= Step(s, e.op, e.now).log
  {
    hide IntentLog, Intents, CurrentPolicy, Confirmed;
  }

  /** Over every run: no deletion while a hold stands, by its events, over the resource. */
  lemma NoDeletionUnderHold(tenantId: string, run: seq<Event>, from: Time, e: Event, h: Hold, c: Candidate)
    requires Possible(Empty(tenantId), run + [e], from) && Stands(tenantId, run, h) && h.Covers(c)
    ensures Possible(Empty(tenantId), run, from)
    ensures !CallsFor(After(Empty(tenantId), run, from).log, After(Empty(tenantId), run + [e], from).log, c)
  {
    hide Possible, After, Stands, CallsFor, Step;
    OneMoreEvent(Empty(tenantId), run, e, from);
    HoldStandsExactlyWhen(tenantId, run, from, h);
    HoldProtectsStep(After(Empty(tenantId), run, from), e.op, e.now, h, c);
  }

  // ---------------------------------------------------------------- policies

  /** The event applies this policy, approved, as the revision after `n` others. */
  predicate Applies(tenantId: string, e: Event, p: Policy, n: nat) {
    e.op == ApplyPolicy(p, true) && p.tenantId == tenantId && p.revision == n + 1
  }

  lemma StepOnPolicies(s: State, e: Event)
    requires e.op.Begin? ==> |e.op.ids| == |e.op.candidates|
    ensures var t := Step(s, e.op, e.now);
            if e.op.ApplyPolicy? && Applies(s.tenantId, e, e.op.policy, |s.policies|)
            then t.policies == s.policies + [e.op.policy] && t.tenantId == s.tenantId
            else t.policies == s.policies && t.tenantId == s.tenantId
  {
    hide IntentLog, Intents, CurrentPolicy, Confirmed;
  }

  /** `n` policies were applied by then, and `p` is the next, applied at event `k`. */
  ghost predicate AppliedAt(tenantId: string, run: seq<Event>, from: Time, k: nat, p: Policy) {
    && k < |run| && Possible(Empty(tenantId), run[..k], from)
    && Applies(tenantId, run[k], p, |After(Empty(tenantId), run[..k], from).policies|)
  }

  ghost predicate Applied(tenantId: string, run: seq<Event>, from: Time, p: Policy) {
    exists k :: AppliedAt(tenantId, run, from, k, p)
  }

  lemma AppliedGrows(tenantId: string, run: seq<Event>, from: Time, e: Event, p: Policy)
    requires Possible(Empty(tenantId), run, from)
    ensures Applied(tenantId, run + [e], from, p)
       <==> Applied(tenantId, run, from, p)
            || Applies(tenantId, e, p, |After(Empty(tenantId), run, from).policies|)
  {
    hide Possible, After, Applies;
    var longer := run + [e];
    assert longer[..|run|] == run && forall k | 0 <= k < |run| :: longer[..k] == run[..k];
    if k: nat :| AppliedAt(tenantId, run, from, k, p) { assert AppliedAt(tenantId, longer, from, k, p); }
    if Applies(tenantId, e, p, |After(Empty(tenantId), run, from).policies|) {
      assert AppliedAt(tenantId, longer, from, |run|, p);
    }
    if k: nat :| AppliedAt(tenantId, longer, from, k, p) {
      if k < |run| { assert AppliedAt(tenantId, run, from, k, p); }
    }
  }

  /** Over every run: the tenant's policies are exactly those an approved application made the next revision, and
      they are in force, as `CurrentPolicyIsLatest` says, from then on. */
  lemma {:induction false} PoliciesExactlyApplied(tenantId: string, run: seq<Event>, from: Time)
    requires Possible(Empty(tenantId), run, from)
    ensures var t := After(Empty(tenantId), run, from);
            && t.tenantId == tenantId
            && RevisionsAscend(t.policies)
            && forall p :: p in t.policies <==> Applied(tenantId, run, from, p)
    decreases |run|
  {
    hide Possible, After, Applied, Step;
    if run == [] {
      NothingHappened(tenantId, from);
      forall p ensures !Applied(tenantId, [], from, p) { NoneApplied(tenantId, from, p); }
    } else {
      var front, e := run[..|run| - 1], run[|run| - 1];
      LastEvent(Empty(tenantId), run, from);
      PoliciesExactlyApplied(tenantId, front, from);
      assert run == front + [e];
      StepOnPolicies(After(Empty(tenantId), front, from), e);
      forall p ensures p in After(Empty(tenantId), run, from).policies <==> Applied(tenantId, run, from, p) {
        AppliedGrows(tenantId, front, from, e, p);
      }
    }
  }

  lemma NothingHappened(tenantId: string, from: Time)
    ensures Possible(Empty(tenantId), [], from) && After(Empty(tenantId), [], from) == Empty(tenantId)
  {
  }

  lemma NoneApplied(tenantId: string, from: Time, p: Policy)
    ensures !Applied(tenantId, [], from, p)
  {
  }

  // ---------------------------------------------------------------- what is deleted

  /** `q` is in force among the policies: of those effective by now the latest, and of these the last revision. */
  ghost predicate Rules(policies: seq<Policy>, q: Policy, now: Time) {
    && q in policies && q.effectiveAt <= now
    && forall p | p in policies && p.effectiveAt <= now && p != q ::
         p.effectiveAt < q.effectiveAt || (p.effectiveAt == q.effectiveAt && p.revision < q.revision)
  }

  /** No hold covers the candidate, and the policy's retention and grace for it have run out. */
  ghost predicate MayGo(s: State, q: Policy, c: Candidate, now: Time) {
    c.tenantId == q.tenantId && !UnderHold(s.holds, c) && Elapsed(q, c, now)
  }

  lemma RulesIsCurrent(policies: seq<Policy>, q: Policy, now: Time)
    requires RevisionsAscend(policies)
    ensures Rules(policies, q, now) <==> CurrentPolicy(policies, now) == Some(q)
  {
    CurrentPolicyIsLatest(policies, now);
  }

  /** Which of its four ends a deletion transaction comes to. */
  lemma TakenUpIntent(s: State, w: nat, fate: Fate, now: Time, q: Policy)
    requires RevisionsAscend(s.policies) && Rules(s.policies, q, now)
    requires w < |s.workers| && s.workers[w].next < |s.workers[w].pending|
    requires s.workers[w].pending[s.workers[w].next].candidate.tenantId == q.tenantId
    ensures var intent := s.workers[w].pending[s.workers[w].next];
            var confirmed :=
              MayGo(s, q, intent.candidate, now) && intent.policyId == q.policyId && intent.revision == q.revision;
            Step(s, DeleteNext(w, fate), now).log == s.log +
              if confirmed then
                match fate
                case RolledBack(deleted) => if deleted then [AdapterCalled(intent, now)] else []
                case _ => [AdapterCalled(intent, now), Executed(intent.executionId)]
              else if fate.RolledBack? then [] else [Cancelled(intent.executionId)]
  {
    hide CurrentPolicy, DecisionFor, UnderHold, Elapsed, Rules;
    RulesIsCurrent(s.policies, q, now);
    var intent := s.workers[w].pending[s.workers[w].next];
    DecisionIsSound(q, s.holds, intent.candidate, now);
    assert s.log + [] == s.log;
  }

  lemma {:induction false} IntentsAre(q: Policy, holds: Holds, cs: seq<Candidate>, ids: seq<nat>, now: Time, p: Pending)
    requires |ids| == |cs|
    ensures p in Intents(q, holds, cs, ids, now) <==>
            exists i :: 0 <= i < |cs| && Deletes(q, holds, cs[i], now) &&
                        p == Pending(ids[i], cs[i], q.policyId, q.revision)
  {
    hide Deletes;
    if cs != [] {
      var n := |cs| - 1;
      IntentsAre(q, holds, cs[..n], ids[..n], now, p);
      assert cs == cs[..n] + [cs[n]] && ids == ids[..n] + [ids[n]];
      if i :| 0 <= i < n && Deletes(q, holds, cs[..n][i], now)
              && p == Pending(ids[..n][i], cs[..n][i], q.policyId, q.revision) {
        assert Deletes(q, holds, cs[i], now) && p == Pending(ids[i], cs[i], q.policyId, q.revision);
      }
    }
  }

  /** Each intent deleted and recorded. */
  function Deletions(ps: seq<Pending>, now: Time): seq<Entry> {
    if ps == [] then [] else [AdapterCalled(ps[0], now), Executed(ps[0].executionId)] + Deletions(ps[1..], now)
  }

  lemma {:induction false} DeletionsAre(ps: seq<Pending>, now: Time, p: Pending)
    ensures AdapterCalled(p, now) in Deletions(ps, now) <==> p in ps
    ensures p in ps ==> Executed(p.executionId) in Deletions(ps, now)
    ensures forall e | e in Deletions(ps, now) :: e.AdapterCalled? ==> e.at == now && e.call in ps
  {
    if ps != [] {
      DeletionsAre(ps[1..], now, p);
      assert ps == [ps[0]] + ps[1..];
    }
  }

  function Rounds(w: nat, now: Time, n: nat): seq<Event> {
    seq(n, _ => Event(DeleteNext(w, Committed), now))
  }

  ghost predicate AllConfirmed(s: State, ps: seq<Pending>, q: Policy, now: Time) {
    forall p | p in ps ::
        MayGo(s, q, p.candidate, now) && p.policyId == q.policyId && p.revision == q.revision
  }

  lemma {:induction false} Drain(s: State, w: nat, q: Policy, now: Time)
    requires RevisionsAscend(s.policies) && Rules(s.policies, q, now) && w < |s.workers|
    requires s.workers[w].next <= |s.workers[w].pending|
    requires AllConfirmed(s, s.workers[w].pending[s.workers[w].next..], q, now)
    ensures var left := s.workers[w].pending[s.workers[w].next..];
            var run := Rounds(w, now, |left|);
            && Possible(s, run, now) && After(s, run, now).log == s.log + Deletions(left, now)
    decreases |s.workers[w].pending| - s.workers[w].next
  {
    hide Rules, MayGo, RevisionsAscend, Step;
    var worker := s.workers[w];
    var left := worker.pending[worker.next..];
    if left == [] {
      assert s.log + [] == s.log;
    } else {
      var t := Step(s, DeleteNext(w, Committed), now);
      assert left[0] in left && left[0] == worker.pending[worker.next];
      assert left[0].candidate.tenantId == q.tenantId by { OfItsTenant(s, q, left[0].candidate, now); }
      TakenUpIntent(s, w, Committed, now, q);
      MovesToNext(s, w, now, q);
      assert t.workers[w].pending[t.workers[w].next..] == left[1..];
      forall p | p in left[1..] ensures MayGo(t, q, p.candidate, now) {
        assert p in left;
        SameHolds(s, t, q, p.candidate, now);
      }
      Drain(t, w, q, now);
      assert Rounds(w, now, |left|)[1..] == Rounds(w, now, |left| - 1);
      assert t.log + Deletions(left[1..], now) == s.log + Deletions(left, now);
    }
  }

  lemma OfItsTenant(s: State, q: Policy, c: Candidate, now: Time)
    requires MayGo(s, q, c, now)
    ensures c.tenantId == q.tenantId
  {
  }

  lemma SameHolds(s: State, t: State, q: Policy, c: Candidate, now: Time)
    requires MayGo(s, q, c, now) && t.holds == s.holds
    ensures MayGo(t, q, c, now)
  {
  }

  lemma MovesToNext(s: State, w: nat, now: Time, q: Policy)
    requires RevisionsAscend(s.policies) && Rules(s.policies, q, now)
    requires w < |s.workers| && s.workers[w].next < |s.workers[w].pending|
    requires s.workers[w].pending[s.workers[w].next].candidate.tenantId == q.tenantId
    ensures var t := Step(s, DeleteNext(w, Committed), now);
            && t.holds == s.holds && t.policies == s.policies && |t.workers| == |s.workers|
            && t.workers[w] == s.workers[w].(next := s.workers[w].next + 1)
  {
    hide CurrentPolicy, Deletes, Rules;
    RulesIsCurrent(s.policies, q, now);
  }

  /** Retention that nothing disturbs, from any state: of the candidates given, exactly those that no hold covers
      and whose retention and grace have run out are deleted, and their executions recorded. */
  lemma UndisturbedRetention(s: State, q: Policy, cs: seq<Candidate>, ids: seq<nat>, now: Time) returns (n: nat)
    requires RevisionsAscend(s.policies) && Rules(s.policies, q, now)
    requires UniqueCandidates(cs) && OfTenant(cs, q.tenantId) && Enabled(s, Begin(cs, ids))
    ensures var run := [Event(Begin(cs, ids), now)] + Rounds(|s.workers|, now, n);
            && Possible(s, run, now)
            && s.log <= After(s, run, now).log
            && var added := After(s, run, now).log[|s.log|..];
               && (forall i | 0 <= i < |cs| ::
                     var p := Pending(ids[i], cs[i], q.policyId, q.revision);
                     && (MayGo(s, q, cs[i], now) ==> AdapterCalled(p, now) in added && Executed(ids[i]) in added)
                     && (!MayGo(s, q, cs[i], now) ==> AdapterCalled(p, now) !in added))
               && (forall e | e in added && e.AdapterCalled? :: e.call.candidate in cs)
  {
    hide Rules, Possible, After, MayGo, Deletes, Intents, IntentLog, Enabled;
    RulesIsCurrent(s.policies, q, now);
    assert |ids| == |cs| && Distinct(ids) by { BeginNeeds(s, cs, ids); }
    var intents, u := Intents(q, s.holds, cs, ids, now), Step(s, Begin(cs, ids), now);
    var w := |s.workers|;
    n := |intents|;
    assert u == s.(log := s.log + IntentLog(q, s.holds, cs, ids, now), workers := s.workers + [Worker(intents, 0)]);
    forall p | p in intents
      ensures MayGo(u, q, p.candidate, now) && p.policyId == q.policyId && p.revision == q.revision
    {
      IntentsAre(q, s.holds, cs, ids, now, p);
      var i :| 0 <= i < |cs| && Deletes(q, s.holds, cs[i], now) && p == Pending(ids[i], cs[i], q.policyId, q.revision);
      DeletesWhatMayGo(s, q, cs[i], now);
      SameHolds(s, u, q, cs[i], now);
    }
    assert u.workers[w].pending[0..] == intents;
    Drain(u, w, q, now);
    var rest := Rounds(w, now, n);
    BeginThenRest(s, Event(Begin(cs, ids), now), rest);
    var t := After(s, [Event(Begin(cs, ids), now)] + rest, now);
    var log, deletions := IntentLog(q, s.holds, cs, ids, now), Deletions(intents, now);
    assert t.log == s.log + (log + deletions);
    var added := t.log[|s.log|..];
    assert added == log + deletions;
    IntentsOnly(q, s.holds, cs, ids, now);
    forall i | 0 <= i < |cs|
      ensures var p := Pending(ids[i], cs[i], q.policyId, q.revision);
              && (MayGo(s, q, cs[i], now) ==> AdapterCalled(p, now) in added && Executed(ids[i]) in added)
              && (!MayGo(s, q, cs[i], now) ==> AdapterCalled(p, now) !in added)
    {
      DeletesWhatMayGo(s, q, cs[i], now);
      var p := Pending(ids[i], cs[i], q.policyId, q.revision);
      IntentsAre(q, s.holds, cs, ids, now, p);
      DeletionsAre(intents, now, p);
      if p in intents {
        var j :| 0 <= j < |cs| && Deletes(q, s.holds, cs[j], now) &&
                 p == Pending(ids[j], cs[j], q.policyId, q.revision);
      }
    }
    forall e | e in added && e.AdapterCalled? ensures e.call.candidate in cs {
      assert e in deletions;
      DeletionsAre(intents, now, e.call);
      IntentsAre(q, s.holds, cs, ids, now, e.call);
    }
  }

  lemma BeginNeeds(s: State, cs: seq<Candidate>, ids: seq<nat>)
    requires Enabled(s, Begin(cs, ids))
    ensures |ids| == |cs| && Distinct(ids)
  {
  }

  lemma DeletesWhatMayGo(s: State, q: Policy, c: Candidate, now: Time)
    ensures Deletes(q, s.holds, c, now) <==> MayGo(s, q, c, now)
  {
    hide DecisionFor, UnderHold, Elapsed;
    DecisionIsSound(q, s.holds, c, now);
  }

  lemma BeginThenRest(s: State, e: Event, rest: seq<Event>)
    requires Enabled(s, e.op) && Possible(Step(s, e.op, e.now), rest, e.now)
    ensures Possible(s, [e] + rest, e.now)
    ensures After(s, [e] + rest, e.now) == After(Step(s, e.op, e.now), rest, e.now)
  {
    hide Step;
    assert ([e] + rest)[1..] == rest;
  }

  /** The intent transaction is refused, changing nothing, exactly for a repeated resource, without a policy in force,
      or for a candidate of another tenant. */
  lemma BeginExactlyWhen(s: State, cs: seq<Candidate>, ids: seq<nat>, now: Time)
    requires RevisionsAscend(s.policies) && |ids| == |cs|
    ensures Step(s, Begin(cs, ids), now) != s <==>
              UniqueCandidates(cs) && exists q :: Rules(s.policies, q, now) && OfTenant(cs, q.tenantId)
  {
    hide UniqueCandidates, Rules, CurrentPolicy, Intents, IntentLog, RevisionsAscend;
    forall q ensures Rules(s.policies, q, now) <==> CurrentPolicy(s.policies, now) == Some(q) {
      RulesIsCurrent(s.policies, q, now);
    }
    assert |Step(s, Begin(cs, ids), now).workers| > |s.workers| || Step(s, Begin(cs, ids), now) == s;
  }

  /** The record of a candidate's evaluation. */
  ghost function EvaluationOf(s: State, q: Policy, c: Candidate, now: Time): Entry {
    Evaluated(c, if MayGo(s, q, c, now) then Delete else Retain)
  }

  lemma {:induction false} LogEvaluates(s: State, q: Policy, cs: seq<Candidate>, ids: seq<nat>, now: Time, c: Candidate)
    requires |ids| == |cs| && c in cs
    ensures EvaluationOf(s, q, c, now) in IntentLog(q, s.holds, cs, ids, now)
    decreases |cs|
  {
    hide Deletes, MayGo;
    var n := |cs| - 1;
    DeletesWhatMayGo(s, q, c, now);
    assert cs == cs[..n] + [cs[n]];
    if c in cs[..n] { LogEvaluates(s, q, cs[..n], ids[..n], now, c); }
  }

  /** Every candidate's evaluation is on record, with what was decided of it. */
  lemma EvaluationsRecorded(s: State, q: Policy, cs: seq<Candidate>, ids: seq<nat>, now: Time)
    requires RevisionsAscend(s.policies) && Rules(s.policies, q, now)
    requires UniqueCandidates(cs) && OfTenant(cs, q.tenantId) && |ids| == |cs|
    ensures forall c | c in cs :: EvaluationOf(s, q, c, now) in Step(s, Begin(cs, ids), now).log
  {
    hide Rules, MayGo, Intents, IntentLog;
    RulesIsCurrent(s.policies, q, now);
    forall c | c in cs ensures EvaluationOf(s, q, c, now) in Step(s, Begin(cs, ids), now).log {
      LogEvaluates(s, q, cs, ids, now, c);
    }
  }
}
