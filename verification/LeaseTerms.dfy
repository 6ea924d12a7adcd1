/** How long a grant of a resource lasts and what others are told meanwhile, over any run of calls. */
module LeaseTerms {
  import opened Common
  import opened Leases

  /** The call presents this grant, to renew or release it. */
  predicate Presents(op: Op, lease: FencedLease) {
    (op.Renew? || op.Release?) && op.lease.resource == lease.resource && op.lease.SameGrant(lease)
  }

  ghost predicate NonePresents(run: seq<Event>, lease: FencedLease) {
    forall i | 0 <= i < |run| :: !Presents(run[i].op, lease)
  }

  /** The store has just this lease for its resource, or has moved on from it after its end. */
  predicate KeptOrOver(slots: Slots, lease: FencedLease, now: Time) {
    var slot := SlotOf(slots, lease.resource);
    || slot.current == Some(lease)
    || (lease.expiresAt <= now && lease.fenceToken <= slot.fenceToken
        && (slot.current.Some? ==> slot.current.value.fenceToken != lease.fenceToken))
  }

  lemma StepKeeps(slots: Slots, op: Op, lease: FencedLease, before: Time, now: Time)
    requires WellFormed(slots) && before <= now && KeptOrOver(slots, lease, before) && !Presents(op, lease)
    ensures KeptOrOver(Step(slots, op, now).0, lease, now)
  {
  }

  lemma {:induction false} RunKeeps(slots: Slots, run: seq<Event>, lease: FencedLease, from: Time)
    requires WellFormed(slots) && KeptOrOver(slots, lease, from) && Monotone(run, from) && NonePresents(run, lease)
    ensures KeptOrOver(After(slots, run), lease, EndOf(run, from)) && from <= EndOf(run, from)
    decreases |run|
  {
    hide KeptOrOver, WellFormed, Step, Presents;
    if run != [] {
      StepKeeps(slots, run[0].op, lease, from, run[0].now);
      StepKeepsWellFormed(slots, run[0].op, run[0].now);
      RunKeeps(Step(slots, run[0].op, run[0].now).0, run[1..], lease, run[0].now);
    }
  }

  /** What the store answers to any acquire of a resource that is granted: the grant to its owner, `Busy` to others. */
  ghost predicate AnswersWith(slots: Slots, lease: FencedLease, now: Time) {
    forall owner, ttl, id | ValidInput(Acquire(lease.resource, owner, ttl, id)) ::
      var answer := Step(slots, Acquire(lease.resource, owner, ttl, id), now).1;
      answer == if owner == lease.ownerId then Held(lease) else Busy
  }

  /** A new grant is for the time asked for: unless its holder renews or releases it, it is current until exactly then,
      whatever other calls are made, and until then its owner is given it again and everybody else refused. */
  lemma GrantLastsItsTerm(slots: Slots, op: Op, now: Time, run: seq<Event>, later: Time)
    requires WellFormed(slots) && op.Acquire? && ValidInput(op)
    requires SlotOf(Step(slots, op, now).0, op.resource).fenceToken != SlotOf(slots, op.resource).fenceToken
    requires Monotone(run, now) && EndOf(run, now) <= later
    ensures var (next, outcome) := Step(slots, op, now);
            && outcome == Held(FencedLease(op.freshId, op.resource, op.ownerId,
                                           SlotOf(slots, op.resource).fenceToken + 1, now, now + op.ttl))
            && (NonePresents(run, outcome.lease) ==>
                  && (IsCurrent(After(next, run), outcome.lease, later) <==> later < now + op.ttl)
                  && (later < now + op.ttl ==> AnswersWith(After(next, run), outcome.lease, later)))
  {
    hide After;
    var (next, outcome) := Step(slots, op, now);
    StepKeepsWellFormed(slots, op, now);
    if NonePresents(run, outcome.lease) {
      RunKeeps(next, run, outcome.lease, now);
      RunKeepsForm(next, run);
      assert KeptOrOver(After(next, run), outcome.lease, EndOf(run, now));
    }
  }

  lemma {:induction false} RunKeepsForm(slots: Slots, run: seq<Event>)
    requires WellFormed(slots)
    ensures WellFormed(After(slots, run))
    decreases |run|
  {
    hide Step, WellFormed;
    if run != [] {
      StepKeepsWellFormed(slots, run[0].op, run[0].now);
      RunKeepsForm(Step(slots, run[0].op, run[0].now).0, run[1..]);
    }
  }

  ghost predicate SomeoneHolds(slots: Slots, r: Resource, now: Time) {
    exists lease: FencedLease :: lease.resource == r && IsCurrent(slots, lease, now)
  }

  /** A valid acquire is granted exactly when nobody holds the resource. */
  lemma GrantedExactlyWhenFree(slots: Slots, op: Op, now: Time)
    requires WellFormed(slots) && op.Acquire? && ValidInput(op)
    ensures SlotOf(Step(slots, op, now).0, op.resource).fenceToken != SlotOf(slots, op.resource).fenceToken
       <==> !SomeoneHolds(slots, op.resource, now)
  {
    var current := SlotOf(slots, op.resource).current;
    if current.Some? && !current.value.IsExpired(now) {
      assert IsCurrent(slots, current.value, now);
      assert current.value.resource == op.resource;
    }
  }

  /** A current lease can be released, at once, and then nobody holds the resource; no other lease can. */
  lemma ReleaseFrees(slots: Slots, lease: FencedLease, now: Time, later: Time)
    ensures Step(slots, Release(lease), now).1 == if IsCurrent(slots, lease, now) then Released else Lost
    ensures IsCurrent(slots, lease, now) ==> !SomeoneHolds(Step(slots, Release(lease), now).0, lease.resource, later)
    ensures forall other | other != lease.resource ::
              SlotOf(Step(slots, Release(lease), now).0, other) == SlotOf(slots, other)
  {
  }

  /** Refused as invalid, and without effect: a term that is not positive or over a day, or a blank name. */
  lemma InvalidExactlyWhen(slots: Slots, op: Op, now: Time)
    ensures Step(slots, op, now).1 == InvalidInput <==>
              match op
              case Acquire(r, owner, ttl, _) =>
                !(0 < ttl <= 86_400_000) || IsBlank(r.tenantId) || IsBlank(r.resourceKey) || IsBlank(owner)
              case Renew(_, ttl) => !(0 < ttl <= 86_400_000)
              case Release(_) => false
    ensures Step(slots, op, now).1 == InvalidInput ==> Step(slots, op, now).0 == slots
  {
  }

  /** A renewal, for a valid term, or a release is accepted exactly while the lease presented is the live one, by id,
      owner and token. */
  lemma PresentedExactlyWhen(slots: Slots, lease: FencedLease, ttl: Time, now: Time)
    ensures var current := SlotOf(slots, lease.resource).current;
            var live := && current.Some? && now < current.value.expiresAt
                        && current.value.leaseId == lease.leaseId && current.value.ownerId == lease.ownerId
                        && current.value.fenceToken == lease.fenceToken;
            && (Step(slots, Renew(lease, ttl), now).1.Held? <==> live && 0 < ttl <= 86_400_000)
            && (Step(slots, Release(lease), now).1.Released? <==> live)
  {
  }
}
