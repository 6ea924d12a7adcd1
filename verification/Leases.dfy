/** Fenced leases: exclusive, time-bounded ownership of a resource, with a token that grows at every grant. */
module Leases {
  import opened Common

  type Time = int

  const MAX_TTL: Time := 86_400_000 // milliseconds

  datatype Resource = Resource(tenantId: string, resourceKey: string)

  datatype FencedLease = FencedLease(
    leaseId: nat, resource: Resource, ownerId: string, fenceToken: nat, acquiredAt: Time, expiresAt: Time)
  {
    predicate IsExpired(now: Time) { now >= expiresAt }

    /** `_matches`: the identity that renewal and release compare. */
    predicate SameGrant(other: FencedLease) {
      leaseId == other.leaseId && ownerId == other.ownerId && fenceToken == other.fenceToken
    }
  }

  datatype Slot = Slot(fenceToken: nat, current: Option<FencedLease>)

  type Slots = map<Resource, Slot>

  datatype Op =
    | Acquire(resource: Resource, ownerId: string, ttl: Time, freshId: nat)
    | Renew(lease: FencedLease, ttl: Time)
    | Release(lease: FencedLease)

  datatype Outcome = InvalidInput | Busy | Held(lease: FencedLease) | Lost | Released

  function SlotOf(slots: Slots, r: Resource): Slot {
    if r in slots then slots[r] else Slot(0, None)
  }

  predicate IsCurrent(slots: Slots, lease: FencedLease, now: Time) {
    var current := SlotOf(slots, lease.resource).current;
    current.Some? && current.value.SameGrant(lease) && !current.value.IsExpired(now)
  }

  predicate ValidTtl(ttl: Time) { 0 < ttl <= MAX_TTL }

  predicate ValidInput(op: Op) {
    match op
    case Acquire(r, owner, ttl, _) => ValidTtl(ttl) && !IsBlank(r.tenantId) && !IsBlank(r.resourceKey)
        && !IsBlank(owner)
    case Renew(_, ttl) => ValidTtl(ttl)
    case Release(_) => true
  }

  /** One call under the store's lock. */
  function Step(slots: Slots, op: Op, now: Time): (Slots, Outcome) {
    if !ValidInput(op) then (slots, InvalidInput)
    else
      match op
      case Acquire(r, owner, ttl, id) =>
        var slot := SlotOf(slots, r);
        if slot.current.Some? && !slot.current.value.IsExpired(now) then
          (slots[r := slot], if slot.current.value.ownerId == owner then Held(slot.current.value) else Busy)
        else
          var lease := FencedLease(id, r, owner, slot.fenceToken + 1, now, now + ttl);
          (slots[r := Slot(slot.fenceToken + 1, Some(lease))], Held(lease))
      case Renew(lease, ttl) =>
        if !IsCurrent(slots, lease, now) then (slots, Lost)
        else
          var slot := SlotOf(slots, lease.resource);
          var renewed := slot.current.value.(expiresAt := now + ttl);
          (slots[lease.resource := slot.(current := Some(renewed))], Held(renewed))
      case Release(lease) =>
        if !IsCurrent(slots, lease, now) then (slots, Lost)
        else (slots[lease.resource := SlotOf(slots, lease.resource).(current := None)], Released)
  }

  /** What every reachable store satisfies: the current lease carries its slot's latest token. */
  ghost predicate WellFormed(slots: Slots) {
    forall r | r in slots && slots[r].current.Some? ::
      slots[r].current.value.fenceToken == slots[r].fenceToken > 0 && slots[r].current.value.resource == r
  }

  /** Calls in order, each at its own clock reading; the clock does not run backwards. */
  datatype Event = Event(op: Op, now: Time)

  ghost predicate Monotone(run: seq<Event>, from: Time) {
    run == [] || (from <= run[0].now && Monotone(run[1..], run[0].now))
  }

  function After(slots: Slots, run: seq<Event>): Slots
    decreases |run|
  {
    if run == [] then slots else After(Step(slots, run[0].op, run[0].now).0, run[1..])
  }

  function EndOf(run: seq<Event>, from: Time): Time {
    if run == [] then from else EndOf(run[1..], run[0].now)
  }

  lemma StepKeepsWellFormed(slots: Slots, op: Op, now: Time)
    requires WellFormed(slots)
    ensures WellFormed(Step(slots, op, now).0)
  {
  }

  /** At most one grant of a resource is current at a time. */
  lemma Exclusive(slots: Slots, a: FencedLease, b: FencedLease, now: Time)
    requires a.resource == b.resource && IsCurrent(slots, a, now) && IsCurrent(slots, b, now)
    ensures a.SameGrant(b)
  {
  }

  /** The tokens of the new grants of `r` made along a run, in order. */
  function Grants(slots: Slots, run: seq<Event>, r: Resource): seq<nat>
    decreases |run|
  {
    if run == [] then []
    else
      var next := Step(slots, run[0].op, run[0].now).0;
      (if SlotOf(next, r).fenceToken != SlotOf(slots, r).fenceToken then [SlotOf(next, r).fenceToken] else [])
      + Grants(next, run[1..], r)
  }

  /** A slot's token moves only when an `Acquire` hands out a new lease, which carries that token. */
  lemma TokenMovesOnlyOnGrant(slots: Slots, op: Op, now: Time, r: Resource)
    ensures var (next, outcome) := Step(slots, op, now);
            SlotOf(next, r).fenceToken != SlotOf(slots, r).fenceToken <==>
              && op.Acquire? && op.resource == r && outcome.Held?
              && outcome.lease.fenceToken == SlotOf(slots, r).fenceToken + 1 == SlotOf(next, r).fenceToken
              && IsCurrent(next, outcome.lease, now) && outcome.lease.ownerId == op.ownerId
  {
  }

  ghost predicate Increasing(tokens: seq<nat>, above: nat) {
    && (forall i | 0 <= i < |tokens| :: above < tokens[i])
    && (forall i, j | 0 <= i < j < |tokens| :: tokens[i] < tokens[j])
  }

  /** Across renewals, releases and expiries, new grants of a resource carry strictly increasing tokens. */
  lemma {:induction false} GrantsIncrease(slots: Slots, run: seq<Event>, r: Resource)
    ensures Increasing(Grants(slots, run, r), SlotOf(slots, r).fenceToken)
    ensures forall t | t in Grants(slots, run, r) :: t <= SlotOf(After(slots, run), r).fenceToken
    ensures SlotOf(slots, r).fenceToken <= SlotOf(After(slots, run), r).fenceToken
    decreases |run|
  {
    if run != [] {
      TokenMovesOnlyOnGrant(slots, run[0].op, run[0].now, r);
      GrantsIncrease(Step(slots, run[0].op, run[0].now).0, run[1..], r);
    }
  }

  /** A lease that was handed out, and is no longer current. */
  predicate Superseded(slots: Slots, lease: FencedLease, now: Time) {
    lease.fenceToken <= SlotOf(slots, lease.resource).fenceToken && !IsCurrent(slots, lease, now)
  }

  lemma StaysSuperseded(slots: Slots, op: Op, lease: FencedLease, before: Time, now: Time)
    requires WellFormed(slots) && Superseded(slots, lease, before) && before <= now
    ensures Superseded(Step(slots, op, now).0, lease, now)
  {
  }

  /** Whatever calls follow, a lease that stopped being current is never current again; in particular
      its holder can neither renew nor release. */
  lemma {:induction false} NeverCurrentAgain(slots: Slots, run: seq<Event>, lease: FencedLease, from: Time, later: Time)
    requires WellFormed(slots) && Superseded(slots, lease, from)
    requires Monotone(run, from) && EndOf(run, from) <= later
    ensures Superseded(After(slots, run), lease, later)
    ensures forall ttl | ValidTtl(ttl) :: Step(After(slots, run), Renew(lease, ttl), later).1 == Lost
    ensures Step(After(slots, run), Release(lease), later).1 == Lost
    decreases |run|
  {
    if run != [] {
      StaysSuperseded(slots, run[0].op, lease, from, run[0].now);
      StepKeepsWellFormed(slots, run[0].op, run[0].now);
      NeverCurrentAgain(Step(slots, run[0].op, run[0].now).0, run[1..], lease, run[0].now, later);
    }
  }

  /** Renewal extends the same grant: same token, same identity, no other resource touched. */
  lemma RenewalKeepsToken(slots: Slots, lease: FencedLease, ttl: Time, now: Time)
    requires WellFormed(slots) && ValidTtl(ttl) && IsCurrent(slots, lease, now)
    ensures var (next, outcome) := Step(slots, Renew(lease, ttl), now);
            && outcome.Held? && outcome.lease.SameGrant(lease) && outcome.lease.expiresAt == now + ttl
            && IsCurrent(next, lease, now + ttl - 1) && !IsCurrent(next, lease, now + ttl)
            && forall other | other != lease.resource :: SlotOf(next, other) == SlotOf(slots, other)
  {
  }

  class InMemoryLeaseStore {
    var slots: Slots

    ghost predicate Valid()
      reads this
    {
      WellFormed(slots)
    }

    constructor ()
      ensures Valid() && slots == map[]
    {
      slots := map[];
    }

    method AcquireLease(resource: Resource, ownerId: string, ttl: Time, freshId: nat, now: Time)
      returns (outcome: Outcome)
      requires Valid()
      modifies this
      ensures Valid()
      ensures (slots, outcome) == Step(old(slots), Acquire(resource, ownerId, ttl, freshId), now)
    {
      if !ValidTtl(ttl) || IsBlank(resource.tenantId) || IsBlank(resource.resourceKey) || IsBlank(ownerId) {
        return InvalidInput;
      }
      if resource !in slots {
        slots := slots[resource := Slot(0, None)];
      }
      var slot := slots[resource];
      assert slots == old(slots)[resource := slot];
      if slot.current.Some? && !slot.current.value.IsExpired(now) {
        return if slot.current.value.ownerId == ownerId then Held(slot.current.value) else Busy;
      }
      var token := slot.fenceToken + 1;
      var lease := FencedLease(freshId, resource, ownerId, token, now, now + ttl);
      slots := slots[resource := Slot(token, Some(lease))];
      assert slots == old(slots)[resource := Slot(token, Some(lease))];
      return Held(lease);
    }

    method RenewLease(lease: FencedLease, ttl: Time, now: Time) returns (outcome: Outcome)
      requires Valid()
      modifies this
      ensures Valid()
      ensures (slots, outcome) == Step(old(slots), Renew(lease, ttl), now)
    {
      if !ValidTtl(ttl) {
        return InvalidInput;
      }
      if lease.resource !in slots {
        return Lost;
      }
      var current := slots[lease.resource].current;
      if current.None? || !current.value.SameGrant(lease) || current.value.IsExpired(now) {
        return Lost;
      }
      var renewed := current.value.(expiresAt := now + ttl);
      slots := slots[lease.resource := slots[lease.resource].(current := Some(renewed))];
      return Held(renewed);
    }

    method ReleaseLease(lease: FencedLease, now: Time) returns (outcome: Outcome)
      requires Valid()
      modifies this
      ensures Valid()
      ensures (slots, outcome) == Step(old(slots), Release(lease), now)
    {
      if lease.resource !in slots {
        return Lost;
      }
      var current := slots[lease.resource].current;
      if current.None? || !current.value.SameGrant(lease) || current.value.IsExpired(now) {
        return Lost;
      }
      slots := slots[lease.resource := slots[lease.resource].(current := None)];
      return Released;
    }
  }
}
