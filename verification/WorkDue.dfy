/** When work comes back: a queued job is due from the time it becomes available, a leased one from the end of its
    lease, and an acquire takes up what is due and nothing else. */
module WorkDue {
  import opened Common
  import opened WorkQueue
  import opened WorkRuns
  import opened WorkStores
  import opened Scheduler

  /** Waiting since `availableAt`, or left behind by a worker whose lease has ended. */
  predicate Due(q: Queue, id: JobId, now: Time) {
    id in q.items &&
    (|| (q.items[id].state == Queued && q.items[id].availableAt <= now)
     || (q.items[id].state == Leased && id in q.leases && q.leases[id].expiresAt <= now))
  }

  predicate For(q: Queue, id: JobId, queue: string, tenant: string) {
    id in q.items && q.items[id].queue == queue && q.items[id].tenantId == tenant
  }

  predicate Wanted(q: Queue, id: JobId, queue: string, tenant: string, now: Time) {
    For(q, id, queue, tenant) && Due(q, id, now)
  }

  /** What an acquire walks is what is due. */
  lemma EligibleAreDue(q: Queue, queue: string, tenant: string, now: Time)
    requires Consistent(q)
    ensures forall id :: id in EligibleJobs(q, queue, tenant, now) <==> Wanted(q, id, queue, tenant, now)
  {
    forall id ensures id in EligibleJobs(q, queue, tenant, now) <==> Wanted(q, id, queue, tenant, now) {
      if id in q.items { assert JobOk(q, id); }
    }
  }

  /** The acquire left the job as it was, lease included. */
  predicate Untouched(q: Queue, next: Queue, id: JobId) {
    && id in q.items && id in next.items && next.items[id] == q.items[id]
    && (id in next.leases <==> id in q.leases) && (id in q.leases ==> next.leases[id] == q.leases[id])
  }

  predicate DeadLettered(q: Queue, next: Queue, id: JobId) {
    id in q.items && id in next.items && next.items[id] == Buried(q.items[id]) && id !in next.leases
  }

  /** The scan only takes away the leases of jobs it dead-letters. */
  lemma {:induction false} ScanLeases(q: Queue, order: seq<JobId>, g: Grant, id: JobId)
    requires forall x | x in order :: x in q.items && q.items[x].jobId == x && q.items[x].Active()
    requires forall i, j | 0 <= i < j < |order| :: order[i] != order[j]
    requires id in q.items
    ensures var (next, work) := Scan(q, order, g);
            && id in next.items
            && (next.items[id] == q.items[id] ==>
                  (id in next.leases <==> id in q.leases) && (id in q.leases ==> next.leases[id] == q.leases[id]))
            && (id !in order ==> next.items[id] == q.items[id])
            && (next.items[id] == q.items[id] || next.items[id] == Buried(q.items[id])
                || (work.Some? && work.value.item.jobId == id))
    decreases |order|
  {
    if order != [] && q.items[order[0]].attempt >= q.items[order[0]].maxAttempts {
      assert forall x | x in order[1..] :: x != order[0];
      ScanLeases(Bury(q, order[0]), order[1..], g, id);
    }
  }

  function Lent(item: Item): Item { item.(state := Leased, attempt := item.attempt + 1) }

  /** What an acquire made of the jobs. */
  ghost predicate TakesDue(q: Queue, next: Queue, work: Option<LeasedWork>, queue: string, tenant: string, g: Grant) {
    && (forall id | id in q.items && !Wanted(q, id, queue, tenant, g.now) :: Untouched(q, next, id))
    && match work
       case None => forall id | Wanted(q, id, queue, tenant, g.now) ::
           q.items[id].attempt >= q.items[id].maxAttempts && DeadLettered(q, next, id)
       case Some(w) =>
         var l := w.item.jobId;
         && Wanted(q, l, queue, tenant, g.now) && q.items[l].attempt < q.items[l].maxAttempts
         && l in next.items && next.items[l] == w.item == Lent(q.items[l])
         && l in next.leases && next.leases[l] == w.lease && w.lease.expiresAt == g.now + g.ttl
         && forall id | Wanted(q, id, queue, tenant, g.now) && id != l ::
              && (Untouched(q, next, id) || DeadLettered(q, next, id))
              && (q.items[id].attempt < q.items[id].maxAttempts ==>
                    Untouched(q, next, id) && !EarlierKey(q.items[id], q.items[l]))
              && (EarlierKey(q.items[id], q.items[l]) ==> DeadLettered(q, next, id))
              && (EarlierKey(q.items[l], q.items[id]) ==> Untouched(q, next, id))
  }

  /** An acquire lends a job that is due and has attempts left, the earliest of these, and dead-letters the earlier
      ones that are spent; it comes back empty exactly when every job due is spent; and it leaves all that is not due
      alone. */
  lemma AcquireTakesDueWork(q: Queue, queue: string, tenant: string, order: seq<JobId>, g: Grant)
    requires Consistent(q) && IsOrder(q.items, EligibleJobs(q, queue, tenant, g.now), order)
    ensures forall id | id in order :: id in q.items
    ensures TakesDue(q, Scan(q, order, g).0, Scan(q, order, g).1, queue, tenant, g)
  {
    hide Wanted, EligibleJobs, IsOrder, Consistent, Scan, ScanOutcome, Untouched, DeadLettered;
    var jobs := EligibleJobs(q, queue, tenant, g.now);
    EligibleAreDue(q, queue, tenant, g.now);
    EligibleAreRows(q, queue, tenant, g.now);
    MembersOfOrder(q.items, jobs, order);
    ConsistentIsKeyed(q);
    ScanUpToTies(q, jobs, order, g);
    DistinctInOrder(q.items, jobs, order);
    ScanKeepsConsistent(q, order, g);
    var (next, work) := Scan(q, order, g);
    forall id | id in q.items ensures Treated(q, next, work, id) {
      ScanLeases(q, order, g, id);
      HowTreated(q, next, work, id);
    }
    LentIs(q, order, g);
    FromOutcome(q, next, jobs, work, queue, tenant, g);
  }

  /** One of three things happened to the job. */
  predicate Treated(q: Queue, next: Queue, work: Option<LeasedWork>, id: JobId) {
    && id in q.items && id in next.items
    && (next.items[id] == q.items[id] ==> Untouched(q, next, id))
    && (next.items[id] == Buried(q.items[id]) ==> DeadLettered(q, next, id))
    && (next.items[id] == q.items[id] || next.items[id] == Buried(q.items[id])
        || (work.Some? && work.value.item.jobId == id))
  }

  lemma HowTreated(q: Queue, next: Queue, work: Option<LeasedWork>, id: JobId)
    requires Consistent(next) && id in q.items && id in next.items
    requires next.items[id] == q.items[id] ==>
               (id in next.leases <==> id in q.leases) && (id in q.leases ==> next.leases[id] == q.leases[id])
    requires next.items[id] == q.items[id] || next.items[id] == Buried(q.items[id])
             || (work.Some? && work.value.item.jobId == id)
    ensures Treated(q, next, work, id)
  {
    assert JobOk(next, id);
  }

  lemma FromOutcome(q: Queue, next: Queue, jobs: set<JobId>, work: Option<LeasedWork>, queue: string, tenant: string,
                    g: Grant)
    requires ScanOutcome(q.items, jobs, next.items, LentJob(work))
    requires forall id :: id in jobs <==> Wanted(q, id, queue, tenant, g.now)
    requires forall id | id in q.items :: Treated(q, next, work, id)
    requires work.Some? ==>
               var l := work.value.item.jobId;
               && l in q.items && l in next.items && next.items[l] == work.value.item == Lent(q.items[l])
               && l in next.leases && next.leases[l] == work.value.lease
               && work.value.lease.expiresAt == g.now + g.ttl
    ensures TakesDue(q, next, work, queue, tenant, g)
  {
    hide Wanted, Untouched, DeadLettered, Buried, EarlierKey;
    if work.Some? {
      var l := work.value.item.jobId;
      forall id | id in jobs && id != l ensures TreatedAround(q.items, next.items, l, id) {}
    }
  }

  lemma {:induction false} LentIs(q: Queue, order: seq<JobId>, g: Grant)
    requires forall x | x in order :: x in q.items && q.items[x].jobId == x && q.items[x].Active()
    requires forall i, j | 0 <= i < j < |order| :: order[i] != order[j]
    ensures var (next, work) := Scan(q, order, g);
            work.Some? ==>
              var l := work.value.item.jobId;
              && l in q.items && l in next.items && l in order
              && next.items[l] == work.value.item == Lent(q.items[l])
              && l in next.leases && next.leases[l] == work.value.lease
              && work.value.lease.expiresAt == g.now + g.ttl
    decreases |order|
  {
    if order != [] && q.items[order[0]].attempt >= q.items[order[0]].maxAttempts {
      assert forall x | x in order[1..] :: x != order[0];
      LentIs(Bury(q, order[0]), order[1..], g);
    }
  }

  // ---------------------------------------------------------------- jobs that are waited for

  /** The job waits in the queue for `from`. */
  predicate Waits(q: Queue, item: Item, from: Time) {
    item.jobId in q.items && q.items[item.jobId] == item && item.state == Queued && item.availableAt == from
  }

  lemma StepKeepsWaiting(q: Queue, op: Op, maxDepth: nat, now: Time, item: Item, from: Time)
    requires Consistent(q) && Enabled(q, op, now) && Waits(q, item, from) && now < from
    ensures Waits(Step(q, op, maxDepth, now), item, from)
  {
    match op
    case OpEnqueue(other) => KnownIdentity(q, other);
    case OpAcquire(queue, tenant, owner, ttl, id, order) =>
      hide Consistent, IsOrder, EligibleJobs, Scan, Buried;
      AcquireTakesDueWork(q, queue, tenant, order, Grant(owner, ttl, id, now));
    case _ =>
  }

  /** Before its time nothing becomes of it. */
  lemma {:induction false} RunKeepsWaiting(q: Queue, run: seq<Event>, maxDepth: nat, from: Time, item: Item, due: Time)
    requires Consistent(q) && Possible(q, run, maxDepth, from) && Waits(q, item, due) && EndOf(run, from) < due
    ensures Waits(After(q, run, maxDepth, from), item, due) && Consistent(After(q, run, maxDepth, from))
    decreases |run|
  {
    hide Step, Enabled, Waits, Consistent;
    if run != [] {
      var next := Step(q, run[0].op, maxDepth, run[0].now);
      EndIsLater(run[1..], run[0].now, next, maxDepth);
      StepKeepsWaiting(q, run[0].op, maxDepth, run[0].now, item, due);
      StepKeepsConsistent(q, run[0].op, maxDepth, run[0].now);
      RunKeepsWaiting(next, run[1..], maxDepth, run[0].now, item, due);
    }
  }

  /** No other job of the queue and tenant that is due has an earlier or an equal key. */
  ghost predicate First(q: Queue, id: JobId, queue: string, tenant: string, now: Time) {
    id in q.items &&
    forall other | Wanted(q, other, queue, tenant, now) && other != id :: EarlierKey(q.items[id], q.items[other])
  }

  /** What an acquire at `now` owes a job that is due: it finds work; and this very job, if it is first, unless it is
      spent, when it is dead-lettered. */
  ghost predicate TakenUp(q: Queue, next: Queue, work: Option<LeasedWork>, id: JobId, queue: string, tenant: string,
                          now: Time)
    requires id in q.items
  {
    && (work.Some? || DeadLettered(q, next, id))
    && (First(q, id, queue, tenant, now) ==>
          if q.items[id].attempt < q.items[id].maxAttempts then work.Some? && work.value.item == Lent(q.items[id])
          else DeadLettered(q, next, id))
  }

  lemma DueIsTakenUp(q: Queue, id: JobId, queue: string, tenant: string, order: seq<JobId>, g: Grant)
    requires Consistent(q) && IsOrder(q.items, EligibleJobs(q, queue, tenant, g.now), order)
    requires Wanted(q, id, queue, tenant, g.now)
    ensures forall x | x in order :: x in q.items
    ensures TakenUp(q, Scan(q, order, g).0, Scan(q, order, g).1, id, queue, tenant, g.now)
  {
    hide Consistent, IsOrder, EligibleJobs, Scan, Buried, Wanted, EarlierKey;
    AcquireTakesDueWork(q, queue, tenant, order, g);
    assert id in q.items by { WantedIsThere(q, id, queue, tenant, g.now); }
    var (next, work) := Scan(q, order, g);
    if work.Some? && First(q, id, queue, tenant, g.now) {
      var l := work.value.item.jobId;
      WantedIsThere(q, l, queue, tenant, g.now);
      if l != id { EarlierIsStrict(q.items[id], q.items[l]); }
    }
  }

  lemma WantedIsThere(q: Queue, id: JobId, queue: string, tenant: string, now: Time)
    requires Wanted(q, id, queue, tenant, now)
    ensures id in q.items
  {
  }

  lemma EarlierIsStrict(a: Item, b: Item)
    requires EarlierKey(a, b)
    ensures !EarlierKey(b, a)
  {
  }

  /** A job whose worker is gone: until the end of its lease it stays with the worker, whatever other calls are made;
      an acquire from then on takes it up. */
  lemma LostWorkersJobComesBack(
      q: Queue, queue: string, tenant: string, order: seq<JobId>, g: Grant, maxDepth: nat, between: seq<Event>,
      order': seq<JobId>, g': Grant)
    requires Consistent(q) && g.ttl > 0 && IsOrder(q.items, EligibleJobs(q, queue, tenant, g.now), order)
    requires Scan(q, order, g).1.Some? && Possible(Scan(q, order, g).0, between, maxDepth, g.now)
    requires NonePresents(between, Scan(q, order, g).1.value) && EndOf(between, g.now) < g.now + g.ttl <= g'.now
    requires var later := After(Scan(q, order, g).0, between, maxDepth, g.now);
             IsOrder(later.items, EligibleJobs(later, queue, tenant, g'.now), order')
    ensures var w := Scan(q, order, g).1.value;
            var later := After(Scan(q, order, g).0, between, maxDepth, g.now);
            && w.item.jobId in later.items && later.items[w.item.jobId] == w.item
            && (forall x | x in order' :: x in later.items)
            && TakenUp(later, Scan(later, order', g').0, Scan(later, order', g').1, w.item.jobId, queue, tenant, g'.now)
  {
    hide Consistent, Enabled, Presents, NonePresents, IsOrder, EligibleJobs, TakenUp, Possible, After;
    AcquireTakesDueWork(q, queue, tenant, order, g);
    var (granted, work) := Scan(q, order, g);
    var w := work.value;
    hide Scan;
    var op := OpAcquire(queue, tenant, g.ownerId, g.ttl, g.freshId, order);
    AcquireEnabled(q, queue, tenant, order, g);
    GrantedIs(q, queue, tenant, order, g, maxDepth);
    RunKeepsHold(granted, between, maxDepth, g.now, w);
    RunKeepsItem(granted, between, maxDepth, g.now, w);
    var later := After(granted, between, maxDepth, g.now);
    assert Wanted(later, w.item.jobId, queue, tenant, g'.now);
    DueIsTakenUp(later, w.item.jobId, queue, tenant, order', g');
  }

  lemma GrantedIs(q: Queue, queue: string, tenant: string, order: seq<JobId>, g: Grant, maxDepth: nat)
    requires Consistent(q) && g.ttl > 0 && IsOrder(q.items, EligibleJobs(q, queue, tenant, g.now), order)
    ensures forall id | id in order :: id in q.items
    ensures Consistent(Scan(q, order, g).0)
    ensures Scan(q, order, g).1.Some? ==> Holds(Scan(q, order, g).0, Scan(q, order, g).1.value)
  {
    hide Consistent, IsOrder, EligibleJobs, Scan;
    AcquireEnabled(q, queue, tenant, order, g);
    StepKeepsConsistent(q, OpAcquire(queue, tenant, g.ownerId, g.ttl, g.freshId, order), maxDepth, g.now);
    AcquireTakesDueWork(q, queue, tenant, order, g);
    OwnIds(q, order);
    ScanGrants(q, order, g);
  }

  /** While it is held, the job's row stays as the worker got it. */
  lemma {:induction false} RunKeepsItem(q: Queue, run: seq<Event>, maxDepth: nat, from: Time, w: LeasedWork)
    requires Consistent(q) && Possible(q, run, maxDepth, from) && Holds(q, w) && NonePresents(run, w)
    requires EndOf(run, from) < w.lease.expiresAt && q.items[w.item.jobId] == w.item
    ensures var t := After(q, run, maxDepth, from);
            Consistent(t) && w.item.jobId in t.items && t.items[w.item.jobId] == w.item
    decreases |run|
  {
    hide Step, Enabled, Holds, Consistent, Presents;
    HeldIsThere(q, w);
    if run != [] {
      var next := Step(q, run[0].op, maxDepth, run[0].now);
      EndIsLater(run[1..], run[0].now, next, maxDepth);
      StepKeepsHold(q, run[0].op, maxDepth, run[0].now, w);
      StepKeepsConsistent(q, run[0].op, maxDepth, run[0].now);
      StepEvolves(q, run[0].op, maxDepth, run[0].now);
      HeldIsSame(q, next, w);
      RunKeepsItem(next, run[1..], maxDepth, run[0].now, w);
    }
  }

  lemma HeldIsThere(q: Queue, w: LeasedWork)
    requires Holds(q, w)
    ensures w.item.jobId in q.items
  {
  }

  lemma HeldIsSame(q: Queue, next: Queue, w: LeasedWork)
    requires Holds(q, w) && Holds(next, w) && q.items[w.item.jobId] == w.item && AllEvolve(q, next)
    ensures next.items[w.item.jobId] == w.item
  {
    assert Evolves(q.items[w.item.jobId], next.items[w.item.jobId]);
  }

  function PutBack(item: Item, availableAt: Time, error: string): Item {
    item.(state := Queued, availableAt := availableAt, lastError := Some(error))
  }

  /** A job put back for later: no acquire lends it, nor anything else changes it, before its delay has passed; an
      acquire from then on takes it up. */
  lemma RetriedJobComesBack(
      q: Queue, w: LeasedWork, delay: Time, error: string, at: Time, maxDepth: nat, between: seq<Event>,
      queue: string, tenant: string, order: seq<JobId>, g: Grant)
    requires Consistent(q) && Retry(q, w, delay, error, at).1.Some?
    requires w.item.attempt < q.items[w.item.jobId].maxAttempts
    requires Possible(Retry(q, w, delay, error, at).0, between, maxDepth, at)
    requires EndOf(between, at) < at + delay <= g.now
    requires For(q, w.item.jobId, queue, tenant)
    requires var later := After(Retry(q, w, delay, error, at).0, between, maxDepth, at);
             IsOrder(later.items, EligibleJobs(later, queue, tenant, g.now), order)
    ensures var back := Retry(q, w, delay, error, at).1.value;
            var later := After(Retry(q, w, delay, error, at).0, between, maxDepth, at);
            && back == PutBack(q.items[w.item.jobId], at + delay, error)
            && w.item.jobId in later.items && later.items[w.item.jobId] == back
            && (forall x | x in order :: x in later.items)
            && TakenUp(later, Scan(later, order, g).0, Scan(later, order, g).1, w.item.jobId, queue, tenant, g.now)
  {
    hide IsOrder, EligibleJobs, TakenUp, Possible, After, Scan, Retry, Consistent, Waits;
    var (next, back) := Retry(q, w, delay, error, at);
    RetriedWaits(q, w, delay, error, at, maxDepth);
    RunKeepsWaiting(next, between, maxDepth, at, back.value, at + delay);
    var later := After(next, between, maxDepth, at);
    WaitingIsWanted(later, back.value, at + delay, queue, tenant, g.now);
    DueIsTakenUp(later, w.item.jobId, queue, tenant, order, g);
  }

  lemma RetriedWaits(q: Queue, w: LeasedWork, delay: Time, error: string, at: Time, maxDepth: nat)
    requires Consistent(q) && Retry(q, w, delay, error, at).1.Some?
    requires w.item.attempt < q.items[w.item.jobId].maxAttempts
    ensures var (next, back) := Retry(q, w, delay, error, at);
            && back.Some? && back.value == PutBack(q.items[w.item.jobId], at + delay, error)
            && back.value.jobId == w.item.jobId && Waits(next, back.value, at + delay) && Consistent(next)
  {
    assert JobOk(q, w.item.jobId);
    StepKeepsConsistent(q, OpRetry(w, delay, error), maxDepth, at);
  }

  lemma WaitingIsWanted(q: Queue, item: Item, due: Time, queue: string, tenant: string, now: Time)
    requires Waits(q, item, due) && due <= now && item.queue == queue && item.tenantId == tenant
    ensures Wanted(q, item.jobId, queue, tenant, now)
    ensures item.jobId in q.items && q.items[item.jobId] == item
  {
  }

  /** How a job ends: completed, or after its last attempt failed. Either is for good. */
  lemma FinishedForGood(q: Queue, w: LeasedWork, error: string, delay: Time, at: Time, maxDepth: nat, run: seq<Event>)
    requires Consistent(q) && Bounded(q, maxDepth) && IsCurrent(q, w, at)
    ensures var (next, done) := Complete(q, w, at);
            && done == Some(q.items[w.item.jobId].(state := Succeeded, completedAt := Some(at)))
            && (Possible(next, run, maxDepth, at) ==>
                  var t := After(next, run, maxDepth, at);
                  w.item.jobId in t.items && t.items[w.item.jobId] == done.value)
    ensures w.item.attempt >= q.items[w.item.jobId].maxAttempts && delay >= 0 && !IsBlank(error) ==>
              var (next, dead) := Retry(q, w, delay, error, at);
              && dead == Some(q.items[w.item.jobId].(state := DeadLetter, lastError := Some(error)))
              && (Possible(next, run, maxDepth, at) ==>
                    var t := After(next, run, maxDepth, at);
                    w.item.jobId in t.items && t.items[w.item.jobId] == dead.value)
  {
    hide Possible, After, Bounded;
    assert JobOk(q, w.item.jobId);
    EndStays(q, OpComplete(w), w.item.jobId, at, maxDepth, run);
    EndStays(q, OpRetry(w, delay, error), w.item.jobId, at, maxDepth, run);
  }

  lemma EndStays(q: Queue, op: Op, id: JobId, at: Time, maxDepth: nat, run: seq<Event>)
    requires Consistent(q) && Bounded(q, maxDepth) && Enabled(q, op, at)
    requires id in Step(q, op, maxDepth, at).items
    ensures var next := Step(q, op, maxDepth, at);
            next.items[id].state in {Succeeded, DeadLetter} && Possible(next, run, maxDepth, at) ==>
              var t := After(next, run, maxDepth, at);
              id in t.items && t.items[id] == next.items[id]
  {
    hide Step, Enabled, Consistent, Bounded, Possible, After;
    var next := Step(q, op, maxDepth, at);
    StepKeepsConsistent(q, op, maxDepth, at);
    StepKeepsBounded(q, op, maxDepth, at);
    if next.items[id].state in {Succeeded, DeadLetter} && Possible(next, run, maxDepth, at) {
      RunConserves(next, run, maxDepth, at);
      assert Evolves(next.items[id], After(next, run, maxDepth, at).items[id]);
    }
  }

  predicate HasText(s: string) { exists i | 0 <= i < |s| :: !IsSpace(s[i]) }

  /** A request is invalid for a blank name, or a term that is not positive or over a day. */
  lemma ValidInputIs(queue: string, tenant: string, owner: string, ttl: Time)
    ensures ValidInput(queue, tenant, owner, ttl) <==>
              && 0 < ttl <= 86_400_000
              && HasText(queue) && HasText(tenant) && HasText(owner)
  {
  }

  /** A holder may finish the job exactly while the live lease is the one presented, by id, owner, token and tenant. */
  lemma CurrentMeans(q: Queue, w: LeasedWork, now: Time)
    requires Consistent(q)
    ensures IsCurrent(q, w, now) <==>
              && w.item.jobId in q.leases
              && var lease := q.leases[w.item.jobId];
                 && w.lease.leaseId == lease.leaseId && w.lease.ownerId == lease.ownerId
                 && w.lease.fenceToken == lease.fenceToken == w.item.attempt && w.item.tenantId == lease.tenantId
                 && now < lease.expiresAt
  {
    if w.item.jobId in q.items { assert JobOk(q, w.item.jobId); }
  }
}
