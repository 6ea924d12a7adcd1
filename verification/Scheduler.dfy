/** One pass of the recoverable scheduler: acquire a job, run its handler while other calls go on, then
    complete or retry it. Whether the worker still owns the job at the end depends on its lease alone. */
module Scheduler {
  import opened Common
  import opened WorkQueue
  import opened WorkRuns

  /** The queue still has the job leased under exactly this grant. */
  predicate Holds(q: Queue, w: LeasedWork) {
    var id := w.item.jobId;
    && id in q.items && q.items[id].state == Leased && q.items[id].tenantId == w.item.tenantId
    && q.items[id].attempt == w.item.attempt && id in q.leases && q.leases[id] == w.lease
    && w.lease.tenantId == w.item.tenantId
  }

  /** The grant's token identifies the grant. */
  predicate Pinned(q: Queue, w: LeasedWork) {
    var id := w.item.jobId;
    && w.lease.fenceToken <= TokenOf(q, id)
    && (id in q.leases && q.leases[id].fenceToken == w.lease.fenceToken ==> q.leases[id] == w.lease)
  }

  /** The operation presents this very grant: only the worker itself does. */
  predicate Presents(op: Op, w: LeasedWork) {
    (op.OpComplete? || op.OpRetry?) && op.work.item.jobId == w.item.jobId && op.work.lease.leaseId == w.lease.leaseId
  }

  ghost predicate NonePresents(run: seq<Event>, w: LeasedWork) {
    forall i | 0 <= i < |run| :: !Presents(run[i].op, w)
  }

  lemma {:induction false} ScanKeepsHold(q: Queue, order: seq<JobId>, g: Grant, w: LeasedWork)
    requires Holds(q, w) && w.item.jobId !in order && forall id | id in order :: id in q.items
    ensures Holds(Scan(q, order, g).0, w)
    decreases |order|
  {
    if order != [] && q.items[order[0]].attempt >= q.items[order[0]].maxAttempts {
      ScanKeepsHold(Bury(q, order[0]), order[1..], g, w);
    }
  }

  lemma {:induction false} ScanKeepsPin(q: Queue, order: seq<JobId>, g: Grant, w: LeasedWork)
    requires Pinned(q, w) && forall id | id in order :: id in q.items
    ensures Pinned(Scan(q, order, g).0, w)
    decreases |order|
  {
    if order != [] && q.items[order[0]].attempt >= q.items[order[0]].maxAttempts {
      ScanKeepsPin(Bury(q, order[0]), order[1..], g, w);
    }
  }

  /** No other call takes a leased job away before its lease ends. */
  lemma StepKeepsHold(q: Queue, op: Op, maxDepth: nat, now: Time, w: LeasedWork)
    requires Consistent(q) && Enabled(q, op, now) && Holds(q, w) && now < w.lease.expiresAt && !Presents(op, w)
    ensures Holds(Step(q, op, maxDepth, now), w)
  {
    match op
    case OpEnqueue(item) => KnownIdentity(q, item);
    case OpAcquire(queue, tenant, owner, ttl, id, order) =>
      assert w.item.jobId !in EligibleJobs(q, queue, tenant, now);
      ScanKeepsHold(q, order, Grant(owner, ttl, id, now), w);
    case _ =>
  }

  lemma KnownIdentity(q: Queue, item: Item)
    requires Consistent(q)
    ensures item.Key() in q.identities ==> q.identities[item.Key()] in q.items
  {
  }

  lemma StepKeepsPin(q: Queue, op: Op, maxDepth: nat, now: Time, w: LeasedWork)
    requires Enabled(q, op, now) && Pinned(q, w)
    ensures Pinned(Step(q, op, maxDepth, now), w)
  {
    match op
    case OpAcquire(queue, tenant, owner, ttl, id, order) => ScanKeepsPin(q, order, Grant(owner, ttl, id, now), w);
    case _ =>
  }

  lemma {:induction false} RunKeepsPin(q: Queue, run: seq<Event>, maxDepth: nat, from: Time, w: LeasedWork)
    requires Possible(q, run, maxDepth, from) && Pinned(q, w)
    ensures Pinned(After(q, run, maxDepth, from), w)
    decreases |run|
  {
    hide Step, Enabled, Pinned;
    if run != [] {
      StepKeepsPin(q, run[0].op, maxDepth, run[0].now, w);
      RunKeepsPin(Step(q, run[0].op, maxDepth, run[0].now), run[1..], maxDepth, run[0].now, w);
    }
  }

  lemma {:induction false} EndIsLater(run: seq<Event>, from: Time, q: Queue, maxDepth: nat)
    requires Possible(q, run, maxDepth, from)
    ensures from <= EndOf(run, from)
    decreases |run|
  {
    hide Step, Enabled;
    if run != [] { EndIsLater(run[1..], run[0].now, Step(q, run[0].op, maxDepth, run[0].now), maxDepth); }
  }

  lemma {:induction false} RunKeepsHold(q: Queue, run: seq<Event>, maxDepth: nat, from: Time, w: LeasedWork)
    requires Consistent(q) && Possible(q, run, maxDepth, from) && Holds(q, w) && NonePresents(run, w)
    requires EndOf(run, from) < w.lease.expiresAt
    ensures Holds(After(q, run, maxDepth, from), w)
    decreases |run|
  {
    hide Step, Enabled, Holds, Consistent, Presents;
    if run != [] {
      var next := Step(q, run[0].op, maxDepth, run[0].now);
      EndIsLater(run[1..], run[0].now, next, maxDepth);
      StepKeepsHold(q, run[0].op, maxDepth, run[0].now, w);
      StepKeepsConsistent(q, run[0].op, maxDepth, run[0].now);
      RunKeepsHold(next, run[1..], maxDepth, run[0].now, w);
    }
  }

  lemma {:induction false} ScanGrants(q: Queue, order: seq<JobId>, g: Grant)
    requires forall id | id in order :: id in q.items && q.items[id].jobId == id
    ensures var (next, work) := Scan(q, order, g);
            work.Some? ==>
              Holds(next, work.value) && Pinned(next, work.value) && work.value.lease.expiresAt == g.now + g.ttl
    decreases |order|
  {
    if order != [] && q.items[order[0]].attempt >= q.items[order[0]].maxAttempts {
      ScanGrants(Bury(q, order[0]), order[1..], g);
    }
  }

  /** `run_once`: whatever other calls are made while the handler runs, the worker's `complete`, or its
      `retry` if the handler raised, goes through exactly when it comes before the lease ends. */
  lemma FinishesExactlyWithinLease(
    q: Queue, queue: string, tenant: string, order: seq<JobId>, g: Grant, maxDepth: nat, between: seq<Event>,
        finish: Time,
    delay: Time, error: string)
    requires Consistent(q) && g.ttl > 0 && IsOrder(q.items, EligibleJobs(q, queue, tenant, g.now), order)
    requires Scan(q, order, g).1.Some? && Possible(Scan(q, order, g).0, between, maxDepth, g.now)
    requires NonePresents(between, Scan(q, order, g).1.value) && EndOf(between, g.now) <= finish
    requires delay >= 0 && !IsBlank(error)
    ensures var w := Scan(q, order, g).1.value;
            var later := After(Scan(q, order, g).0, between, maxDepth, g.now);
            && (Complete(later, w, finish).1.Some? <==> finish < g.now + g.ttl)
            && (Retry(later, w, delay, error, finish).1.Some? <==> finish < g.now + g.ttl)
  {
    hide Consistent, Enabled, Presents, NonePresents;
    var (granted, work) := Scan(q, order, g);
    var w := work.value;
    assert forall id | id in order :: q.items[id].jobId == id by { OwnIds(q, order); }
    ScanGrants(q, order, g);
    StepKeepsConsistent(q, OpAcquire(queue, tenant, g.ownerId, g.ttl, g.freshId, order), maxDepth, g.now) by {
      AcquireEnabled(q, queue, tenant, order, g);
    }
    assert granted == Step(q, OpAcquire(queue, tenant, g.ownerId, g.ttl, g.freshId, order), maxDepth, g.now) by {
      AcquireEnabled(q, queue, tenant, order, g);
    }
    RunKeepsPin(granted, between, maxDepth, g.now, w);
    if finish < w.lease.expiresAt { RunKeepsHold(granted, between, maxDepth, g.now, w); }
  }

  lemma OwnIds(q: Queue, order: seq<JobId>)
    requires Consistent(q) && forall id | id in order :: id in q.items
    ensures forall id | id in order :: q.items[id].jobId == id
  {
    forall id | id in order ensures q.items[id].jobId == id { assert JobOk(q, id); }
  }

  lemma AcquireEnabled(q: Queue, queue: string, tenant: string, order: seq<JobId>, g: Grant)
    requires g.ttl > 0 && IsOrder(q.items, EligibleJobs(q, queue, tenant, g.now), order)
    ensures Enabled(q, OpAcquire(queue, tenant, g.ownerId, g.ttl, g.freshId, order), g.now)
  {
  }
}
