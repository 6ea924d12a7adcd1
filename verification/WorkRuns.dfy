/** What holds over whole runs of the work queue: nothing is lost, terminal jobs stay put, a superseded
    holder can do nothing, every job succeeds at most once and uses up a bounded number of steps. */
module WorkRuns {
  import opened Common
  import opened WorkQueue

  datatype Event = Event(op: Op, now: Time)

  /** Every step is enabled where it happens, and the clock does not run backwards. */
  ghost predicate Possible(q: Queue, run: seq<Event>, maxDepth: nat, from: Time)
    decreases |run|
  {
    run == [] || (
      && from <= run[0].now
      && Enabled(q, run[0].op, run[0].now)
      && Possible(Step(q, run[0].op, maxDepth, run[0].now), run[1..], maxDepth, run[0].now))
  }

  ghost function After(q: Queue, run: seq<Event>, maxDepth: nat, from: Time): Queue
    requires Possible(q, run, maxDepth, from)
    decreases |run|
  {
    if run == [] then q else After(Step(q, run[0].op, maxDepth, run[0].now), run[1..], maxDepth, run[0].now)
  }

  function EndOf(run: seq<Event>, from: Time): Time
    decreases |run|
  {
    if run == [] then from else EndOf(run[1..], run[0].now)
  }

  // ---------------------------------------------------------------- how one job may change

  /** Falls at every change a job undergoes, and is zero exactly for terminal jobs. */
  function Remaining(item: Item): int {
    match item.state
    case Queued => 2 * (item.maxAttempts - item.attempt)
    case Leased => 2 * (item.maxAttempts - item.attempt) + 1
    case _ => 0
  }

  /** The job keeps its identity, never loses an attempt, stays put once terminal, and any change
      lowers `Remaining`. */
  predicate Evolves(a: Item, b: Item) {
    && a.jobId == b.jobId && a.Key() == b.Key() && a.kind == b.kind && a.payload == b.payload
    && a.maxAttempts == b.maxAttempts && a.createdAt == b.createdAt
    && a.attempt <= b.attempt
    && (a == b || (a.Active() && Remaining(b) < Remaining(a)))
  }

  ghost predicate AllEvolve(q: Queue, next: Queue) {
    forall id | id in q.items :: id in next.items && Evolves(q.items[id], next.items[id])
  }

  lemma EvolvesTransitively(a: Queue, b: Queue, c: Queue)
    requires AllEvolve(a, b) && AllEvolve(b, c)
    ensures AllEvolve(a, c)
  {
    forall id | id in a.items ensures id in c.items && Evolves(a.items[id], c.items[id]) {
      assert Evolves(a.items[id], b.items[id]);
    }
  }

  lemma OneJobEvolves(q: Queue, next: Queue, id: JobId)
    requires id in q.items && id in next.items && Evolves(q.items[id], next.items[id])
    requires forall other | other in q.items && other != id ::
               other in next.items && next.items[other] == q.items[other]
    ensures AllEvolve(q, next)
  {
  }

  lemma BuryEvolves(q: Queue, id: JobId)
    requires Consistent(q) && id in q.items && q.items[id].Active() && q.items[id].attempt >= q.items[id].maxAttempts
    ensures AllEvolve(q, Bury(q, id))
  {
    assert JobOk(q, id);
    OneJobEvolves(q, Bury(q, id), id);
  }

  lemma LendEvolves(q: Queue, id: JobId, g: Grant)
    requires Consistent(q) && id in q.items && q.items[id].Active() && q.items[id].attempt < q.items[id].maxAttempts
    ensures AllEvolve(q, Lend(q, id, g).0)
  {
    assert JobOk(q, id);
    OneJobEvolves(q, Lend(q, id, g).0, id);
  }

  /** A scan only moves jobs forward, and leaves every job outside the order alone. */
  lemma {:induction false} ScanEvolves(q: Queue, order: seq<JobId>, g: Grant)
    requires Consistent(q)
    requires forall id | id in order :: id in q.items && q.items[id].Active()
    requires forall i, j | 0 <= i < j < |order| :: order[i] != order[j]
    ensures AllEvolve(q, Scan(q, order, g).0)
    ensures Scan(q, order, g).0.items.Keys == q.items.Keys && Scan(q, order, g).0.identities == q.identities
    decreases |order|
  {
    hide AllEvolve, Consistent;
    if order == [] {
      EvolveReflexively(q);
    } else {
      var id := order[0];
      if q.items[id].attempt >= q.items[id].maxAttempts {
        var next := Bury(q, id);
        BuryKeepsConsistent(q, id);
        BuryEvolves(q, id);
        ScanEvolves(next, order[1..], g);
        EvolvesTransitively(q, next, Scan(next, order[1..], g).0);
      } else {
        LendEvolves(q, id, g);
      }
    }
  }

  lemma EvolveReflexively(q: Queue)
    ensures AllEvolve(q, q)
  {
  }

  lemma CompleteEvolves(q: Queue, w: LeasedWork, now: Time)
    requires Consistent(q)
    ensures AllEvolve(q, Complete(q, w, now).0) && Complete(q, w, now).0.items.Keys == q.items.Keys
  {
    if IsCurrent(q, w, now) {
      assert JobOk(q, w.item.jobId);
      OneJobEvolves(q, Complete(q, w, now).0, w.item.jobId);
    }
  }

  lemma RetryEvolves(q: Queue, w: LeasedWork, delay: Time, error: string, now: Time)
    requires Consistent(q)
    ensures AllEvolve(q, Retry(q, w, delay, error, now).0)
            && Retry(q, w, delay, error, now).0.items.Keys == q.items.Keys
  {
    if IsCurrent(q, w, now) {
      assert JobOk(q, w.item.jobId);
      if Retry(q, w, delay, error, now).1.Some? {
        OneJobEvolves(q, Retry(q, w, delay, error, now).0, w.item.jobId);
      }
    }
  }

  lemma EnqueueEvolves(q: Queue, item: Item, maxDepth: nat)
    requires Enqueue(q, item, maxDepth).1.Added? ==> item.jobId !in q.items
    ensures AllEvolve(q, Enqueue(q, item, maxDepth).0)
  {
  }

  /** Enqueueing loses or changes a job exactly when it reuses that job's id under another identity. */
  lemma EnqueueConservesWhen(q: Queue, item: Item, maxDepth: nat)
    requires Consistent(q)
    ensures AllEvolve(q, Enqueue(q, item, maxDepth).0) <==> !Overwrites(q, item, maxDepth)
  {
    hide ActiveJobs;
    if Overwrites(q, item, maxDepth) {
      assert JobOk(q, item.jobId);
    } else {
      EnqueueEvolves(q, item, maxDepth);
    }
  }

  /** A queued job is lost to another tenant's, enqueued under the same id. */
  lemma LostJobExample(job: Item, other: Item, maxDepth: nat)
    requires job.state == other.state == Queued && job.attempt == other.attempt == 0
    requires job.jobId == other.jobId && job.tenantId != other.tenantId
    requires maxDepth >= 2
    ensures var q := Enqueue(EMPTY, job, maxDepth).0;
            && q.items[job.jobId] == job
            && Enqueue(q, other, maxDepth).1 == Added(other)
            && Enqueue(q, other, maxDepth).0.items == map[job.jobId := other]
  {
    var q := Enqueue(EMPTY, job, maxDepth).0;
    assert ActiveJobs(EMPTY, job.queue) == {};
    assert q.items == map[job.jobId := job] && q.identities == map[job.Key() := job.jobId];
    UpToOne(ActiveJobs(q, other.queue), job.jobId);
  }

  lemma UpToOne(ids: set<JobId>, id: JobId)
    requires ids <= {id}
    ensures |ids| <= 1
  {
    if id in ids { assert ids == {id}; } else { assert ids == {}; }
  }

  lemma StepEvolves(q: Queue, op: Op, maxDepth: nat, now: Time)
    requires Consistent(q) && Enabled(q, op, now)
    ensures AllEvolve(q, Step(q, op, maxDepth, now))
    ensures !op.OpEnqueue? ==> Step(q, op, maxDepth, now).items.Keys == q.items.Keys
  {
    hide AllEvolve;
    match op
    case OpEnqueue(item) => EnqueueEvolves(q, item, maxDepth);
    case OpAcquire(queue, tenant, owner, ttl, id, order) => ScanEvolves(q, order, Grant(owner, ttl, id, now));
    case OpComplete(w) => CompleteEvolves(q, w, now);
    case OpRetry(w, delay, error) => RetryEvolves(q, w, delay, error, now);
  }

  // ---------------------------------------------------------------- bounded depth

  lemma EvolutionAddsNoWork(q: Queue, next: Queue, queue: string)
    requires AllEvolve(q, next) && next.items.Keys == q.items.Keys
    ensures ActiveJobs(next, queue) <= ActiveJobs(q, queue)
  {
    forall id | id in ActiveJobs(next, queue) ensures id in ActiveJobs(q, queue) {
      assert Evolves(q.items[id], next.items[id]);
    }
  }

  lemma AddingOneJob(q: Queue, item: Item, next: Queue, queue: string)
    requires next.items == q.items[item.jobId := item] && item.jobId !in q.items && item.Active()
    ensures ActiveJobs(next, queue) == ActiveJobs(q, queue) + (if queue == item.queue then {item.jobId} else {})
  {
  }

  lemma EnqueueKeepsBounded(q: Queue, item: Item, maxDepth: nat)
    requires Bounded(q, maxDepth) && (Enqueue(q, item, maxDepth).1.Added? ==> item.jobId !in q.items)
    ensures Bounded(Enqueue(q, item, maxDepth).0, maxDepth)
  {
    hide ActiveJobs;
    var (next, outcome) := Enqueue(q, item, maxDepth);
    if outcome.Added? {
      forall queue ensures |ActiveJobs(next, queue)| <= maxDepth {
        AddingOneJob(q, item, next, queue);
        assert |ActiveJobs(q, queue)| <= maxDepth;
      }
    }
  }

  /** No queue ever holds more active jobs, over all tenants, than the configured depth. */
  lemma StepKeepsBounded(q: Queue, op: Op, maxDepth: nat, now: Time)
    requires Consistent(q) && Bounded(q, maxDepth) && Enabled(q, op, now)
    ensures Bounded(Step(q, op, maxDepth, now), maxDepth)
  {
    hide AllEvolve, ActiveJobs;
    if op.OpEnqueue? {
      EnqueueKeepsBounded(q, op.item, maxDepth);
    } else {
      var next := Step(q, op, maxDepth, now);
      StepEvolves(q, op, maxDepth, now);
      forall queue ensures |ActiveJobs(next, queue)| <= maxDepth {
        EvolutionAddsNoWork(q, next, queue);
        SubsetIsSmaller(ActiveJobs(next, queue), ActiveJobs(q, queue));
      }
    }
  }

  /** Over any run the queue stays consistent and bounded, no job is lost, and terminal jobs never change. */
  lemma {:induction false} RunConserves(q: Queue, run: seq<Event>, maxDepth: nat, from: Time)
    requires Consistent(q) && Bounded(q, maxDepth) && Possible(q, run, maxDepth, from)
    ensures Consistent(After(q, run, maxDepth, from)) && Bounded(After(q, run, maxDepth, from), maxDepth)
    ensures AllEvolve(q, After(q, run, maxDepth, from))
    decreases |run|
  {
    if run != [] {
      var next := Step(q, run[0].op, maxDepth, run[0].now);
      StepKeepsConsistent(q, run[0].op, maxDepth, run[0].now);
      StepKeepsBounded(q, run[0].op, maxDepth, run[0].now);
      StepEvolves(q, run[0].op, maxDepth, run[0].now);
      RunConserves(next, run[1..], maxDepth, run[0].now);
      EvolvesTransitively(q, next, After(next, run[1..], maxDepth, run[0].now));
    }
  }

  /** Enqueueing the same work again, however much later, returns the job it became. */
  lemma ReEnqueueFindsTheJob(q: Queue, item: Item, run: seq<Event>, maxDepth: nat, from: Time, again: Item)
    requires Consistent(q) && Bounded(q, maxDepth) && Enabled(q, OpEnqueue(item), from)
    requires Enqueue(q, item, maxDepth).1.Added?
    requires Possible(Enqueue(q, item, maxDepth).0, run, maxDepth, from)
    requires again.Key() == item.Key() && again.state == Queued && again.attempt == 0
    ensures var final := After(Enqueue(q, item, maxDepth).0, run, maxDepth, from);
            && item.jobId in final.items
            && Enqueue(final, again, maxDepth) ==
               (final, if again.kind == item.kind && again.payload == item.payload
                   && again.maxAttempts == item.maxAttempts
                       then Existing(final.items[item.jobId]) else KeyConflict)
  {
    var added := Enqueue(q, item, maxDepth).0;
    StepKeepsConsistent(q, OpEnqueue(item), maxDepth, from);
    StepKeepsBounded(q, OpEnqueue(item), maxDepth, from);
    RunConserves(added, run, maxDepth, from);
    var final := After(added, run, maxDepth, from);
    assert Evolves(added.items[item.jobId], final.items[item.jobId]);
    assert JobOk(final, item.jobId);
  }

  // ---------------------------------------------------------------- bounded effort

  /** How many steps of a run change job `id`. */
  ghost function Changes(q: Queue, run: seq<Event>, maxDepth: nat, from: Time, id: JobId): nat
    requires Possible(q, run, maxDepth, from)
    decreases |run|
  {
    if run == [] then 0
    else
      var next := Step(q, run[0].op, maxDepth, run[0].now);
      (if id in q.items && id in next.items && q.items[id] != next.items[id] then 1 else 0)
      + Changes(next, run[1..], maxDepth, run[0].now, id)
  }

  /** A job present at the start is changed at most `Remaining` times, so at most twice its attempt
      budget plus one; once that is used up it is terminal. */
  lemma {:induction false} EffortIsBounded(q: Queue, run: seq<Event>, maxDepth: nat, from: Time, id: JobId)
    requires Consistent(q) && Possible(q, run, maxDepth, from) && id in q.items
    ensures var final := After(q, run, maxDepth, from);
            && id in final.items
            && Changes(q, run, maxDepth, from, id) + Remaining(final.items[id]) <= Remaining(q.items[id])
            && (Remaining(final.items[id]) == 0 <==> !final.items[id].Active())
            && Remaining(q.items[id]) <= 2 * q.items[id].maxAttempts + 1
    decreases |run|
  {
    assert JobOk(q, id);
    if run != [] {
      var next := Step(q, run[0].op, maxDepth, run[0].now);
      StepKeepsConsistent(q, run[0].op, maxDepth, run[0].now);
      StepEvolves(q, run[0].op, maxDepth, run[0].now);
      assert Evolves(q.items[id], next.items[id]);
      EffortIsBounded(next, run[1..], maxDepth, run[0].now, id);
    }
  }

  /** Each successful acquire, complete or retry does change the job it is about. */
  lemma EverySuccessCounts(q: Queue, w: LeasedWork, delay: Time, error: string, now: Time)
    requires Consistent(q)
    ensures Complete(q, w, now).1.Some? ==>
              w.item.jobId in q.items && Complete(q, w, now).0.items[w.item.jobId] != q.items[w.item.jobId]
    ensures Retry(q, w, delay, error, now).1.Some? ==>
              w.item.jobId in q.items && Retry(q, w, delay, error, now).0.items[w.item.jobId] != q.items[w.item.jobId]
  {
    if w.item.jobId in q.items { assert JobOk(q, w.item.jobId); }
  }

  lemma {:induction false} EveryGrantCounts(q: Queue, order: seq<JobId>, g: Grant)
    requires Consistent(q)
    requires forall id | id in order :: id in q.items && q.items[id].Active()
    requires forall i, j | 0 <= i < j < |order| :: order[i] != order[j]
    ensures var (next, work) := Scan(q, order, g);
            work.Some? ==>
              var id := work.value.item.jobId;
              && id in order && id in next.items && next.items[id] == work.value.item != q.items[id]
              && work.value.item.attempt == q.items[id].attempt + 1 == work.value.lease.fenceToken == TokenOf(next, id)
              && (g.ttl > 0 ==> IsCurrent(next, work.value, g.now))
    decreases |order|
  {
    if order != [] {
      assert JobOk(q, order[0]);
      if q.items[order[0]].attempt >= q.items[order[0]].maxAttempts {
        BuryKeepsConsistent(q, order[0]);
        EveryGrantCounts(Bury(q, order[0]), order[1..], g);
      }
    }
  }

  // ---------------------------------------------------------------- fencing

  /** The holder was given this lease, and it is no longer the live one. */
  predicate Superseded(q: Queue, w: LeasedWork, now: Time) {
    w.item.jobId in q.items && w.lease.fenceToken <= TokenOf(q, w.item.jobId) && !IsCurrent(q, w, now)
  }

  lemma {:induction false} ScanKeepsSuperseded(q: Queue, order: seq<JobId>, g: Grant, w: LeasedWork, now: Time)
    requires Consistent(q) && Superseded(q, w, now)
    requires forall id | id in order :: id in q.items && q.items[id].Active()
    requires forall i, j | 0 <= i < j < |order| :: order[i] != order[j]
    ensures Superseded(Scan(q, order, g).0, w, now)
    decreases |order|
  {
    if order != [] && q.items[order[0]].attempt >= q.items[order[0]].maxAttempts {
      BuryKeepsConsistent(q, order[0]);
      ScanKeepsSuperseded(Bury(q, order[0]), order[1..], g, w, now);
    }
  }

  lemma StepKeepsSuperseded(q: Queue, op: Op, maxDepth: nat, w: LeasedWork, before: Time, now: Time)
    requires Consistent(q) && Superseded(q, w, before) && before <= now && Enabled(q, op, now)
    ensures Superseded(Step(q, op, maxDepth, now), w, now)
  {
    assert Superseded(q, w, now);
    match op
    case OpEnqueue(item) =>
    case OpAcquire(queue, tenant, owner, ttl, id, order) =>
      ScanKeepsSuperseded(q, order, Grant(owner, ttl, id, now), w, now);
    case OpComplete(v) =>
    case OpRetry(v, delay, error) =>
  }

  /** A superseded holder can never again complete or retry the job, whatever happens in between. */
  lemma {:induction false} SupersededForever(q: Queue, run: seq<Event>, maxDepth: nat, from: Time, w: LeasedWork,
                                             later: Time, delay: Time, error: string)
    requires Consistent(q) && Superseded(q, w, from) && Possible(q, run, maxDepth, from) && EndOf(run, from) <= later
    ensures var final := After(q, run, maxDepth, from);
            Complete(final, w, later) == (final, None) && Retry(final, w, delay, error, later) == (final, None)
    decreases |run|
  {
    if run != [] {
      StepKeepsConsistent(q, run[0].op, maxDepth, run[0].now);
      StepKeepsSuperseded(q, run[0].op, maxDepth, w, from, run[0].now);
      SupersededForever(Step(q, run[0].op, maxDepth, run[0].now), run[1..], maxDepth, run[0].now, w, later, delay,
          error);
    }
  }

  /** A new grant supersedes every earlier holder of the job on the spot. */
  lemma GrantSupersedes(q: Queue, order: seq<JobId>, g: Grant, w: LeasedWork)
    requires Consistent(q)
    requires forall id | id in order :: id in q.items && q.items[id].Active()
    requires forall i, j | 0 <= i < j < |order| :: order[i] != order[j]
    requires w.item.jobId in q.items && w.lease.fenceToken <= TokenOf(q, w.item.jobId)
    requires Scan(q, order, g).1.Some? && Scan(q, order, g).1.value.item.jobId == w.item.jobId
    ensures Superseded(Scan(q, order, g).0, w, g.now)
  {
    EveryGrantCounts(q, order, g);
    ScanKeepsConsistent(q, order, g);
    assert JobOk(Scan(q, order, g).0, w.item.jobId);
  }

  /** How many times a run completes job `id`. */
  ghost function Completions(q: Queue, run: seq<Event>, maxDepth: nat, from: Time, id: JobId): nat
    requires Possible(q, run, maxDepth, from)
    decreases |run|
  {
    if run == [] then 0
    else
      (if run[0].op.OpComplete? && run[0].op.work.item.jobId == id && Complete(q, run[0].op.work, run[0].now).1.Some?
       then 1 else 0)
      + Completions(Step(q, run[0].op, maxDepth, run[0].now), run[1..], maxDepth, run[0].now, id)
  }

  /** Every job succeeds at most once, and not at all once it is terminal. */
  lemma {:induction false} SucceedsAtMostOnce(q: Queue, run: seq<Event>, maxDepth: nat, from: Time, id: JobId)
    requires Consistent(q) && Possible(q, run, maxDepth, from)
    ensures Completions(q, run, maxDepth, from, id) <= 1
    ensures id in q.items && !q.items[id].Active() ==> Completions(q, run, maxDepth, from, id) == 0
    decreases |run|
  {
    if run != [] {
      var next := Step(q, run[0].op, maxDepth, run[0].now);
      StepKeepsConsistent(q, run[0].op, maxDepth, run[0].now);
      StepEvolves(q, run[0].op, maxDepth, run[0].now);
      assert id in q.items ==> Evolves(q.items[id], next.items[id]);
      SucceedsAtMostOnce(next, run[1..], maxDepth, run[0].now, id);
    }
  }

  /** Only the holder of the job's highest token completes it. */
  lemma HighestTokenCompletes(q: Queue, w: LeasedWork, now: Time)
    requires Consistent(q) && Complete(q, w, now).1.Some?
    ensures w.item.jobId in q.items
    ensures w.lease.fenceToken == w.item.attempt == TokenOf(q, w.item.jobId) == q.items[w.item.jobId].attempt
    ensures Complete(q, w, now).0.items[w.item.jobId].state == Succeeded
  {
    assert JobOk(q, w.item.jobId);
  }
}
