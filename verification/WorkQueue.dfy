/** The durable work queue as a state machine: enqueue, acquire, complete and retry, each one atomic
    step over items, identities, leases and fence tokens. */
module WorkQueue {
  import opened Common

  type Time = int
  type JobId = string

  datatype WorkState = Queued | Leased | Succeeded | DeadLetter

  datatype Item = Item(
    jobId: JobId, tenantId: string, queue: string, kind: string, idempotencyKey: string, payload: string,
    createdAt: Time, availableAt: Time, attempt: nat, maxAttempts: nat,
    state: WorkState, completedAt: Option<Time>, lastError: Option<string>)
  {
    function Key(): WorkKey { WorkKey(tenantId, queue, idempotencyKey) }
    predicate Active() { state == Queued || state == Leased }
  }

  datatype WorkKey = WorkKey(tenantId: string, queue: string, idempotencyKey: string)

  datatype Lease = Lease(
    leaseId: nat, tenantId: string, ownerId: string, fenceToken: nat, acquiredAt: Time, expiresAt: Time)

  /** A work item together with the lease its holder must present. */
  datatype LeasedWork = LeasedWork(item: Item, lease: Lease)

  datatype Queue = Queue(
    items: map<JobId, Item>, identities: map<WorkKey, JobId>, leases: map<JobId, Lease>, tokens: map<JobId, nat>)

  const EMPTY := Queue(map[], map[], map[], map[])

  function TokenOf(q: Queue, id: JobId): nat {
    if id in q.tokens then q.tokens[id] else 0
  }

  // ---------------------------------------------------------------- steps

  datatype EnqueueOutcome = InvalidItem | Existing(item: Item) | KeyConflict | Overloaded | Added(item: Item)

  /** Jobs of a queue, over all tenants, that are still queued or leased. */
  function ActiveJobs(q: Queue, queue: string): set<JobId> {
    set id | id in q.items && q.items[id].queue == queue && q.items[id].Active()
  }

  function Enqueue(q: Queue, item: Item, maxDepth: nat): (Queue, EnqueueOutcome) {
    if item.state != Queued || item.attempt != 0 then (q, InvalidItem)
    else if item.Key() in q.identities && q.identities[item.Key()] in q.items then
      var existing := q.items[q.identities[item.Key()]];
      if existing.kind != item.kind || existing.payload != item.payload || existing.maxAttempts != item.maxAttempts
      then (q, KeyConflict)
      else (q, Existing(existing))
    else if |ActiveJobs(q, item.queue)| >= maxDepth then (q, Overloaded)
    else
      (q.(items := q.items[item.jobId := item], identities := q.identities[item.Key() := item.jobId]), Added(item))
  }

  /** The item is new work under the id of another job, which its own entry then replaces. */
  predicate Overwrites(q: Queue, item: Item, maxDepth: nat) {
    && item.state == Queued && item.attempt == 0
    && item.Key() !in q.identities && item.jobId in q.items
    && |ActiveJobs(q, item.queue)| < maxDepth
  }

  predicate Eligible(q: Queue, id: JobId, now: Time) {
    id in q.items &&
    match q.items[id].state
    case Queued => q.items[id].availableAt <= now
    case Leased => id !in q.leases || now >= q.leases[id].expiresAt
    case _ => false
  }

  function EligibleJobs(q: Queue, queue: string, tenant: string, now: Time): set<JobId> {
    set id | id in q.items && q.items[id].queue == queue && q.items[id].tenantId == tenant && Eligible(q, id, now)
  }

  /** The sort key both stores share; they differ in how they break its ties. */
  predicate EarlierKey(a: Item, b: Item) {
    a.availableAt < b.availableAt || (a.availableAt == b.availableAt && a.createdAt < b.createdAt)
  }

  /** `order` lists exactly `jobs`, without repetition, none before a job of an earlier key. */
  ghost predicate IsOrder(items: map<JobId, Item>, jobs: set<JobId>, order: seq<JobId>) {
    && jobs <= items.Keys
    && (forall id :: id in order <==> id in jobs)
    && (forall i, j | 0 <= i < j < |order| :: order[i] != order[j])
    && (forall i, j | 0 <= i < j < |order| ::
        order[i] in items && order[j] in items && !EarlierKey(items[order[j]], items[order[i]]))
  }

  const FINAL_EXPIRY := "lease expired after final attempt"

  function Buried(item: Item): Item {
    item.(state := DeadLetter,
          lastError := if item.lastError.Some? && item.lastError.value != "" then item.lastError
                       else Some(FINAL_EXPIRY))
  }

  function Bury(q: Queue, id: JobId): Queue
    requires id in q.items
  {
    q.(items := q.items[id := Buried(q.items[id])], leases := q.leases - {id})
  }

  datatype Grant = Grant(ownerId: string, ttl: Time, freshId: nat, now: Time)

  function Lend(q: Queue, id: JobId, g: Grant): (Queue, LeasedWork)
    requires id in q.items
  {
    var token := TokenOf(q, id) + 1;
    var lease := Lease(g.freshId, q.items[id].tenantId, g.ownerId, token, g.now, g.now + g.ttl);
    var item := q.items[id].(state := Leased, attempt := q.items[id].attempt + 1);
    (Queue(q.items[id := item], q.identities, q.leases[id := lease], q.tokens[id := token]), LeasedWork(item, lease))
  }

  /** Walk the candidates: bury those out of attempts, lend the first that has one left. */
  function Scan(q: Queue, order: seq<JobId>, g: Grant): (Queue, Option<LeasedWork>)
    requires forall id | id in order :: id in q.items
    decreases |order|
  {
    if order == [] then (q, None)
    else if q.items[order[0]].attempt >= q.items[order[0]].maxAttempts then Scan(Bury(q, order[0]), order[1..], g)
    else
      var (next, work) := Lend(q, order[0], g);
      (next, Some(work))
  }

  /** `_require_current`: is the presented lease the live one? */
  predicate IsCurrent(q: Queue, w: LeasedWork, now: Time) {
    var id := w.item.jobId;
    && id in q.items
    && q.items[id].state == Leased
    && q.items[id].tenantId == w.item.tenantId
    && q.items[id].attempt == w.item.attempt
    && id in q.leases
    && q.leases[id].tenantId == w.item.tenantId
    && q.leases[id].leaseId == w.lease.leaseId
    && q.leases[id].ownerId == w.lease.ownerId
    && q.leases[id].fenceToken == w.lease.fenceToken
    && now < q.leases[id].expiresAt
  }

  function Complete(q: Queue, w: LeasedWork, now: Time): (Queue, Option<Item>) {
    if !IsCurrent(q, w, now) then (q, None)
    else
      var done := q.items[w.item.jobId].(state := Succeeded, completedAt := Some(now));
      (q.(items := q.items[done.jobId := done], leases := q.leases - {w.item.jobId}), Some(done))
  }

  function Retried(item: Item, delay: Time, error: string, now: Time): Item {
    if item.attempt >= item.maxAttempts then item.(state := DeadLetter, lastError := Some(error))
    else item.(state := Queued, availableAt := now + delay, lastError := Some(error))
  }

  function Retry(q: Queue, w: LeasedWork, delay: Time, error: string, now: Time): (Queue, Option<Item>) {
    if delay < 0 || IsBlank(error) || !IsCurrent(q, w, now) then (q, None)
    else
      var id := w.item.jobId;
      var updated := Retried(q.items[id], delay, error, now);
      (q.(items := q.items[id := updated], leases := q.leases - {id}), Some(updated))
  }

  datatype Op =
    | OpEnqueue(item: Item)
    | OpAcquire(queue: string, tenant: string, ownerId: string, ttl: Time, freshId: nat, order: seq<JobId>)
    | OpComplete(work: LeasedWork)
    | OpRetry(work: LeasedWork, delay: Time, error: string)

  /** What an operation may assume: new jobs have fresh ids and a sane attempt budget, and an acquire
      walks the eligible jobs in key order. */
  ghost predicate Enabled(q: Queue, op: Op, now: Time) {
    match op
    case OpEnqueue(item) => item.maxAttempts >= 1 && (item.Key() !in q.identities ==> item.jobId !in q.items)
    case OpAcquire(queue, tenant, _, ttl, _, order) => ttl > 0
        && IsOrder(q.items, EligibleJobs(q, queue, tenant, now), order)
    case _ => true
  }

  ghost function Step(q: Queue, op: Op, maxDepth: nat, now: Time): Queue
    requires Enabled(q, op, now)
  {
    match op
    case OpEnqueue(item) => Enqueue(q, item, maxDepth).0
    case OpAcquire(_, _, owner, ttl, id, order) => Scan(q, order, Grant(owner, ttl, id, now)).0
    case OpComplete(w) => Complete(q, w, now).0
    case OpRetry(w, delay, error) => Retry(q, w, delay, error, now).0
  }

  // ---------------------------------------------------------------- the invariant

  /** One job's share of the invariant: its attempt count is its fence token and within budget, it has
      a lease exactly while leased, and it is only queued while attempts remain. */
  ghost predicate JobOk(q: Queue, id: JobId)
    requires id in q.items
  {
    var item := q.items[id];
    && item.jobId == id
    && item.attempt == TokenOf(q, id) <= item.maxAttempts && item.maxAttempts >= 1
    && (item.state == Leased <==> id in q.leases)
    && (id in q.leases ==> q.leases[id].fenceToken == item.attempt && q.leases[id].tenantId == item.tenantId)
    && (item.state == Queued ==> item.attempt < item.maxAttempts)
    && item.Key() in q.identities && q.identities[item.Key()] == id
  }

  ghost predicate Consistent(q: Queue) {
    && (forall id | id in q.items :: JobOk(q, id))
    && q.leases.Keys <= q.items.Keys
    && q.tokens.Keys <= q.items.Keys
    && (forall k | k in q.identities :: q.identities[k] in q.items && q.items[q.identities[k]].Key() == k)
  }

  ghost predicate Bounded(q: Queue, maxDepth: nat) {
    forall queue :: |ActiveJobs(q, queue)| <= maxDepth
  }

  /** Changing one job in a way that keeps its share of the invariant keeps the whole. */
  lemma OneJobChange(q: Queue, next: Queue, id: JobId)
    requires Consistent(q) && id in q.items
    requires next.identities == q.identities && next.items.Keys == q.items.Keys
    requires next.items[id].Key() == q.items[id].Key()
    requires forall other | other in q.items && other != id ::
               next.items[other] == q.items[other] && TokenOf(next, other) == TokenOf(q, other)
               && (other in next.leases <==> other in q.leases)
               && (other in q.leases ==> next.leases[other] == q.leases[other])
    requires JobOk(next, id)
    requires next.leases.Keys <= q.items.Keys && next.tokens.Keys <= q.items.Keys
    ensures Consistent(next)
  {
    forall other | other in next.items ensures JobOk(next, other) {
      if other != id { assert JobOk(q, other); }
    }
  }

  lemma BuryKeepsConsistent(q: Queue, id: JobId)
    requires Consistent(q) && id in q.items && q.items[id].Active() && q.items[id].attempt >= q.items[id].maxAttempts
    ensures Consistent(Bury(q, id))
  {
    assert JobOk(q, id);
    OneJobChange(q, Bury(q, id), id);
  }

  lemma LendKeepsConsistent(q: Queue, id: JobId, g: Grant)
    requires Consistent(q) && id in q.items && q.items[id].attempt < q.items[id].maxAttempts
    ensures Consistent(Lend(q, id, g).0)
  {
    assert JobOk(q, id);
    OneJobChange(q, Lend(q, id, g).0, id);
  }

  lemma {:induction false} ScanKeepsConsistent(q: Queue, order: seq<JobId>, g: Grant)
    requires Consistent(q)
    requires forall id | id in order :: id in q.items && q.items[id].Active()
    requires forall i, j | 0 <= i < j < |order| :: order[i] != order[j]
    ensures Consistent(Scan(q, order, g).0)
    decreases |order|
  {
    if order != [] {
      if q.items[order[0]].attempt >= q.items[order[0]].maxAttempts {
        BuryKeepsConsistent(q, order[0]);
        ScanKeepsConsistent(Bury(q, order[0]), order[1..], g);
      } else {
        LendKeepsConsistent(q, order[0], g);
      }
    }
  }

  lemma FinishKeepsConsistent(q: Queue, id: JobId, updated: Item)
    requires Consistent(q) && id in q.items && q.items[id].state == Leased
    requires updated.state != Leased && (updated.state == Queued ==> updated.attempt < updated.maxAttempts)
    requires updated.jobId == id && updated.attempt == q.items[id].attempt
             && updated.maxAttempts == q.items[id].maxAttempts
    requires updated.Key() == q.items[id].Key()
    ensures Consistent(q.(items := q.items[id := updated], leases := q.leases - {id}))
  {
    assert JobOk(q, id);
    OneJobChange(q, q.(items := q.items[id := updated], leases := q.leases - {id}), id);
  }

  /** Enqueueing keeps the invariant exactly unless it reuses a job's id under another identity. */
  lemma EnqueueKeepsConsistent(q: Queue, item: Item, maxDepth: nat)
    requires Consistent(q) && item.maxAttempts >= 1
    ensures Consistent(Enqueue(q, item, maxDepth).0) <==> !Overwrites(q, item, maxDepth)
  {
    hide ActiveJobs;
    var (next, outcome) := Enqueue(q, item, maxDepth);
    if Overwrites(q, item, maxDepth) {
      var lost := q.items[item.jobId];
      assert JobOk(q, item.jobId);
      assert next.identities[lost.Key()] == item.jobId && next.items[item.jobId].Key() != lost.Key();
    } else if outcome.Added? {
      forall id | id in next.items ensures JobOk(next, id) {
        if id != item.jobId { assert JobOk(q, id); }
      }
    }
  }

  lemma StepKeepsConsistent(q: Queue, op: Op, maxDepth: nat, now: Time)
    requires Consistent(q) && Enabled(q, op, now)
    ensures Consistent(Step(q, op, maxDepth, now))
  {
    match op
    case OpEnqueue(item) => EnqueueKeepsConsistent(q, item, maxDepth);
    case OpAcquire(queue, tenant, owner, ttl, id, order) => ScanKeepsConsistent(q, order, Grant(owner, ttl, id, now));
    case OpComplete(w) =>
      if IsCurrent(q, w, now) {
        assert JobOk(q, w.item.jobId);
        FinishKeepsConsistent(q, w.item.jobId, q.items[w.item.jobId].(state := Succeeded, completedAt := Some(now)));
      }
    case OpRetry(w, delay, error) =>
      if IsCurrent(q, w, now) {
        assert JobOk(q, w.item.jobId);
        FinishKeepsConsistent(q, w.item.jobId, Retried(q.items[w.item.jobId], delay, error, now));
      }
  }
}
