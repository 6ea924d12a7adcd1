/** The two work-queue stores: the in-memory one walks a sorted candidate list, the PostgreSQL one
    selects one row at a time. Both are proved against the same `Scan`. */
module WorkStores {
  import opened Common
  import opened WorkQueue
  import Text

  const MAX_TTL: Time := 86_400_000 // milliseconds

  datatype AcquireOutcome = InvalidInput | Idle | Acquired(work: LeasedWork)

  function AsOutcome(work: Option<LeasedWork>): AcquireOutcome {
    if work.Some? then Acquired(work.value) else Idle
  }

  predicate ValidInput(queue: string, tenant: string, owner: string, ttl: Time) {
    0 < ttl <= MAX_TTL && !IsBlank(queue) && !IsBlank(tenant) && !IsBlank(owner)
  }

  // ---------------------------------------------------------------- sorting the candidates

  /** The in-memory sort key: (available_at, created_at, job id). */
  predicate Before(a: Item, b: Item) {
    EarlierKey(a, b) || (a.availableAt == b.availableAt && a.createdAt == b.createdAt && Text.Less(a.jobId, b.jobId))
  }

  ghost predicate Keyed(items: map<JobId, Item>) {
    forall id | id in items :: items[id].jobId == id
  }

  ghost predicate Ascending(items: map<JobId, Item>, order: seq<JobId>) {
    && (forall i | 0 <= i < |order| :: order[i] in items)
    && (forall i, j | 0 <= i < j < |order| :: Before(items[order[i]], items[order[j]]))
  }

  function Insert(items: map<JobId, Item>, order: seq<JobId>, id: JobId): (r: seq<JobId>)
    requires id in items && forall x | x in order :: x in items
    ensures forall x :: x in r <==> x == id || x in order
  {
    if order == [] || Before(items[id], items[order[0]]) then [id] + order
    else
      assert order == [order[0]] + order[1..];
      [order[0]] + Insert(items, order[1..], id)
  }

  lemma {:induction false} InsertAscends(items: map<JobId, Item>, order: seq<JobId>, id: JobId)
    requires Keyed(items) && Ascending(items, order) && id in items && id !in order
    requires forall x | x in order :: x in items
    ensures Ascending(items, Insert(items, order, id))
  {
    if order != [] {
      if Before(items[id], items[order[0]]) {
        forall j | 0 <= j < |order| ensures Before(items[id], items[order[j]]) {
          if j > 0 { BeforeTransitive(items[id], items[order[0]], items[order[j]]); }
        }
      } else {
        Text.LessTotal(id, order[0]);
        InsertAscends(items, order[1..], id);
        var rest := Insert(items, order[1..], id);
        forall j | 0 <= j < |rest| ensures Before(items[order[0]], items[rest[j]]) {
          assert rest[j] in rest;
        }
      }
    }
  }

  lemma BeforeTransitive(a: Item, b: Item, c: Item)
    requires Before(a, b) && Before(b, c)
    ensures Before(a, c)
  {
    if Text.Less(a.jobId, b.jobId) && Text.Less(b.jobId, c.jobId) {
      Text.LessTransitive(a.jobId, b.jobId, c.jobId);
    }
  }

  lemma BeforeIrreflexive(a: Item)
    ensures !Before(a, a)
  {
    Text.LessIrreflexive(a.jobId);
  }

  /** An ascending list of the jobs is an order in the sense both stores share. */
  lemma AscendingIsOrder(items: map<JobId, Item>, jobs: set<JobId>, order: seq<JobId>)
    requires Ascending(items, order) && jobs <= items.Keys && forall id :: id in order <==> id in jobs
    ensures IsOrder(items, jobs, order)
  {
    forall i, j | 0 <= i < j < |order| ensures order[i] != order[j] {
      BeforeIrreflexive(items[order[i]]);
    }
  }

  method SortedCandidates(items: map<JobId, Item>, jobs: set<JobId>) returns (order: seq<JobId>)
    requires Keyed(items) && jobs <= items.Keys
    ensures Ascending(items, order) && IsOrder(items, jobs, order)
  {
    order := [];
    var remaining := jobs;
    while remaining != {}
      invariant remaining <= jobs
      invariant forall id :: id in order <==> id in jobs && id !in remaining
      invariant Ascending(items, order)
      decreases |remaining|
    {
      var id :| id in remaining;
      InsertAscends(items, order, id);
      order := Insert(items, order, id);
      remaining := remaining - {id};
    }
    AscendingIsOrder(items, jobs, order);
  }

  // ---------------------------------------------------------------- the in-memory store

  lemma ConsistentIsKeyed(q: Queue)
    requires Consistent(q)
    ensures Keyed(q.items)
  {
    forall id | id in q.items ensures q.items[id].jobId == id { assert JobOk(q, id); }
  }

  lemma OrderIsEligible(q: Queue, queue: string, tenant: string, now: Time, order: seq<JobId>)
    requires IsOrder(q.items, EligibleJobs(q, queue, tenant, now), order)
    ensures forall id | id in order :: id in q.items && q.items[id].Active()
  {
  }

  lemma DistinctInOrder(items: map<JobId, Item>, jobs: set<JobId>, order: seq<JobId>)
    requires IsOrder(items, jobs, order)
    ensures forall i, j | 0 <= i < j < |order| :: order[i] != order[j]
  {
  }

  lemma ScanEmpty(q: Queue, g: Grant)
    ensures Scan(q, [], g) == (q, None)
  {
  }

  lemma ScanStep(q: Queue, id: JobId, rest: seq<JobId>, g: Grant)
    requires id in q.items && forall x | x in rest :: x in q.items
    ensures Scan(q, [id] + rest, g) ==
            if q.items[id].attempt >= q.items[id].maxAttempts then Scan(Bury(q, id), rest, g)
            else (Lend(q, id, g).0, Some(Lend(q, id, g).1))
  {
    assert ([id] + rest)[1..] == rest;
  }

  class InMemoryDurableWorkQueue {
    const maxQueueDepth: nat
    var items: map<JobId, Item>
    var identities: map<WorkKey, JobId>
    var leases: map<JobId, Lease>
    var fenceTokens: map<JobId, nat>

    ghost function State(): Queue
      reads this
    {
      Queue(items, identities, leases, fenceTokens)
    }

    ghost predicate Valid()
      reads this
    {
      maxQueueDepth >= 1 && Consistent(State())
    }

    constructor (maxQueueDepth: nat)
      requires maxQueueDepth >= 1
      ensures Valid() && State() == EMPTY && this.maxQueueDepth == maxQueueDepth
    {
      this.maxQueueDepth := maxQueueDepth;
      items, identities, leases, fenceTokens := map[], map[], map[], map[];
    }

    method EnqueueWork(item: Item) returns (outcome: EnqueueOutcome)
      requires Valid() && item.maxAttempts >= 1
      modifies this
      ensures Valid() <==> !Overwrites(old(State()), item, maxQueueDepth)
      ensures (State(), outcome) == Enqueue(old(State()), item, maxQueueDepth)
    {
      EnqueueKeepsConsistent(State(), item, maxQueueDepth);
      if item.state != Queued || item.attempt != 0 {
        return InvalidItem;
      }
      if item.Key() in identities {
        var existing := items[identities[item.Key()]];
        if existing.kind != item.kind || existing.payload != item.payload || existing.maxAttempts != item.maxAttempts {
          return KeyConflict;
        }
        return Existing(existing);
      }
      var active := set id | id in items && items[id].queue == item.queue && items[id].Active();
      assert active == ActiveJobs(State(), item.queue);
      if |active| >= maxQueueDepth {
        return Overloaded;
      }
      items := items[item.jobId := item];
      identities := identities[item.Key() := item.jobId];
      return Added(item);
    }

    method AcquireWork(queue: string, owner: string, ttl: Time, tenant: string, freshId: nat, now: Time)
      returns (outcome: AcquireOutcome, ghost order: seq<JobId>)
      requires Valid()
      modifies this
      ensures Valid()
      ensures outcome.InvalidInput? <==> !ValidInput(queue, tenant, owner, ttl)
      ensures outcome.InvalidInput? ==> State() == old(State())
      ensures !outcome.InvalidInput? ==>
                && IsOrder(old(items), EligibleJobs(old(State()), queue, tenant, now), order)
                && Ascending(old(items), order)
                && (forall id | id in order :: id in old(items))
                && State() == Scan(old(State()), order, Grant(owner, ttl, freshId, now)).0
                && outcome == AsOutcome(Scan(old(State()), order, Grant(owner, ttl, freshId, now)).1)
    {
      order := [];
      if !ValidInput(queue, tenant, owner, ttl) {
        return InvalidInput, [];
      }
      hide Consistent, IsOrder, Ascending;
      ConsistentIsKeyed(State());
      var jobs := set id | id in items && items[id].queue == queue && items[id].tenantId == tenant
          && IsEligible(id, now);
      assert jobs == EligibleJobs(State(), queue, tenant, now);
      var candidates := SortedCandidates(items, jobs);
      order := candidates;
      OrderIsEligible(State(), queue, tenant, now, candidates);
      DistinctInOrder(items, jobs, candidates);
      ScanKeepsConsistent(State(), candidates, Grant(owner, ttl, freshId, now));
      outcome := WalkCandidates(candidates, Grant(owner, ttl, freshId, now));
    }

    /** The loop over the sorted candidates. */
    method WalkCandidates(candidates: seq<JobId>, g: Grant) returns (outcome: AcquireOutcome)
      requires forall id | id in candidates :: id in items
      modifies this
      ensures State() == Scan(old(State()), candidates, g).0
      ensures outcome == AsOutcome(Scan(old(State()), candidates, g).1)
    {
      hide Scan;
      ScanEmpty(State(), g);
      for i := 0 to |candidates|
        invariant forall id | id in candidates :: id in items
        invariant forall id | id in candidates[i..] :: id in items
        invariant Scan(State(), candidates[i..], g) == Scan(old(State()), candidates, g)
      {
        var id := candidates[i];
        var current := items[id];
        ScanStep(State(), id, candidates[i + 1..], g);
        assert candidates[i..] == [id] + candidates[i + 1..];
        if current.attempt >= current.maxAttempts {
          items := items[id := Buried(current)];
          leases := leases - {id};
        } else {
          var token := (if id in fenceTokens then fenceTokens[id] else 0) + 1;
          fenceTokens := fenceTokens[id := token];
          var lease := Lease(g.freshId, current.tenantId, g.ownerId, token, g.now, g.now + g.ttl);
          var leased := current.(state := Leased, attempt := current.attempt + 1);
          items := items[id := leased];
          leases := leases[id := lease];
          return Acquired(LeasedWork(leased, lease));
        }
      }
      assert candidates[|candidates|..] == [];
      ScanEmpty(State(), g);
      return Idle;
    }

    predicate IsEligible(id: JobId, now: Time)
      requires id in items
      reads this
      ensures IsEligible(id, now) == Eligible(State(), id, now)
    {
      match items[id].state
      case Queued => items[id].availableAt <= now
      case Leased => id !in leases || now >= leases[id].expiresAt
      case _ => false
    }

    /** `_require_current` */
    predicate Owns(w: LeasedWork, now: Time)
      reads this
      ensures Owns(w, now) == IsCurrent(State(), w, now)
    {
      var id := w.item.jobId;
      && id in items && id in leases
      && items[id].state == Leased && items[id].tenantId == w.item.tenantId && items[id].attempt == w.item.attempt
      && leases[id].tenantId == w.item.tenantId && leases[id].leaseId == w.lease.leaseId
      && leases[id].ownerId == w.lease.ownerId && leases[id].fenceToken == w.lease.fenceToken
      && now < leases[id].expiresAt
    }

    method CompleteWork(w: LeasedWork, now: Time) returns (completed: Option<Item>)
      requires Valid()
      modifies this
      ensures Valid()
      ensures (State(), completed) == Complete(old(State()), w, now)
    {
      StepKeepsConsistent(State(), OpComplete(w), maxQueueDepth, now);
      if !Owns(w, now) {
        return None;
      }
      var id := w.item.jobId;
      assert JobOk(State(), id);
      var done := items[id].(state := Succeeded, completedAt := Some(now));
      items := items[id := done];
      leases := leases - {id};
      return Some(done);
    }

    method RetryWork(w: LeasedWork, delay: Time, error: string, now: Time) returns (updated: Option<Item>)
      requires Valid()
      modifies this
      ensures Valid()
      ensures (State(), updated) == Retry(old(State()), w, delay, error, now)
    {
      StepKeepsConsistent(State(), OpRetry(w, delay, error), maxQueueDepth, now);
      if delay < 0 || IsBlank(error) || !Owns(w, now) {
        return None;
      }
      var id := w.item.jobId;
      var next := Retried(items[id], delay, error, now);
      items := items[id := next];
      leases := leases - {id};
      return Some(next);
    }
  }

  // ---------------------------------------------------------------- the PostgreSQL store

  /** A row the `ORDER BY ... LIMIT 1` query may return: no eligible row has an earlier key. */
  predicate Selectable(items: map<JobId, Item>, eligible: set<JobId>, id: JobId)
    requires eligible <= items.Keys
  {
    id in eligible && forall other | other in eligible :: !EarlierKey(items[other], items[id])
  }

  lemma {:induction false} SelectableExists(items: map<JobId, Item>, eligible: set<JobId>) returns (id: JobId)
    requires eligible != {} && eligible <= items.Keys
    ensures Selectable(items, eligible, id)
  {
    var x :| x in eligible;
    if eligible == {x} {
      id := x;
    } else {
      var best := SelectableExists(items, eligible - {x});
      id := if EarlierKey(items[x], items[best]) then x else best;
    }
  }

  /** Some order of the eligible jobs; which one, among ties, is left open. */
  lemma {:induction false} OrderExists(items: map<JobId, Item>, eligible: set<JobId>) returns (order: seq<JobId>)
    requires eligible <= items.Keys
    ensures IsOrder(items, eligible, order)
    decreases |eligible|
  {
    if eligible == {} {
      order := [];
    } else {
      var id := SelectableExists(items, eligible);
      var rest := OrderExists(items, eligible - {id});
      order := [id] + rest;
      assert forall k | 0 <= k < |rest| :: rest[k] in rest;
    }
  }

  function BuryAll(q: Queue, ids: seq<JobId>): Queue
    requires forall id | id in ids :: id in q.items
    ensures BuryAll(q, ids).items.Keys == q.items.Keys
  {
    if ids == [] then q else Bury(BuryAll(q, ids[..|ids| - 1]), ids[|ids| - 1])
  }

  /** Rows dead-lettered so far: each was selectable when it was taken, and out of attempts. */
  ghost predicate BuriedInOrder(q: Queue, eligible: set<JobId>, buried: seq<JobId>) {
    && eligible <= q.items.Keys
    && (forall id | id in buried :: id in eligible && q.items[id].attempt >= q.items[id].maxAttempts)
    && (forall i, j | 0 <= i < j < |buried| :: buried[i] != buried[j])
    && (forall i | 0 <= i < |buried| :: forall other | other in eligible && other !in buried[..i] ::
          !EarlierKey(q.items[other], q.items[buried[i]]))
  }

  /** The rows buried first, followed by any order of the others, is an order of them all. */
  lemma BuriedThenRest(q: Queue, eligible: set<JobId>, buried: seq<JobId>, rest: seq<JobId>)
    requires BuriedInOrder(q, eligible, buried)
    requires IsOrder(q.items, eligible - (set id | id in buried), rest)
    ensures IsOrder(q.items, eligible, buried + rest)
  {
    var order := buried + rest;
    forall i, j | 0 <= i < j < |order|
      ensures order[i] != order[j] && order[i] in q.items && order[j] in q.items
              && !EarlierKey(q.items[order[j]], q.items[order[i]])
    {
      assert order[i] in order && order[j] in order;
      if i < |buried| {
        assert order[i] in buried;
        if j >= |buried| { assert order[j] in rest; }
      } else {
        assert order[i] == rest[i - |buried|] && order[j] == rest[j - |buried|];
      }
    }
    forall id ensures id in order <==> id in eligible {
      assert id in order <==> id in buried || id in rest;
    }
  }

  /** Scanning past rows that are out of attempts buries them. */
  lemma {:induction false} ScanPastBuried(q: Queue, buried: seq<JobId>, rest: seq<JobId>, g: Grant)
    requires forall id | id in buried + rest :: id in q.items
    requires forall id | id in buried :: q.items[id].attempt >= q.items[id].maxAttempts
    ensures forall id | id in rest :: id in BuryAll(q, buried).items
    ensures Scan(q, buried + rest, g) == Scan(BuryAll(q, buried), rest, g)
    decreases |buried|
  {
    assert forall id | id in buried :: id in buried + rest;
    assert forall id | id in rest :: id in buried + rest;
    if buried == [] {
      assert buried + rest == rest;
    } else {
      var last := buried[|buried| - 1];
      var front := buried[..|buried| - 1];
      assert front + ([last] + rest) == buried + rest;
      assert last in buried;
      ScanPastBuried(q, front, [last] + rest, g);
      BuryAllKeepsBudget(q, front, last);
      ScanStep(BuryAll(q, front), last, rest, g);
    }
  }

  lemma {:induction false} BuryAllKeepsBudget(q: Queue, ids: seq<JobId>, id: JobId)
    requires id in q.items && forall x | x in ids :: x in q.items
    ensures var item := BuryAll(q, ids).items[id];
            && item.attempt == q.items[id].attempt && item.maxAttempts == q.items[id].maxAttempts
            && item.queue == q.items[id].queue && item.tenantId == q.items[id].tenantId
            && !EarlierKey(item, q.items[id]) && !EarlierKey(q.items[id], item)
            && item.availableAt == q.items[id].availableAt && item.createdAt == q.items[id].createdAt
            && (item.state == if id in ids then DeadLetter else q.items[id].state)
            && (id !in ids ==> (id in BuryAll(q, ids).leases <==> id in q.leases)
                               && (id in q.leases ==> BuryAll(q, ids).leases[id] == q.leases[id]))
  {
    if ids != [] {
      assert ids == ids[..|ids| - 1] + [ids[|ids| - 1]];
      BuryAllKeepsBudget(q, ids[..|ids| - 1], id);
    }
  }

  /** What stays eligible once some rows are buried. */
  lemma EligibleAfterBurying(q: Queue, buried: seq<JobId>, queue: string, tenant: string, now: Time)
    requires forall id | id in buried :: id in q.items
    ensures EligibleJobs(BuryAll(q, buried), queue, tenant, now)
            == EligibleJobs(q, queue, tenant, now) - (set id | id in buried)
  {
    forall id | id in q.items
      ensures id in EligibleJobs(BuryAll(q, buried), queue, tenant, now)
              <==> id in EligibleJobs(q, queue, tenant, now) && id !in buried
    {
      BuryAllKeepsBudget(q, buried, id);
    }
  }

  class PostgresDurableWorkQueue {
    /** The work-item table: item columns, lease columns (absent when null) and the fence-token column. */
    var rows: Queue

    /** The one-row-at-a-time loop, at a fixed clock reading and with no row locked elsewhere.
        `order` records the order in which rows were taken. */
    method AcquireWork(queue: string, owner: string, ttl: Time, tenant: string, freshId: nat, now: Time)
      returns (outcome: AcquireOutcome, ghost order: seq<JobId>)
      requires Consistent(rows)
      modifies this
      ensures outcome.InvalidInput? <==> !ValidInput(queue, tenant, owner, ttl)
      ensures outcome.InvalidInput? ==> rows == old(rows)
      ensures !outcome.InvalidInput? ==>
                && IsOrder(old(rows).items, EligibleJobs(old(rows), queue, tenant, now), order)
                && (forall id | id in order :: id in old(rows).items)
                && rows == Scan(old(rows), order, Grant(owner, ttl, freshId, now)).0
                && outcome == AsOutcome(Scan(old(rows), order, Grant(owner, ttl, freshId, now)).1)
      ensures Consistent(rows)
    {
      if !ValidInput(queue, tenant, owner, ttl) {
        return InvalidInput, [];
      }
      hide Scan, EligibleJobs, IsOrder, BuriedInOrder, Consistent, Bury, Lend, BuryAll, IsBlank;
      ghost var g := Grant(owner, ttl, freshId, now);
      ghost var all := EligibleJobs(rows, queue, tenant, now);
      ghost var buried := [];
      NothingBuried(rows, queue, tenant, now);
      EligibleAreRows(rows, queue, tenant, now);
      while true
        invariant forall id | id in buried :: id in old(rows).items
        invariant BuriedInOrder(old(rows), all, buried)
        invariant rows == BuryAll(old(rows), buried)
        decreases |EligibleJobs(rows, queue, tenant, now)|
      {
        var eligible := EligibleJobs(rows, queue, tenant, now);
        EligibleAfterBurying(old(rows), buried, queue, tenant, now);
        EligibleAreRows(rows, queue, tenant, now);
        if eligible == {} {
          order := FinishOrder(old(rows), rows, all, buried, [], g);
          return Idle, order;
        }
        ghost var first := SelectableExists(rows.items, eligible);
        var id :| id in eligible && Selectable(rows.items, eligible, id);
        var row := rows.items[id];
        if row.attempt >= row.maxAttempts {
          BuryOne(old(rows), rows, all, buried, id);
          buried := buried + [id];
          rows := Bury(rows, id);
          EligibleAfterBurying(old(rows), buried, queue, tenant, now);
          StrictSubsetIsSmaller(EligibleJobs(rows, queue, tenant, now), eligible);
        } else {
          order := FinishOrder(old(rows), rows, all, buried, [id], g);
          var (lent, work) := Lend(rows, id, Grant(owner, ttl, freshId, now));
          rows := lent;
          return Acquired(work), order;
        }
      }
    }
  }

  lemma NothingBuried(q: Queue, queue: string, tenant: string, now: Time)
    ensures BuriedInOrder(q, EligibleJobs(q, queue, tenant, now), []) && BuryAll(q, []) == q
  {
  }

  lemma EligibleAreRows(q: Queue, queue: string, tenant: string, now: Time)
    ensures EligibleJobs(q, queue, tenant, now) <= q.items.Keys
    ensures forall id | id in EligibleJobs(q, queue, tenant, now) :: q.items[id].Active()
  {
  }

  /** One more row dead-lettered, in order. */
  lemma BuryOne(q: Queue, rows: Queue, all: set<JobId>, buried: seq<JobId>, id: JobId)
    requires BuriedInOrder(q, all, buried) && (forall x | x in buried :: x in q.items) && rows == BuryAll(q, buried)
    requires all - (set x | x in buried) <= rows.items.Keys
    requires Selectable(rows.items, all - (set x | x in buried), id)
    requires rows.items[id].attempt >= rows.items[id].maxAttempts
    ensures BuriedInOrder(q, all, buried + [id]) && (forall x | x in buried + [id] :: x in q.items)
    ensures BuryAll(q, buried + [id]) == Bury(rows, id)
  {
    var more := buried + [id];
    assert more[..|buried|] == buried;
    BuryAllKeepsBudget(q, buried, id);
    forall i | 0 <= i < |more|
      ensures forall other | other in all && other !in more[..i] :: !EarlierKey(q.items[other], q.items[more[i]])
    {
      if i < |buried| {
        assert more[..i] == buried[..i];
      } else {
        forall other | other in all && other !in more[..i] ensures !EarlierKey(q.items[other], q.items[id]) {
          BuryAllKeepsBudget(q, buried, other);
        }
      }
    }
  }

  /** The whole order behind a finished loop: the buried rows, the row taken (if any), then the rest. */
  lemma FinishOrder(q: Queue, rows: Queue, all: set<JobId>, buried: seq<JobId>, taken: seq<JobId>, g: Grant)
    returns (order: seq<JobId>)
    requires Consistent(q)
    requires BuriedInOrder(q, all, buried) && (forall x | x in buried :: x in q.items) && rows == BuryAll(q, buried)
    requires all <= q.items.Keys && all - (set x | x in buried) <= rows.items.Keys
    requires |taken| <= 1
    requires taken == [] ==> all - (set x | x in buried) == {}
    requires taken != [] ==>
               && Selectable(rows.items, all - (set x | x in buried), taken[0])
               && rows.items[taken[0]].attempt < rows.items[taken[0]].maxAttempts
    requires forall id | id in all :: q.items[id].Active()
    ensures IsOrder(q.items, all, order) && (forall id | id in order :: id in q.items)
    ensures taken == [] ==> Scan(q, order, g) == (rows, None)
    ensures taken != [] ==> Scan(q, order, g) == (Lend(rows, taken[0], g).0, Some(Lend(rows, taken[0], g).1))
    ensures Consistent(Scan(q, order, g).0)
  {
    hide IsOrder, BuriedInOrder, Consistent, Scan, Bury, Lend, BuryAll, Selectable;
    var remaining := all - (set x | x in buried);
    var rest := [];
    if taken == [] {
      EmptyOrder(q.items);
    } else {
      rest := OrderFrom(q, rows, all, buried, taken[0]);
    }
    order := buried + rest;
    BuriedThenRest(q, all, buried, rest);
    MembersOfOrder(q.items, all, order);
    MembersOfOrder(q.items, remaining, rest);
    BuriedAreSpent(q, all, buried);
    ScanPastBuried(q, buried, rest, g);
    if taken == [] {
      ScanEmpty(rows, g);
    } else {
      assert rest == [taken[0]] + rest[1..];
      assert forall x | x in rest[1..] :: x in rest;
      ScanStep(rows, taken[0], rest[1..], g);
    }
    DistinctInOrder(q.items, all, order);
    ScanKeepsConsistent(q, order, g);
  }

  lemma EmptyOrder(items: map<JobId, Item>)
    ensures IsOrder(items, {}, [])
  {
  }

  lemma MembersOfOrder(items: map<JobId, Item>, jobs: set<JobId>, order: seq<JobId>)
    requires IsOrder(items, jobs, order)
    ensures forall id | id in order :: id in items && id in jobs
  {
  }

  lemma BuriedAreSpent(q: Queue, all: set<JobId>, buried: seq<JobId>)
    requires BuriedInOrder(q, all, buried)
    ensures forall id | id in buried :: id in all && id in q.items && q.items[id].attempt >= q.items[id].maxAttempts
  {
  }

  /** An order of the rows not buried that starts with the row taken. */
  lemma OrderFrom(q: Queue, rows: Queue, all: set<JobId>, buried: seq<JobId>, id: JobId) returns (rest: seq<JobId>)
    requires all <= q.items.Keys && (forall x | x in buried :: x in q.items) && rows == BuryAll(q, buried)
    requires all - (set x | x in buried) <= rows.items.Keys && Selectable(rows.items, all - (set x | x in buried), id)
    ensures rest != [] && rest[0] == id && IsOrder(q.items, all - (set x | x in buried), rest)
  {
    var remaining := all - (set x | x in buried);
    var later := OrderExists(q.items, remaining - {id});
    rest := [id] + later;
    forall k | 0 <= k < |later| ensures !EarlierKey(q.items[later[k]], q.items[id]) && later[k] != id {
      assert later[k] in later;
      BuryAllKeepsBudget(q, buried, id);
      BuryAllKeepsBudget(q, buried, later[k]);
    }
    assert forall k | 0 <= k < |later| :: later[k] in later;
  }

  // ---------------------------------------------------------------- the two stores agree

  predicate Exhausted(item: Item) {
    item.attempt >= item.maxAttempts
  }

  ghost predicate NoTies(items: map<JobId, Item>, jobs: set<JobId>) {
    jobs <= items.Keys &&
    forall a, b | a in jobs && b in jobs && a != b :: EarlierKey(items[a], items[b]) || EarlierKey(items[b], items[a])
  }

  /** Without ties in (available_at, created_at) there is only one order, so the PostgreSQL loop and the
      in-memory scan bury and lend the same jobs. */
  lemma {:induction false} StoresAgreeWithoutTies(items: map<JobId, Item>, jobs: set<JobId>, a: seq<JobId>,
                                                  b: seq<JobId>)
    requires IsOrder(items, jobs, a) && IsOrder(items, jobs, b) && NoTies(items, jobs)
    ensures a == b
    decreases |a|
  {
    if a != [] || b != [] {
      if a != [] { assert a[0] in a && a[0] in b; }
      if b != [] { assert b[0] in b && b[0] in a; }
      TailIsOrder(items, jobs, a);
      TailIsOrder(items, jobs, b);
      StoresAgreeWithoutTies(items, jobs - {a[0]}, a[1..], b[1..]);
    }
  }

  lemma TailIsOrder(items: map<JobId, Item>, jobs: set<JobId>, order: seq<JobId>)
    requires IsOrder(items, jobs, order) && order != []
    ensures IsOrder(items, jobs - {order[0]}, order[1..])
  {
    assert order == [order[0]] + order[1..];
    forall id ensures id in order[1..] <==> id in jobs - {order[0]} {
      assert id in order <==> id == order[0] || id in order[1..];
    }
  }

  /** What a scan does to the job `id`, if it lends `lent`. */
  predicate TreatedAround(items: map<JobId, Item>, next: map<JobId, Item>, lent: JobId, id: JobId)
    requires id in items && lent in items && id in next
  {
    && (!Exhausted(items[id]) ==> !EarlierKey(items[id], items[lent]) && next[id] == items[id])
    && (EarlierKey(items[id], items[lent]) ==> next[id] == Buried(items[id]))
    && (EarlierKey(items[lent], items[id]) ==> next[id] == items[id])
  }

  /** What a scan of the eligible `jobs` in any key order does to the rows. */
  ghost predicate ScanOutcome(items: map<JobId, Item>, jobs: set<JobId>, next: map<JobId, Item>, lent: Option<JobId>) {
    && jobs <= items.Keys && next.Keys == items.Keys
    && (forall id | id in items && id !in jobs :: next[id] == items[id])
    && match lent
       case None => forall id | id in jobs :: Exhausted(items[id]) && next[id] == Buried(items[id])
       case Some(l) => l in jobs && !Exhausted(items[l]) && forall id | id in jobs && id != l ::
           TreatedAround(items, next, l, id)
  }

  function LentJob(work: Option<LeasedWork>): Option<JobId> {
    if work.Some? then Some(work.value.item.jobId) else None
  }

  /** With ties, what both stores guarantee: a job is lent exactly when some eligible job has attempts
      left, no such job has an earlier key than the one lent, every job of an earlier key is dead-lettered
      and every job of a later key is untouched. */
  lemma {:induction false} ScanUpToTies(q: Queue, jobs: set<JobId>, order: seq<JobId>, g: Grant)
    requires IsOrder(q.items, jobs, order) && Keyed(q.items) && forall id | id in order :: id in q.items
    ensures ScanOutcome(q.items, jobs, Scan(q, order, g).0.items, LentJob(Scan(q, order, g).1))
    decreases |order|
  {
    hide IsOrder, ScanOutcome, Keyed;
    MembersOfOrder(q.items, jobs, order);
    if order == [] {
      NothingScanned(q, jobs, order);
    } else {
      var id := order[0];
      TailIsOrder(q.items, jobs, order);
      FirstIsEarliest(q.items, jobs, order);
      if Exhausted(q.items[id]) {
        BuryKeepsOrder(q, id, jobs - {id}, order[1..]);
        assert Keyed(Bury(q, id).items) by { BuryKeepsKeyed(q, id); }
        var (next, work) := Scan(q, order, g);
        ScanUpToTies(Bury(q, id), jobs - {id}, order[1..], g);
        BuriedFirst(q, id, jobs, next.items, LentJob(work));
      } else {
        LentFirst(q, id, jobs, g);
      }
    }
  }

  lemma NothingScanned(q: Queue, jobs: set<JobId>, order: seq<JobId>)
    requires IsOrder(q.items, jobs, order) && order == []
    ensures ScanOutcome(q.items, jobs, q.items, None)
  {
    assert jobs == {} by { MembersOfOrder(q.items, jobs, order); }
  }

  lemma BuryKeepsKeyed(q: Queue, id: JobId)
    requires Keyed(q.items) && id in q.items
    ensures Keyed(Bury(q, id).items)
  {
  }

  /** A spent job at the head is dead-lettered, and the scan of the others goes on as without it. */
  lemma BuriedFirst(q: Queue, id: JobId, jobs: set<JobId>, next: map<JobId, Item>, lent: Option<JobId>)
    requires id in jobs && jobs <= q.items.Keys && Exhausted(q.items[id])
    requires forall other | other in jobs && other != id :: !EarlierKey(q.items[other], q.items[id])
    requires ScanOutcome(Bury(q, id).items, jobs - {id}, next, lent)
    ensures ScanOutcome(q.items, jobs, next, lent)
  {
    var items := Bury(q, id).items;
    assert next[id] == Buried(q.items[id]);
    if lent.Some? {
      forall other | other in jobs && other != lent.value ensures TreatedAround(q.items, next, lent.value, other) {
        if other != id { assert TreatedAround(items, next, lent.value, other); }
      }
    }
  }

  lemma LentFirst(q: Queue, id: JobId, jobs: set<JobId>, g: Grant)
    requires id in jobs && jobs <= q.items.Keys && !Exhausted(q.items[id]) && Keyed(q.items)
    requires forall other | other in jobs && other != id :: !EarlierKey(q.items[other], q.items[id])
    ensures ScanOutcome(q.items, jobs, Lend(q, id, g).0.items, Some(Lend(q, id, g).1.item.jobId))
  {
  }

  lemma FirstIsEarliest(items: map<JobId, Item>, jobs: set<JobId>, order: seq<JobId>)
    requires IsOrder(items, jobs, order) && order != []
    ensures order[0] in jobs && order[0] in items
    ensures forall other | other in jobs && other != order[0] ::
              other in items && !EarlierKey(items[other], items[order[0]])
  {
    assert order[0] in order;
    forall other | other in jobs && other != order[0] ensures !EarlierKey(items[other], items[order[0]]) {
      assert other in order;
    }
  }

  lemma BuryKeepsOrder(q: Queue, id: JobId, jobs: set<JobId>, order: seq<JobId>)
    requires id in q.items && id !in jobs && IsOrder(q.items, jobs, order)
    ensures IsOrder(Bury(q, id).items, jobs, order)
  {
    assert forall k | 0 <= k < |order| :: order[k] in order;
  }
}
