/** The sliding-window rate limiter: a map of per-key timestamps plus an expiry heap with lazy
    deletion, proved to decide exactly as a filter over the log of accepted requests would.
    Time is in whole milliseconds. */
module RateLimiter {
  import opened Common
  import opened ExpiryQueue

  type Time = int

  datatype Policy = Policy(limit: nat, burst: nat, windowSeconds: nat, maxKeys: nat) {
    predicate Valid() { limit >= 1 && windowSeconds >= 1 && maxKeys >= 1 }
    function Capacity(): nat { limit + burst }
    function Window(): Time { 1000 * windowSeconds }
  }

  datatype Decision = Decision(allowed: bool, remaining: int, retryAfterSeconds: int)
  datatype Outcome = BlankKey | Decided(decision: Decision)

  // ---------------------------------------------------------------- the reference: an accept log

  datatype Accept = Accept(key: string, at: Time)

  /** Accepts of `key` in the half-open window `(now - window, now]`, oldest first. */
  function Live(p: Policy, log: seq<Accept>, key: string, now: Time): seq<Time> {
    if log == [] then []
    else
      var last := log[|log| - 1];
      Live(p, log[..|log| - 1], key, now)
      + (if last.key == key && now - p.Window() < last.at <= now then [last.at] else [])
  }

  function LiveKeys(p: Policy, log: seq<Accept>, now: Time): set<string> {
    set a | a in log && now - p.Window() < a.at <= now :: a.key
  }

  /** The plain rule: room in the key's window, and room for the key itself. */
  predicate Allows(p: Policy, log: seq<Accept>, key: string, now: Time) {
    && |Live(p, log, key, now)| < p.Capacity()
    && (Live(p, log, key, now) != [] || |LiveKeys(p, log, now)| < p.maxKeys)
  }

  ghost predicate NoLaterThan(log: seq<Accept>, now: Time) {
    forall a | a in log :: a.at <= now
  }

  /** A log that some run under a monotone clock could have produced: every entry was allowed
      by the plain rule when it was made. */
  ghost predicate Admissible(p: Policy, log: seq<Accept>) {
    log == [] || (
      var last := log[|log| - 1];
      var before := log[..|log| - 1];
      && Admissible(p, before)
      && NoLaterThan(before, last.at)
      && Allows(p, before, last.key, last.at))
  }

  /** Whole seconds, rounded up, and at least one. */
  function RetrySeconds(delay: Time): int {
    Max(1, (delay + 999) / 1000)
  }

  /** What a decision must say about the log it was taken on. A denial for want of keys points at
      the live key whose oldest accept expires first. */
  ghost predicate Answers(p: Policy, log: seq<Accept>, key: string, now: Time, d: Decision) {
    var live := Live(p, log, key, now);
    && (d.allowed <==> Allows(p, log, key, now))
    && (d.allowed ==> d.remaining == p.Capacity() - |live| - 1 && d.retryAfterSeconds == 0)
    && (!d.allowed ==> d.remaining == 0)
    && (!d.allowed && live != [] ==> d.retryAfterSeconds == RetrySeconds(live[0] + p.Window() - now))
    && (!d.allowed && live == [] ==>
          exists k | k in LiveKeys(p, log, now) ::
            && FirstToExpire(p, log, now, k)
            && d.retryAfterSeconds == RetrySeconds(Live(p, log, k, now)[0] + p.Window() - now))
  }

  ghost predicate FirstToExpire(p: Policy, log: seq<Accept>, now: Time, k: string) {
    && Live(p, log, k, now) != []
    && forall other | other in LiveKeys(p, log, now) ::
         Live(p, log, other, now) != [] && Live(p, log, k, now)[0] <= Live(p, log, other, now)[0]
  }

  // ---------------------------------------------------------------- facts about the log

  lemma {:induction false} LiveMembers(p: Policy, log: seq<Accept>, key: string, now: Time)
    ensures forall t | t in Live(p, log, key, now) :: now - p.Window() < t <= now && Accept(key, t) in log
    ensures Live(p, log, key, now) != [] <==> key in LiveKeys(p, log, now)
  {
    if log != [] {
      var before := log[..|log| - 1];
      LiveMembers(p, before, key, now);
      assert log == before + [log[|log| - 1]];
      if key in LiveKeys(p, log, now) && key !in LiveKeys(p, before, now) {
        var a :| a in log && now - p.Window() < a.at <= now && a.key == key;
        assert a !in before;
      }
      if key in LiveKeys(p, before, now) {
        var a :| a in before && now - p.Window() < a.at <= now && a.key == key;
        assert a in log;
      }
      if Live(p, before, key, now) == [] && Live(p, log, key, now) != [] {
        assert log[|log| - 1] in log;
      }
    }
  }

  /** The timestamps of `ts` that are still inside the window ending at `now`. */
  function After(ts: seq<Time>, cutoff: Time): seq<Time> {
    if ts == [] then []
    else After(ts[..|ts| - 1], cutoff) + (if ts[|ts| - 1] > cutoff then [ts[|ts| - 1]] else [])
  }

  lemma {:induction false} AfterAppend(ts: seq<Time>, t: Time, cutoff: Time)
    ensures After(ts + [t], cutoff) == After(ts, cutoff) + (if t > cutoff then [t] else [])
  {
    assert (ts + [t])[..|ts|] == ts;
  }

  /** Letting the clock advance only drops timestamps. */
  lemma {:induction false} LiveLater(p: Policy, log: seq<Accept>, key: string, now: Time, later: Time)
    requires NoLaterThan(log, now) && now <= later
    ensures Live(p, log, key, later) == After(Live(p, log, key, now), later - p.Window())
  {
    if log != [] {
      var last := log[|log| - 1];
      var before := log[..|log| - 1];
      LiveLater(p, before, key, now, later);
      AfterAppend(Live(p, before, key, now), last.at, later - p.Window());
      assert last in log;
      assert Live(p, before, key, now) + [] == Live(p, before, key, now);
      assert Live(p, before, key, later) + [] == Live(p, before, key, later);
    }
  }

  ghost predicate Sorted(ts: seq<Time>) {
    forall i, j | 0 <= i < j < |ts| :: ts[i] <= ts[j]
  }

  lemma {:induction false} LiveIsSorted(p: Policy, log: seq<Accept>, key: string, now: Time)
    requires Admissible(p, log)
    ensures Sorted(Live(p, log, key, now))
  {
    if log != [] {
      var before := log[..|log| - 1];
      LiveIsSorted(p, before, key, now);
      LiveMembers(p, before, key, now);
      var ts := Live(p, before, key, now);
      assert forall i | 0 <= i < |ts| :: ts[i] in ts;
    }
  }

  /** A shorter look-back sees fewer accepts. */
  lemma {:induction false} LiveShrinks(p: Policy, log: seq<Accept>, key: string, now: Time, later: Time)
    requires NoLaterThan(log, now) && now <= later
    ensures |Live(p, log, key, later)| <= |Live(p, log, key, now)|
    ensures LiveKeys(p, log, later) <= LiveKeys(p, log, now)
  {
    LiveLater(p, log, key, now, later);
    AfterIsShorter(Live(p, log, key, now), later - p.Window());
  }

  lemma {:induction false} AfterIsShorter(ts: seq<Time>, cutoff: Time)
    ensures |After(ts, cutoff)| <= |ts|
    ensures ts != [] && ts[0] <= cutoff ==> |After(ts, cutoff)| < |ts|
  {
    if ts != [] { AfterIsShorter(ts[..|ts| - 1], cutoff); }
  }

  lemma {:induction false} AfterKeepsAll(ts: seq<Time>, cutoff: Time)
    requires forall i | 0 <= i < |ts| :: ts[i] > cutoff
    ensures After(ts, cutoff) == ts
  {
    if ts != [] {
      assert ts == ts[..|ts| - 1] + [ts[|ts| - 1]];
      AfterKeepsAll(ts[..|ts| - 1], cutoff);
    }
  }

  /** The limiter's promise: no window of that length, ending at any instant, holds more accepts
      of a key than limit + burst. */
  lemma {:induction false} EveryWindowIsBounded(p: Policy, log: seq<Accept>, key: string, instant: Time)
    requires Admissible(p, log)
    ensures |Live(p, log, key, instant)| <= p.Capacity()
  {
    if log != [] {
      var last := log[|log| - 1];
      var before := log[..|log| - 1];
      EveryWindowIsBounded(p, before, key, instant);
      if last.key == key && instant - p.Window() < last.at <= instant {
        LiveShrinks(p, before, key, last.at, instant);
      }
    }
  }

  lemma OneKeyMore(p: Policy, before: seq<Accept>, last: Accept, now: Time)
    requires NoLaterThan(before, last.at) && last.at <= now
    ensures LiveKeys(p, before + [last], now) <= LiveKeys(p, before, last.at) + {last.key}
  {
    hide Live;
    LiveShrinks(p, before, last.key, last.at, now);
    assert LiveKeys(p, before + [last], now) <= LiveKeys(p, before, now) + {last.key};
  }

  /** At most `maxKeys` keys are live at any time from the last accept on. */
  lemma {:induction false} LiveKeysAreBounded(p: Policy, log: seq<Accept>, now: Time)
    requires Admissible(p, log) && NoLaterThan(log, now)
    ensures |LiveKeys(p, log, now)| <= p.maxKeys
  {
    if log == [] {
      assert LiveKeys(p, log, now) == {};
    } else {
      var last := log[|log| - 1];
      var before := log[..|log| - 1];
      LiveKeysAreBounded(p, before, last.at);
      LiveMembers(p, before, last.key, last.at);
      assert last in log && log == before + [last];
      OneKeyMore(p, before, last, now);
      SubsetIsSmaller(LiveKeys(p, log, now), LiveKeys(p, before, last.at) + {last.key});
    }
  }

  lemma RetryCoversDelay(delay: Time, s: nat)
    requires delay > 0
    ensures s >= RetrySeconds(delay) <==> 1000 * s >= delay
  {
  }

  /** A key that has hit its capacity gets room exactly when its oldest live accept leaves the window. */
  lemma {:induction false} RoomReturnsWithOldest(p: Policy, log: seq<Accept>, key: string, now: Time, later: Time)
    requires Admissible(p, log) && NoLaterThan(log, now) && now <= later
    requires |Live(p, log, key, now)| == p.Capacity() > 0
    ensures |Live(p, log, key, later)| < p.Capacity() <==> Live(p, log, key, now)[0] <= later - p.Window()
  {
    hide Live, Admissible, NoLaterThan;
    var live := Live(p, log, key, now);
    LiveLater(p, log, key, now, later);
    AfterIsShorter(live, later - p.Window());
    LiveIsSorted(p, log, key, now);
    if live[0] > later - p.Window() {
      AfterKeepsAll(live, later - p.Window());
    }
  }

  /** While a live key waits, the number of keys never becomes the obstacle. */
  lemma {:induction false} LiveKeyKeepsItsPlace(p: Policy, log: seq<Accept>, key: string, now: Time, later: Time)
    requires Admissible(p, log) && NoLaterThan(log, now) && now <= later
    requires Live(p, log, key, now) != []
    ensures Live(p, log, key, later) != [] || |LiveKeys(p, log, later)| < p.maxKeys
  {
    LiveMembers(p, log, key, now);
    LiveMembers(p, log, key, later);
    LiveShrinks(p, log, key, now, later);
    LiveKeysAreBounded(p, log, now);
    if Live(p, log, key, later) == [] {
      StrictSubsetIsSmaller(LiveKeys(p, log, later), LiveKeys(p, log, now));
    }
  }

  /** The hint a per-key denial carries is exact: it is the least whole number of seconds after
      which the same key is allowed, if nothing is accepted in between. */
  lemma {:induction false} RetryHintIsExact(p: Policy, log: seq<Accept>, key: string, now: Time, s: nat)
    requires p.Valid() && Admissible(p, log) && NoLaterThan(log, now)
    requires Live(p, log, key, now) != [] && !Allows(p, log, key, now)
    ensures Allows(p, log, key, now + 1000 * s)
            <==> s >= RetrySeconds(Live(p, log, key, now)[0] + p.Window() - now)
  {
    var first := Live(p, log, key, now)[0];
    EveryWindowIsBounded(p, log, key, now);
    RoomReturnsWithOldest(p, log, key, now, now + 1000 * s);
    LiveKeyKeepsItsPlace(p, log, key, now, now + 1000 * s);
    LiveMembers(p, log, key, now);
    assert first in Live(p, log, key, now);
    RetryCoversDelay(first + p.Window() - now, s);
  }

  // ---------------------------------------------------------------- the limiter itself

  /** One heap entry per bucket: which key, and the timestamp that was its oldest when scheduled. */
  datatype Slot = Slot(key: string, first: Time)

  type Buckets = map<string, seq<Time>>
  type Heap = seq<Item<Slot>>

  function Bucket(entries: Buckets, key: string): seq<Time> {
    if key in entries then entries[key] else []
  }

  ghost predicate BucketsOk(entries: Buckets) {
    forall k | k in entries :: entries[k] != [] && Sorted(entries[k])
  }

  /** The entry `_schedule_expiration` pushes for a bucket. */
  function ScheduleFor(entries: Buckets, key: string, window: Time): Item<Slot>
    requires key in entries && entries[key] != []
  {
    Item(entries[key][0] + window, Slot(key, entries[key][0]))
  }

  predicate IsCurrent(entries: Buckets, item: Item<Slot>) {
    item.tag.key in entries && entries[item.tag.key] != [] && entries[item.tag.key][0] == item.tag.first
  }

  /** `after` is what remains of `before` once some stale leading entries are popped. */
  ghost predicate SkippedStale(entries: Buckets, before: Heap, after: Heap) {
    exists n | 0 <= n <= |before| ::
      && after == before[n..]
      && forall i | 0 <= i < n :: !IsCurrent(entries, before[i])
  }

  ghost predicate OnePerKey(heap: Heap) {
    forall i, j | 0 <= i < j < |heap| :: heap[i].tag.key != heap[j].tag.key
  }

  /** Heap and map in bijection, except that the keys in `unscheduled` have no entry yet. */
  ghost predicate Scheduled(entries: Buckets, heap: Heap, window: Time, unscheduled: set<string>) {
    && BucketsOk(entries)
    && Ordered(heap)
    && OnePerKey(heap)
    && (forall x | x in heap ::
          x.tag.key in entries && x.tag.key !in unscheduled && x == ScheduleFor(entries, x.tag.key, window))
    && (forall k | k in entries && k !in unscheduled :: ScheduleFor(entries, k, window) in heap)
  }

  /** In bijection, the heap has as many entries as there are buckets. */
  lemma {:induction false} HeapSizeIsBucketCount(entries: Buckets, heap: Heap, window: Time)
    requires Scheduled(entries, heap, window, {})
    ensures |heap| == |entries|
  {
    KeysOfHeap(heap);
    assert entries.Keys == set x | x in heap :: x.tag.key;
  }

  lemma {:induction false} KeysOfHeap(heap: Heap)
    requires OnePerKey(heap)
    ensures |set x | x in heap :: x.tag.key| == |heap|
  {
    if heap == [] {
      assert (set x | x in heap :: x.tag.key) == {};
    } else {
      KeysOfHeap(heap[1..]);
      var rest := set x | x in heap[1..] :: x.tag.key;
      assert (set x | x in heap :: x.tag.key) == rest + {heap[0].tag.key};
    }
  }

  lemma AddSchedule(entries: Buckets, heap: Heap, window: Time, key: string)
    requires Scheduled(entries, heap, window, {key}) && key in entries
    ensures Scheduled(entries, Push(heap, ScheduleFor(entries, key, window)), window, {})
  {
    assert entries[key] != [];
    hide Push, BucketsOk, Ordered;
    var item := ScheduleFor(entries, key, window);
    PushKeepsOrder(heap, item);
    PushMembers(heap, item);
    assert forall i | 0 <= i < |heap| :: heap[i] in heap;
    PushOnePerKey(heap, item);
  }

  lemma PushOnePerKey(heap: Heap, item: Item<Slot>)
    requires OnePerKey(heap) && forall i | 0 <= i < |heap| :: heap[i].tag.key != item.tag.key
    ensures OnePerKey(Push(heap, item))
  {
    var n := ExpiredCount(heap, item.expiresAt);
    var pushed := Push(heap, item);
    assert forall i | 0 <= i < |pushed| :: pushed[i] == if i < n then heap[i] else if i == n then item else heap[i - 1];
  }

  /** No more entries are due at `until`, or earlier, than before. */
  ghost predicate NoMoreDue(before: Heap, after: Heap, until: Time) {
    forall t | t <= until :: ExpiredCount(after, t) <= ExpiredCount(before, t)
  }

  /** Scheduling a bucket whose oldest timestamp is live makes nothing due. */
  lemma Reschedule(entries: Buckets, heap: Heap, window: Time, key: string, until: Time)
    requires Scheduled(entries, heap, window, {key}) && key in entries && entries[key][0] + window > until
    ensures Scheduled(entries, Push(heap, ScheduleFor(entries, key, window)), window, {})
    ensures NoMoreDue(heap, Push(heap, ScheduleFor(entries, key, window)), until)
  {
    AddSchedule(entries, heap, window, key);
    forall t | t <= until
      ensures ExpiredCount(Push(heap, ScheduleFor(entries, key, window)), t) <= ExpiredCount(heap, t)
    {
      PushLater(heap, ScheduleFor(entries, key, window), t);
    }
  }

  /** A bucket without a heap entry can be forgotten without touching the rest of the schedule. */
  lemma ForgetBucket(entries: Buckets, heap: Heap, window: Time, key: string)
    requires Scheduled(entries, heap, window, {key})
    ensures Scheduled(entries - {key}, heap, window, {})
  {
    var after := entries - {key};
    forall k | k in after ensures ScheduleFor(entries, k, window) in heap {}
  }

  /** ... and so can its contents be replaced. */
  lemma ReplaceBucket(entries: Buckets, heap: Heap, window: Time, key: string, rest: seq<Time>)
    requires Scheduled(entries, heap, window, {key}) && rest != [] && Sorted(rest)
    ensures Scheduled(entries[key := rest], heap, window, {key})
  {
    var after := entries[key := rest];
    forall k | k in after ensures after[k] != [] && Sorted(after[k]) {}
    forall k | k in after && k != key ensures ScheduleFor(after, k, window) in heap {
      assert ScheduleFor(entries, k, window) in heap;
    }
  }

  lemma PruneKeepsSchedule(entries: Buckets, heap: Heap, window: Time, key: string, cutoff: Time)
    requires key in entries && BucketsOk(entries)
    requires Scheduled(entries, heap, window, if entries[key][0] <= cutoff then {key} else {})
    ensures var rest := After(entries[key], cutoff);
            && (entries[key][0] > cutoff ==> rest == entries[key] && entries[key := rest] == entries)
            && (rest == [] ==> Scheduled(entries - {key}, heap, window, {}))
            && (rest != [] && entries[key][0] <= cutoff ==>
                  rest[0] > cutoff && Scheduled(entries[key := rest], heap, window, {key}))
  {
    hide Scheduled;
    var rest := After(entries[key], cutoff);
    AfterIsSorted(entries[key], cutoff);
    if entries[key][0] > cutoff {
      AfterKeepsAll(entries[key], cutoff);
    } else if rest == [] {
      ForgetBucket(entries, heap, window, key);
    } else {
      ReplaceBucket(entries, heap, window, key, rest);
    }
  }

  /** The pruning loop: drop leading timestamps that have left the window. */
  method DropExpired(events: seq<Time>, cutoff: Time) returns (rest: seq<Time>)
    requires Sorted(events)
    ensures rest == After(events, cutoff)
  {
    rest := events;
    while rest != [] && rest[0] <= cutoff
      invariant Sorted(rest)
      invariant After(rest, cutoff) == After(events, cutoff)
    {
      AfterDropFront(rest, cutoff);
      rest := rest[1..];
    }
    AfterKeepsAll(rest, cutoff);
  }

  lemma {:induction false} AfterIsSorted(ts: seq<Time>, cutoff: Time)
    requires Sorted(ts)
    ensures Sorted(After(ts, cutoff))
    ensures forall i | 0 <= i < |After(ts, cutoff)| :: After(ts, cutoff)[i] > cutoff && After(ts, cutoff)[i] in ts
  {
    if ts != [] {
      var rest, last := ts[..|ts| - 1], ts[|ts| - 1];
      AfterIsSorted(rest, cutoff);
      var left := After(rest, cutoff);
      forall i | 0 <= i < |left| ensures left[i] in ts && left[i] <= last {
        var k :| 0 <= k < |rest| && rest[k] == left[i];
        assert ts[k] == rest[k];
      }
      assert last in ts;
    }
  }

  /** Dropping an expired front element does not change what is left. */
  lemma {:induction false} AfterDropFront(ts: seq<Time>, cutoff: Time)
    requires ts != [] && ts[0] <= cutoff
    ensures After(ts[1..], cutoff) == After(ts, cutoff)
  {
    if |ts| > 1 {
      AfterDropFront(ts[..|ts| - 1], cutoff);
      assert ts[1..][..|ts| - 2] == ts[..|ts| - 1][1..];
    }
  }

  lemma {:induction false} AfterTwice(ts: seq<Time>, cutoff: Time)
    ensures After(After(ts, cutoff), cutoff) == After(ts, cutoff)
  {
    if ts != [] {
      AfterTwice(ts[..|ts| - 1], cutoff);
      AfterAppend(After(ts[..|ts| - 1], cutoff), ts[|ts| - 1], cutoff);
      assert After(ts[..|ts| - 1], cutoff) + [] == After(ts[..|ts| - 1], cutoff);
    }
  }

  lemma HeadLeaves(entries: Buckets, heap: Heap, window: Time)
    requires Scheduled(entries, heap, window, {}) && heap != []
    ensures Scheduled(entries, heap[1..], window, {heap[0].tag.key})
  {
    assert heap[0] in heap;
    assert forall x | x in heap[1..] :: x in heap;
    forall k | k in entries && k != heap[0].tag.key ensures ScheduleFor(entries, k, window) in heap[1..] {
      assert ScheduleFor(entries, k, window) in heap;
      assert heap == [heap[0]] + heap[1..];
    }
  }

  /** When the earliest expiry lies ahead, every timestamp held is inside the window. */
  lemma NothingLeftToEvict(entries: Buckets, original: Buckets, heap: Heap, window: Time, now: Time, cutoff: Time)
    requires cutoff == now - window
    requires Scheduled(entries, heap, window, {})
    requires heap == [] || heap[0].expiresAt > now
    requires AgreeAfter(entries, original, cutoff)
    ensures ExpiredCount(heap, now) == 0
    ensures AllPruned(original, entries, cutoff)
  {
    forall k ensures Bucket(entries, k) == After(Bucket(original, k), cutoff) {
      assert After(Bucket(entries, k), cutoff) == After(Bucket(original, k), cutoff);
      if k in entries {
        assert ScheduleFor(entries, k, window) in heap;
        assert heap[0].expiresAt <= entries[k][0] + window;
        AfterKeepsAll(entries[k], cutoff);
      }
    }
  }

  /** The buckets are exactly the live part of the log. */
  ghost predicate Mirrors(p: Policy, entries: Buckets, log: seq<Accept>, now: Time) {
    forall k :: Bucket(entries, k) == Live(p, log, k, now)
  }

  lemma ClockAdvances(p: Policy, before: Buckets, after: Buckets, log: seq<Accept>, at: Time, now: Time, cutoff: Time)
    requires Mirrors(p, before, log, at) && NoLaterThan(log, at) && at <= now
    requires cutoff == now - p.Window() && AllPruned(before, after, cutoff)
    ensures Mirrors(p, after, log, now) && NoLaterThan(log, now)
  {
    forall k ensures Bucket(after, k) == Live(p, log, k, now) {
      LiveLater(p, log, k, at, now);
    }
  }

  /** Appending one timestamp, scheduling the bucket when it is new, keeps heap and map in bijection. */
  lemma AcceptKeepsSchedule(entries: Buckets, heap: Heap, window: Time, key: string, now: Time)
    requires Scheduled(entries, heap, window, {})
    requires forall t | t in Bucket(entries, key) :: t <= now
    ensures var after := entries[key := Bucket(entries, key) + [now]];
            Scheduled(after, if key in entries then heap else Push(heap, ScheduleFor(after, key, window)), window, {})
  {
    var bucket := Bucket(entries, key);
    var after := entries[key := bucket + [now]];
    assert forall i | 0 <= i < |bucket| :: bucket[i] in bucket;
    assert Sorted(after[key]);
    assert BucketsOk(after);
    if key in entries {
      forall k | k in entries ensures ScheduleFor(after, k, window) == ScheduleFor(entries, k, window) {}
    } else {
      assert Scheduled(after, heap, window, {key});
      AddSchedule(after, heap, window, key);
    }
  }

  lemma AcceptIsAdmissible(p: Policy, log: seq<Accept>, key: string, now: Time)
    requires Admissible(p, log) && NoLaterThan(log, now) && Allows(p, log, key, now)
    ensures Admissible(p, log + [Accept(key, now)]) && NoLaterThan(log + [Accept(key, now)], now)
  {
    assert (log + [Accept(key, now)])[..|log|] == log;
  }

  lemma AcceptIsMirrored(p: Policy, entries: Buckets, log: seq<Accept>, key: string, now: Time)
    requires p.Valid() && Mirrors(p, entries, log, now)
    ensures Mirrors(p, entries[key := Bucket(entries, key) + [now]], log + [Accept(key, now)], now)
  {
    var log' := log + [Accept(key, now)];
    assert log'[..|log|] == log;
    forall k ensures Bucket(entries[key := Bucket(entries, key) + [now]], k) == Live(p, log', k, now) {
      assert Bucket(entries, k) == Live(p, log, k, now);
      assert Live(p, log, k, now) + [] == Live(p, log, k, now);
    }
  }

  /** What the limiter holds answers the questions the plain rule asks of the log. */
  lemma MirrorsAnswer(p: Policy, entries: Buckets, heap: Heap, log: seq<Accept>, now: Time)
    requires Mirrors(p, entries, log, now) && Scheduled(entries, heap, p.Window(), {})
    ensures entries.Keys == LiveKeys(p, log, now)
    ensures heap == [] <==> entries == map[]
    ensures heap != [] ==>
              && heap[0].tag.key in LiveKeys(p, log, now)
              && FirstToExpire(p, log, now, heap[0].tag.key)
              && heap[0].expiresAt == Live(p, log, heap[0].tag.key, now)[0] + p.Window()
  {
    forall k ensures k in entries <==> k in LiveKeys(p, log, now) {
      LiveMembers(p, log, k, now);
      assert Bucket(entries, k) == Live(p, log, k, now);
    }
    forall k | k in entries ensures heap != [] {
      assert ScheduleFor(entries, k, p.Window()) in heap;
    }
    if heap != [] {
      assert heap[0] in heap;
      var k := heap[0].tag.key;
      assert Bucket(entries, k) == Live(p, log, k, now);
      forall other | other in LiveKeys(p, log, now)
        ensures Live(p, log, other, now) != [] && Live(p, log, k, now)[0] <= Live(p, log, other, now)[0]
      {
        assert Bucket(entries, other) == Live(p, log, other, now);
        assert ScheduleFor(entries, other, p.Window()) in heap;
        assert forall x | x in heap :: heap[0].expiresAt <= x.expiresAt;
      }
    }
  }

  /** Both maps hold the same timestamps later than `cutoff`. */
  ghost predicate AgreeAfter(a: Buckets, b: Buckets, cutoff: Time) {
    forall k :: After(Bucket(a, k), cutoff) == After(Bucket(b, k), cutoff)
  }

  /** Some buckets were pruned, the others are untouched. */
  ghost predicate SomePruned(before: Buckets, after: Buckets, cutoff: Time) {
    forall k :: Bucket(after, k) == Bucket(before, k) || Bucket(after, k) == After(Bucket(before, k), cutoff)
  }

  /** Every bucket was pruned. */
  ghost predicate AllPruned(before: Buckets, after: Buckets, cutoff: Time) {
    forall k :: Bucket(after, k) == After(Bucket(before, k), cutoff)
  }

  lemma AgreesWithItself(entries: Buckets, cutoff: Time)
    ensures AgreeAfter(entries, entries, cutoff)
  {
  }

  lemma EvictionComposes(before: Buckets, after: Buckets, original: Buckets, cutoff: Time)
    requires SomePruned(before, after, cutoff) && AgreeAfter(before, original, cutoff)
    ensures AgreeAfter(after, original, cutoff)
  {
    forall k ensures After(Bucket(after, k), cutoff) == After(Bucket(original, k), cutoff) {
      AfterTwice(Bucket(before, k), cutoff);
      assert After(Bucket(before, k), cutoff) == After(Bucket(original, k), cutoff);
    }
  }

  /** The decision computed from buckets and heap is the one the log calls for. */
  lemma DecisionAnswers(p: Policy, entries: Buckets, heap: Heap, log: seq<Accept>, key: string, now: Time)
    requires p.Valid() && Mirrors(p, entries, log, now) && Scheduled(entries, heap, p.Window(), {})
    ensures key !in entries && |entries| >= p.maxKeys ==>
              heap != [] && Answers(p, log, key, now, Decision(false, 0, RetrySeconds(heap[0].expiresAt - now)))
    ensures key in entries && |entries[key]| >= p.Capacity() ==>
              Answers(p, log, key, now, Decision(false, 0, RetrySeconds(entries[key][0] + p.Window() - now)))
    ensures |Bucket(entries, key)| < p.Capacity() && (key in entries || |entries| < p.maxKeys) ==>
              Answers(p, log, key, now, Decision(true, p.Capacity() - |Bucket(entries, key)| - 1, 0))
  {
    hide Live, LiveKeys, FirstToExpire, Scheduled, Mirrors;
    MirrorsAnswer(p, entries, heap, log, now);
    LiveBucket(p, entries, heap, log, key, now);
    LiveMembers(p, log, key, now);
    assert |entries| == |entries.Keys|;
  }

  lemma LiveBucket(p: Policy, entries: Buckets, heap: Heap, log: seq<Accept>, key: string, now: Time)
    requires Mirrors(p, entries, log, now) && Scheduled(entries, heap, p.Window(), {})
    ensures Bucket(entries, key) == Live(p, log, key, now)
    ensures key in entries ==> entries[key] != []
  {
    hide Live;
  }

  /** A bucket that holds only live timestamps has nothing to prune. */
  lemma NothingToPrune(p: Policy, entries: Buckets, heap: Heap, log: seq<Accept>, key: string, now: Time, cutoff: Time)
    requires Mirrors(p, entries, log, now) && cutoff == now - p.Window()
    requires Scheduled(entries, heap, p.Window(), {}) && key in entries
    ensures BucketsOk(entries) && entries[key][0] > cutoff
  {
    LiveMembers(p, log, key, now);
    assert Bucket(entries, key) == Live(p, log, key, now);
    assert Bucket(entries, key)[0] in Live(p, log, key, now);
  }

  /** Everything the limiter maintains survives an accept. */
  lemma AcceptKeepsAll(p: Policy, entries: Buckets, heap: Heap, log: seq<Accept>, key: string, now: Time)
    requires p.Valid() && Mirrors(p, entries, log, now) && Scheduled(entries, heap, p.Window(), {})
    requires Admissible(p, log) && NoLaterThan(log, now)
    requires |Bucket(entries, key)| < p.Capacity() && (key in entries || |entries| < p.maxKeys)
    ensures var after := entries[key := Bucket(entries, key) + [now]];
            var log' := log + [Accept(key, now)];
            && Mirrors(p, after, log', now)
            && Scheduled(after, if key in entries then heap else Push(heap, ScheduleFor(after, key, p.Window())),
                p.Window(), {})
            && Admissible(p, log') && NoLaterThan(log', now)
  {
    DecisionAnswers(p, entries, heap, log, key, now);
    LiveMembers(p, log, key, now);
    assert Bucket(entries, key) == Live(p, log, key, now);
    AcceptKeepsSchedule(entries, heap, p.Window(), key, now);
    AcceptIsMirrored(p, entries, log, key, now);
    AcceptIsAdmissible(p, log, key, now);
  }

  class SlidingWindowRateLimiter {
    const policy: Policy
    var entries: Buckets
    var expirations: Heap
    /** History of accepted requests, and the last clock reading. */
    ghost var log: seq<Accept>
    ghost var at: Time

    ghost predicate Valid()
      reads this
    {
      && policy.Valid()
      && Scheduled(entries, expirations, policy.Window(), {})
      && Admissible(policy, log)
      && NoLaterThan(log, at)
      && Mirrors(policy, entries, log, at)
    }

    constructor (policy: Policy, ghost start: Time)
      requires policy.Valid()
      ensures Valid() && log == [] && at == start && this.policy == policy
    {
      this.policy := policy;
      entries, expirations := map[], [];
      log, at := [], start;
    }

    /** The heap never outgrows the configured number of keys. */
    lemma HeapIsBounded()
      requires Valid()
      ensures |expirations| == |entries| <= policy.maxKeys
    {
      HeapSizeIsBucketCount(entries, expirations, policy.Window());
      MirrorsAnswer(policy, entries, expirations, log, at);
      LiveKeysAreBounded(policy, log, at);
    }

    /** `_prune_bucket`: drop the expired front of a bucket; forget the bucket when it is empty, and
        schedule it again when its oldest timestamp changed. */
    method PruneBucket(key: string, cutoff: Time)
      requires key in entries && BucketsOk(entries)
      requires Scheduled(entries, expirations, policy.Window(), if entries[key][0] <= cutoff then {key} else {})
      modifies this`entries, this`expirations
      ensures Scheduled(entries, expirations, policy.Window(), {})
      ensures Bucket(entries, key) == After(old(entries)[key], cutoff)
      ensures forall k | k != key :: Bucket(entries, k) == Bucket(old(entries), k)
      ensures old(entries)[key][0] > cutoff ==> entries == old(entries) && expirations == old(expirations)
      ensures NoMoreDue(old(expirations), expirations, cutoff + policy.Window())
    {
      hide After, Scheduled, ExpiredCount;
      var first := entries[key][0];
      var events := DropExpired(entries[key], cutoff);
      PruneKeepsSchedule(entries, expirations, policy.Window(), key, cutoff);
      if events == [] {
        entries := entries - {key};
        return;
      }
      entries := entries[key := events];
      if events[0] != first {
        Reschedule(entries, expirations, policy.Window(), key, cutoff + policy.Window());
        expirations := Push(expirations, ScheduleFor(entries, key, policy.Window()));
      }
    }

    /** `_next_valid_expiration`: skip stale heap heads; the earliest expiry, if any bucket is left. */
    method NextValidExpiration() returns (expiresAt: Option<Time>)
      modifies this`expirations
      ensures SkippedStale(entries, old(expirations), expirations)
      ensures expiresAt.None? <==> expirations == []
      ensures expiresAt.Some? ==> IsCurrent(entries, expirations[0]) && expiresAt.value == expirations[0].expiresAt
      ensures Scheduled(entries, old(expirations), policy.Window(), {}) ==> expirations == old(expirations)
    {
      ghost var n := 0;
      while expirations != []
        invariant 0 <= n <= |old(expirations)|
        invariant expirations == old(expirations)[n..]
        invariant forall i | 0 <= i < n :: !IsCurrent(entries, old(expirations)[i])
        invariant Scheduled(entries, old(expirations), policy.Window(), {}) ==> n == 0
        decreases |expirations|
      {
        if IsCurrent(entries, expirations[0]) {
          return Some(expirations[0].expiresAt);
        }
        assert expirations[0] in old(expirations);
        expirations := expirations[1..];
        n := n + 1;
      }
      return None;
    }

    /** One round of `_evict_expired`: pop the due heap head and prune its bucket. */
    method PruneHead(cutoff: Time)
      requires Scheduled(entries, expirations, policy.Window(), {})
      requires expirations != [] && expirations[0].expiresAt <= cutoff + policy.Window()
      modifies this`entries, this`expirations
      ensures Scheduled(entries, expirations, policy.Window(), {})
      ensures ExpiredCount(expirations, cutoff + policy.Window())
              < ExpiredCount(old(expirations), cutoff + policy.Window())
      ensures SomePruned(old(entries), entries, cutoff)
    {
      HeadLeaves(entries, expirations, policy.Window());
      var slot := expirations[0].tag;
      expirations := expirations[1..];
      if slot.key !in entries || entries[slot.key][0] != slot.first {
        assert false;
      } else {
        PruneBucket(slot.key, cutoff);
      }
    }

    /** `_evict_expired`: prune every bucket whose heap entry has come due. Terminates because each
        round lowers the number of heap entries with expiry <= now. */
    method EvictExpired(now: Time, cutoff: Time)
      requires cutoff == now - policy.Window()
      requires Scheduled(entries, expirations, policy.Window(), {})
      modifies this`entries, this`expirations
      ensures Scheduled(entries, expirations, policy.Window(), {})
      ensures ExpiredCount(expirations, now) == 0
      ensures AllPruned(old(entries), entries, cutoff)
    {
      hide After, AllPruned, SomePruned, SkippedStale, Scheduled, AgreeAfter, IsCurrent, ExpiredCount;
      AgreesWithItself(entries, cutoff);
      while true
        invariant Scheduled(entries, expirations, policy.Window(), {})
        invariant AgreeAfter(entries, old(entries), cutoff)
        decreases ExpiredCount(expirations, now)
      {
        var expiresAt := NextValidExpiration();
        if expiresAt == None || expiresAt.value > now {
          NothingLeftToEvict(entries, old(entries), expirations, policy.Window(), now, cutoff);
          return;
        }
        ghost var before := entries;
        PruneHead(cutoff);
        EvictionComposes(before, entries, old(entries), cutoff);
      }
    }

    /** One request for `key` at clock reading `now`. */
    method Check(key: string, now: Time) returns (outcome: Outcome)
      requires Valid() && at <= now
      modifies this
      ensures Valid()
      ensures outcome.BlankKey? <==> IsBlank(key)
      ensures outcome.BlankKey? ==> log == old(log)
      ensures outcome.Decided? ==> at == now && Answers(policy, old(log), key, now, outcome.decision)
      ensures outcome.Decided? ==>
                log == if outcome.decision.allowed then old(log) + [Accept(key, now)] else old(log)
    {
      hide Live, LiveKeys, Answers, Admissible, Mirrors, Scheduled, NoLaterThan, After, AllPruned, SkippedStale,
           IsCurrent,
        BucketsOk, ExpiredCount, IsBlank;
      if IsBlank(key) {
        return BlankKey;
      }
      var cutoff := now - policy.Window();
      var capacity := policy.Capacity();
      EvictExpired(now, cutoff);
      ClockAdvances(policy, old(entries), entries, log, at, now, cutoff);
      at := now;
      ghost var settled, heap := entries, expirations;
      DecisionAnswers(policy, settled, heap, log, key, now);
      if key in entries {
        NothingToPrune(policy, entries, expirations, log, key, now, cutoff);
        PruneBucket(key, cutoff);
      }
      assert entries == settled && expirations == heap;
      if key !in entries {
        if |entries| >= policy.maxKeys {
          var expiresAt := NextValidExpiration();
          var retry := if expiresAt.Some? then RetrySeconds(expiresAt.value - now) else policy.windowSeconds;
          return Decided(Decision(false, 0, retry));
        }
        entries := entries[key := []];
      }
      var events := entries[key];
      if |events| >= capacity {
        return Decided(Decision(false, 0, RetrySeconds(events[0] + policy.Window() - now)));
      }
      events := events + [now];
      entries := entries[key := events];
      if |events| == 1 {
        expirations := Push(expirations, ScheduleFor(entries, key, policy.Window()));
      }
      assert entries == settled[key := Bucket(settled, key) + [now]];
      AcceptKeepsAll(policy, settled, heap, log, key, now);
      log := log + [Accept(key, now)];
      return Decided(Decision(true, capacity - |events|, 0));
    }
  }
}
