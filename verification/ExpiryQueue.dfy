/** The part of Python's `heapq` that the limiter and the replay store rely on: a queue whose head
    has the least expiry. The heap is represented by its contents in order of expiry. */
module ExpiryQueue {

  datatype Item<T> = Item(expiresAt: int, tag: T)

  ghost predicate Ordered<T>(q: seq<Item<T>>) {
    forall i, j | 0 <= i < j < |q| :: q[i].expiresAt <= q[j].expiresAt
  }

  /** How many leading items have expired at `now`. */
  function ExpiredCount<T>(q: seq<Item<T>>, now: int): (n: nat)
    ensures n <= |q|
    ensures forall i | 0 <= i < n :: q[i].expiresAt <= now
    ensures n < |q| ==> now < q[n].expiresAt
  {
    if q != [] && q[0].expiresAt <= now then 1 + ExpiredCount(q[1..], now) else 0
  }

  /** `heappush` */
  function Push<T>(q: seq<Item<T>>, item: Item<T>): seq<Item<T>> {
    var n := ExpiredCount(q, item.expiresAt);
    q[..n] + [item] + q[n..]
  }

  lemma PushKeepsOrder<T>(q: seq<Item<T>>, item: Item<T>)
    requires Ordered(q)
    ensures Ordered(Push(q, item))
  {
  }

  lemma PushMembers<T>(q: seq<Item<T>>, item: Item<T>)
    ensures forall x :: x in Push(q, item) <==> x == item || x in q
    ensures |Push(q, item)| == |q| + 1
  {
    var n := ExpiredCount(q, item.expiresAt);
    assert q == q[..n] + q[n..];
  }

  /** Pushing an item that expires after `now` does not add to the expired prefix. */
  lemma PushLater<T>(q: seq<Item<T>>, item: Item<T>, now: int)
    requires Ordered(q) && now < item.expiresAt
    ensures ExpiredCount(Push(q, item), now) == ExpiredCount(q, now)
  {
    var r := Push(q, item);
    var n, m := ExpiredCount(q, now), ExpiredCount(r, now);
    assert n < |r| && r[n].expiresAt > now;
    assert forall i | 0 <= i < n :: r[i].expiresAt <= now;
  }
}
