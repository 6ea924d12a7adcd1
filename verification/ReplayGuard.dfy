/** One-time workload assertions: the replay store (claim map plus expiry heap) and the verifier
    that claims a nonce before it accepts an assertion. */
module ReplayGuard {
  import opened Common
  import opened ExpiryQueue

  type Time = int

  // ---------------------------------------------------------------- the replay store

  /** An accepted claim: its key, when it lapses, and when it was made. */
  datatype Claim = Claim(key: string, expiresAt: Time, at: Time)

  datatype ClaimOutcome = Fresh | Replay | CapacityExhausted

  type Claims = map<string, Time>
  type Heap = seq<Item<string>>

  ghost predicate OnePerKey(heap: Heap) {
    forall i, j | 0 <= i < j < |heap| :: heap[i].tag != heap[j].tag
  }

  /** Heap and map are in bijection. */
  ghost predicate Scheduled(claims: Claims, heap: Heap) {
    && Ordered(heap)
    && OnePerKey(heap)
    && (forall x | x in heap :: x.tag in claims && x == EntryFor(claims, x.tag))
    && (forall k | k in claims :: EntryFor(claims, k) in heap)
  }

  function EntryFor(claims: Claims, key: string): Item<string>
    requires key in claims
  {
    Item(claims[key], key)
  }

  /** The map holds every claim that has not lapsed at `now`, and nothing that was never claimed. */
  ghost predicate Holds(claims: Claims, history: seq<Claim>, now: Time) {
    && (forall c | c in history && c.expiresAt > now :: c.key in claims && claims[c.key] == c.expiresAt)
    && (forall k | k in claims :: exists c | c in history :: c.key == k && c.expiresAt == claims[k])
  }

  /** A key is claimed again only once its earlier claims have lapsed. */
  ghost predicate NoOverlap(history: seq<Claim>) {
    forall i, j | 0 <= i < j < |history| && history[i].key == history[j].key ::
      history[i].expiresAt <= history[j].at
  }

  function LiveKeys(history: seq<Claim>, now: Time): set<string> {
    set c | c in history && c.expiresAt > now :: c.key
  }

  lemma PushKeepsKeysApart(heap: Heap, item: Item<string>)
    requires OnePerKey(heap) && forall x | x in heap :: x.tag != item.tag
    ensures OnePerKey(Push(heap, item))
  {
    assert forall i | 0 <= i < |heap| :: heap[i] in heap;
  }

  lemma HeadLapses(claims: Claims, heap: Heap)
    requires Scheduled(claims, heap) && heap != []
    ensures heap[0].tag in claims && claims[heap[0].tag] == heap[0].expiresAt
    ensures Scheduled(claims - {heap[0].tag}, heap[1..])
  {
    assert heap[0] in heap;
    var rest, after := heap[1..], claims - {heap[0].tag};
    forall x | x in rest ensures x.tag in after && x == EntryFor(after, x.tag) {
      assert x in heap;
    }
    forall k | k in after ensures EntryFor(after, k) in rest {
      assert EntryFor(claims, k) in heap;
    }
  }

  lemma NewClaimIsScheduled(claims: Claims, heap: Heap, key: string, expiresAt: Time)
    requires Scheduled(claims, heap) && key !in claims
    ensures Scheduled(claims[key := expiresAt], Push(heap, Item(expiresAt, key)))
  {
    hide OnePerKey, Ordered, Push;
    var item, after := Item(expiresAt, key), claims[key := expiresAt];
    PushKeepsOrder(heap, item);
    PushMembers(heap, item);
    PushKeepsKeysApart(heap, item);
    forall k | k in after ensures EntryFor(after, k) in Push(heap, item) {
      if k != key { assert EntryFor(claims, k) in heap; }
    }
  }

  lemma LapseKeepsHolds(claims: Claims, history: seq<Claim>, key: string, now: Time)
    requires Holds(claims, history, now) && key in claims && claims[key] <= now
    ensures Holds(claims - {key}, history, now)
  {
  }

  lemma HoldsLater(claims: Claims, history: seq<Claim>, at: Time, now: Time)
    requires Holds(claims, history, at) && at <= now
    ensures Holds(claims, history, now)
  {
  }

  /** Once nothing in the map has lapsed, its keys are the live keys of the history. */
  lemma HeldKeysAreLive(claims: Claims, history: seq<Claim>, heap: Heap, now: Time)
    requires Holds(claims, history, now) && Scheduled(claims, heap)
    requires heap == [] || heap[0].expiresAt > now
    ensures claims.Keys == LiveKeys(history, now)
  {
    forall k | k in claims ensures claims[k] > now {
      assert EntryFor(claims, k) in heap;
    }
  }

  lemma ClaimExtendsHistory(claims: Claims, history: seq<Claim>, key: string, expiresAt: Time, now: Time)
    requires Holds(claims, history, now) && NoOverlap(history) && key !in claims
    ensures Holds(claims[key := expiresAt], history + [Claim(key, expiresAt, now)], now)
    ensures NoOverlap(history + [Claim(key, expiresAt, now)])
  {
    var claim := Claim(key, expiresAt, now);
    var after := claims[key := expiresAt];
    assert forall c | c in history :: c in history + [claim];
    assert claim in history + [claim];
    forall k | k in after ensures exists c | c in history + [claim] :: c.key == k && c.expiresAt == after[k] {
      if k != key {
        var c :| c in history && c.key == k && c.expiresAt == claims[k];
      }
    }
    assert forall i | 0 <= i < |history| :: history[i] in history;
  }

  class InMemoryReplayStore {
    const maxEntries: nat
    var claims: Claims
    var expirations: Heap
    ghost var history: seq<Claim>
    ghost var at: Time

    ghost predicate Valid()
      reads this
    {
      && maxEntries >= 1
      && |claims| <= maxEntries
      && Scheduled(claims, expirations)
      && Holds(claims, history, at)
      && NoOverlap(history)
      && forall c | c in history :: c.at <= at
    }

    constructor (maxEntries: nat, ghost start: Time)
      requires maxEntries >= 1
      ensures Valid() && history == [] && at == start && this.maxEntries == maxEntries
    {
      this.maxEntries := maxEntries;
      claims, expirations := map[], [];
      history, at := [], start;
    }

    /** `_evict_expired`; each round removes one due heap entry. */
    method EvictExpired(now: Time)
      requires Valid() && at <= now
      modifies this`claims, this`expirations, this`at
      ensures Valid() && at == now
      ensures claims.Keys == LiveKeys(history, now)
    {
      hide Scheduled, Holds, NoOverlap, LiveKeys;
      HoldsLater(claims, history, at, now);
      at := now;
      while expirations != [] && expirations[0].expiresAt <= now
        invariant Valid() && at == now
        decreases |expirations|
      {
        var item := expirations[0];
        HeadLapses(claims, expirations);
        LapseKeepsHolds(claims, history, item.tag, now);
        expirations := expirations[1..];
        if item.tag in claims && claims[item.tag] == item.expiresAt {
          claims := claims - {item.tag};
        }
      }
      HeldKeysAreLive(claims, history, expirations, now);
    }

    method ClaimOnce(key: string, expiresAt: Time, now: Time) returns (outcome: ClaimOutcome)
      requires Valid() && at <= now
      modifies this
      ensures Valid() && at == now
      ensures outcome.Replay? <==> key in LiveKeys(old(history), now)
      ensures outcome.CapacityExhausted? <==>
                key !in LiveKeys(old(history), now) && |LiveKeys(old(history), now)| >= maxEntries
      ensures history == if outcome.Fresh? then old(history) + [Claim(key, expiresAt, now)] else old(history)
    {
      hide Scheduled, Holds, NoOverlap, LiveKeys;
      EvictExpired(now);
      if key in claims {
        return Replay;
      }
      if |claims| >= maxEntries {
        return CapacityExhausted;
      }
      NewClaimIsScheduled(claims, expirations, key, expiresAt);
      ClaimExtendsHistory(claims, history, key, expiresAt, now);
      claims := claims[key := expiresAt];
      expirations := Push(expirations, Item(expiresAt, key));
      history := history + [Claim(key, expiresAt, now)];
      return Fresh;
    }
  }

  // ---------------------------------------------------------------- the verifier

  datatype IdentityPolicy = IdentityPolicy(
    issuer: string, audience: string, subjectPrefixes: seq<string>, allowedClientIds: seq<string>,
    maxLifetime: nat, skew: nat, requireNotBefore: bool, requireNonce: bool)

  datatype Assertion = Assertion(
    issuer: string, subject: string, audience: string, tenantId: string, issuedAt: Time, expiresAt: Time,
    notBefore: Option<Time>, nonce: Option<string>, clientId: Option<string>)

  datatype Refusal =
    | BlankCredential | NotAuthenticated | TenantMismatch | IssuerMismatch | AudienceMismatch
    | SubjectNotAllowed | ClientNotAllowed | LifetimeTooLong | OutsideValidity | NotBeforeMissing
    | NotActiveYet | NonceMissing | ReplayDetected | StoreExhausted

  datatype Verdict = Accepted(assertion: Assertion) | Refused(reason: Refusal)

  /** `rstrip("/")` */
  function TrimSlashes(s: string): string {
    if s != [] && s[|s| - 1] == '/' then TrimSlashes(s[..|s| - 1]) else s
  }

  /** The policy checks that precede the replay claim, in order. */
  function PolicyRefusal(p: IdentityPolicy, a: Assertion, tenant: string, now: Time): Option<Refusal> {
    if a.tenantId != tenant then Some(TenantMismatch)
    else if TrimSlashes(a.issuer) != TrimSlashes(p.issuer) then Some(IssuerMismatch)
    else if a.audience != p.audience then Some(AudienceMismatch)
    else if !exists i | 0 <= i < |p.subjectPrefixes| :: p.subjectPrefixes[i] <= a.subject then Some(SubjectNotAllowed)
    else if p.allowedClientIds != [] && (a.clientId.None? || a.clientId.value !in p.allowedClientIds) then
      Some(ClientNotAllowed)
    else if a.expiresAt - a.issuedAt > p.maxLifetime then Some(LifetimeTooLong)
    else if a.issuedAt > now + p.skew || a.expiresAt <= now - p.skew then Some(OutsideValidity)
    else if p.requireNotBefore && a.notBefore.None? then Some(NotBeforeMissing)
    else if a.notBefore.Some? && a.notBefore.value > now + p.skew then Some(NotActiveYet)
    else if p.requireNonce && a.nonce.None? then Some(NonceMissing)
    else None
  }

  /** The text that is hashed into a replay key. */
  function ReplayText(a: Assertion): string
    requires a.nonce.Some?
  {
    a.issuer + "\0" + a.subject + "\0" + a.tenantId + "\0" + a.nonce.value
  }

  /** The verdict as a rule over the history of claims: policy first, then one live claim per key and
      a bounded number of live claims. */
  function ExpectedVerdict(p: IdentityPolicy, digest: string -> string, history: seq<Claim>, maxEntries: nat,
                           credential: string, authenticated: Option<Assertion>, tenant: string, now: Time): Verdict {
    if IsBlank(credential) then Refused(BlankCredential)
    else if authenticated == None then Refused(NotAuthenticated)
    else
      var a := authenticated.value;
      var refusal := PolicyRefusal(p, a, tenant, now);
      if refusal.Some? then Refused(refusal.value)
      else if a.nonce == None then Accepted(a)
      else if digest(ReplayText(a)) in LiveKeys(history, now) then Refused(ReplayDetected)
      else if |LiveKeys(history, now)| >= maxEntries then Refused(StoreExhausted)
      else Accepted(a)
  }

  datatype Acceptance = Acceptance(assertion: Assertion, at: Time)

  /** Two acceptances under one replay key are at least a validity period apart. */
  ghost predicate Separated(p: IdentityPolicy, digest: string -> string, accepted: seq<Acceptance>) {
    forall i, j | 0 <= i < j < |accepted|
      && accepted[i].assertion.nonce.Some? && accepted[j].assertion.nonce.Some?
      && digest(ReplayText(accepted[i].assertion)) == digest(ReplayText(accepted[j].assertion)) ::
      accepted[i].assertion.expiresAt + p.skew <= accepted[j].at
  }

  ghost predicate AllPassedPolicy(p: IdentityPolicy, accepted: seq<Acceptance>) {
    forall x | x in accepted :: PolicyRefusal(p, x.assertion, x.assertion.tenantId, x.at) == None
  }

  /** An assertion that carries a nonce occurs at most once among the acceptances of a run: the claim
      outlives the assertion by exactly the skew the validity check allows. No assumption is made on
      the digest; a collision could only cause a refusal. */
  lemma AcceptedAtMostOnce(p: IdentityPolicy, digest: string -> string, accepted: seq<Acceptance>, i: nat, j: nat)
    requires Separated(p, digest, accepted) && AllPassedPolicy(p, accepted)
    requires i < j < |accepted| && accepted[i].assertion.nonce.Some?
    ensures accepted[i].assertion != accepted[j].assertion
  {
    assert accepted[j] in accepted;
  }

  /** Every acceptance with a nonce left its claim in the store's history. */
  ghost predicate Recorded(p: IdentityPolicy, digest: string -> string, accepted: seq<Acceptance>,
                           history: seq<Claim>) {
    forall x | x in accepted && x.assertion.nonce.Some? ::
      Claim(digest(ReplayText(x.assertion)), x.assertion.expiresAt + p.skew, x.at) in history
  }

  lemma AcceptanceIsRecorded(p: IdentityPolicy, digest: string -> string, accepted: seq<Acceptance>,
                             history: seq<Claim>, history': seq<Claim>, x: Acceptance)
    requires Recorded(p, digest, accepted, history) && history <= history'
    requires x.assertion.nonce.Some? ==>
               Claim(digest(ReplayText(x.assertion)), x.assertion.expiresAt + p.skew, x.at) in history'
    ensures Recorded(p, digest, accepted + [x], history')
  {
    assert forall c | c in history :: c in history';
  }

  lemma PassedTenant(p: IdentityPolicy, a: Assertion, tenant: string, now: Time)
    requires PolicyRefusal(p, a, tenant, now) == None
    ensures a.tenantId == tenant
  {
  }

  /** A fresh claim keeps the acceptances under one key apart, because every earlier one left a
      claim that had to lapse first. */
  lemma AcceptanceIsSeparated(p: IdentityPolicy, digest: string -> string, accepted: seq<Acceptance>,
                              history: seq<Claim>, x: Acceptance)
    requires Separated(p, digest, accepted) && Recorded(p, digest, accepted, history)
    requires x.assertion.nonce.Some? ==> digest(ReplayText(x.assertion)) !in LiveKeys(history, x.at)
    ensures Separated(p, digest, accepted + [x])
  {
    forall i | 0 <= i < |accepted| && accepted[i].assertion.nonce.Some? && x.assertion.nonce.Some?
      && digest(ReplayText(accepted[i].assertion)) == digest(ReplayText(x.assertion))
      ensures accepted[i].assertion.expiresAt + p.skew <= x.at
    {
      assert accepted[i] in accepted;
    }
  }

  class WorkloadIdentityVerifier {
    const policy: IdentityPolicy
    const digest: string -> string
    const store: InMemoryReplayStore
    ghost var accepted: seq<Acceptance>

    ghost predicate Valid()
      reads this, store
    {
      && store.Valid()
      && AllPassedPolicy(policy, accepted)
      && Separated(policy, digest, accepted)
      && Recorded(policy, digest, accepted, store.history)
    }

    constructor (policy: IdentityPolicy, digest: string -> string, store: InMemoryReplayStore)
      requires store.Valid()
      ensures Valid() && accepted == []
    {
      this.policy, this.digest, this.store := policy, digest, store;
      accepted := [];
    }

    /** `authenticated` is what the cryptographic authenticator made of the credential. */
    method VerifyAndClaim(credential: string, authenticated: Option<Assertion>, tenant: string, now: Time)
      returns (verdict: Verdict)
      requires Valid() && store.at <= now
      modifies this, store
      ensures Valid() && store.at >= old(store.at)
      ensures verdict == ExpectedVerdict(policy, digest, old(store.history), store.maxEntries,
                                         credential, authenticated, tenant, now)
      ensures accepted == if verdict.Accepted? then old(accepted) + [Acceptance(verdict.assertion, now)]
              else old(accepted)
    {
      hide Separated, Recorded, LiveKeys, InMemoryReplayStore.Valid, PolicyRefusal;
      if IsBlank(credential) {
        return Refused(BlankCredential);
      }
      if authenticated == None {
        return Refused(NotAuthenticated);
      }
      var a := authenticated.value;
      var refusal := PolicyRefusal(policy, a, tenant, now);
      if refusal.Some? {
        return Refused(refusal.value);
      }
      if a.nonce.Some? {
        var outcome := store.ClaimOnce(digest(ReplayText(a)), a.expiresAt + policy.skew, now);
        if outcome.Replay? {
          return Refused(ReplayDetected);
        }
        if outcome.CapacityExhausted? {
          return Refused(StoreExhausted);
        }
      }
      AcceptanceIsSeparated(policy, digest, accepted, old(store.history), Acceptance(a, now));
      AcceptanceIsRecorded(policy, digest, accepted, old(store.history), store.history, Acceptance(a, now));
      PassedTenant(policy, a, tenant, now);
      accepted := accepted + [Acceptance(a, now)];
      return Accepted(a);
    }
  }
}
