/** The append-only event ledger: one hash chain per tenant run. */
module Ledger {
  import opened Common
  import opened PortableJson
  import opened PortableJsonProofs

  /** SHA-256 over the canonical JSON of an event's material and the previous hash. */
  type Digest = (Value, Option<string>) -> string

  /** The canonical text does not depend on member order, so neither does a digest of it. */
  ghost predicate Respects(digest: Digest) {
    forall a: Value, b: Value, previous: Option<string> | WellFormed(a) && WellFormed(b) && Equiv(a, b) ::
      digest(a, previous) == digest(b, previous)
  }

  /** What a caller appends; `details` are the remaining fields as JSON members. */
  datatype Draft = Draft(tenantId: string, runId: string, eventType: string, details: seq<Member>)

  const RESERVED: set<string> := {"tenant_id", "run_id", "event_type", "sequence", "integrity"}

  /** Field names are distinct, and the modelled fields are not among the details. */
  ghost predicate ValidDraft(d: Draft) {
    && (forall i | 0 <= i < |d.details| ::
          d.details[i].key.Name? && d.details[i].key.name !in RESERVED && WellFormed(d.details[i].value))
    && (forall i, j | 0 <= i < j < |d.details| :: d.details[i].key != d.details[j].key)
  }

  datatype ControlEvent = ControlEvent(draft: Draft, sequence: nat, previous: Option<string>, hash: string)

  function Field(name: string, v: Value): Member { Member(Name(name), v) }

  /** The event without its integrity record: `hash_material`. */
  function Material(d: Draft, sequence: nat): Value {
    Obj([Field("tenant_id", Str(d.tenantId)), Field("run_id", Str(d.runId)), Field("event_type", Str(d.eventType)),
         Field("sequence", Int(sequence))] + d.details)
  }

  lemma MaterialWellFormed(d: Draft, sequence: nat)
    requires ValidDraft(d)
    ensures WellFormed(Material(d, sequence))
  {
    var ms := Material(d, sequence).members;
    assert forall i | 4 <= i < |ms| :: ms[i] == d.details[i - 4];
    assert "tenant_id"[0] == 't' && "run_id"[0] == 'r' && "event_type"[0] == 'e' && "sequence"[0] == 's';
  }

  // ---------------------------------------------------------------- the chain

  function Tip(events: seq<ControlEvent>): Option<string> {
    if events == [] then None else Some(events[|events| - 1].hash)
  }

  ghost predicate Linked(digest: Digest, tenantId: string, events: seq<ControlEvent>, i: nat)
    requires i < |events|
  {
    var e := events[i];
    && e.sequence == i + 1
    && e.draft.tenantId == tenantId
    && e.previous == Tip(events[..i])
    && e.hash == digest(Material(e.draft, e.sequence), e.previous)
  }

  /** Every event is numbered, owned and hashed onto its predecessor. */
  ghost predicate Verified(digest: Digest, tenantId: string, events: seq<ControlEvent>) {
    forall i | 0 <= i < |events| :: Linked(digest, tenantId, events, i)
  }

  type RunKey = (string, string)

  type Runs = map<RunKey, seq<ControlEvent>>

  /** Another tenant already has events under this run id. */
  predicate CrossesTenants(runs: Runs, d: Draft) {
    exists key | key in runs :: key.1 == d.runId && key.0 != d.tenantId && runs[key] != []
  }

  function EventsOf(runs: Runs, key: RunKey): seq<ControlEvent> {
    if key in runs then runs[key] else []
  }

  function NextEvent(digest: Digest, events: seq<ControlEvent>, d: Draft): ControlEvent {
    ControlEvent(d, |events| + 1, Tip(events), digest(Material(d, |events| + 1), Tip(events)))
  }

  /** `append`; `None` when it raises. */
  function Append(digest: Digest, runs: Runs, d: Draft): (Runs, Option<ControlEvent>) {
    if CrossesTenants(runs, d) then (runs, None)
    else
      var key := (d.tenantId, d.runId);
      var e := NextEvent(digest, EventsOf(runs, key), d);
      (runs[key := EventsOf(runs, key) + [e]], Some(e))
  }

  /** A draft is appended exactly when no other tenant has events in its run; it becomes the next event, and nothing
      else changes. */
  lemma AppendedExactlyWhen(digest: Digest, runs: Runs, d: Draft)
    ensures var (next, e) := Append(digest, runs, d);
            && (e.Some? <==> forall key: RunKey | key.1 == d.runId && EventsOf(runs, key) != [] :: key.0 == d.tenantId)
            && (e.Some? ==>
                  var events := EventsOf(runs, (d.tenantId, d.runId));
                  && EventsOf(next, (d.tenantId, d.runId)) == events + [e.value]
                  && e.value.draft == d && e.value.sequence == |events| + 1
                  && e.value.previous == (if events == [] then None else Some(events[|events| - 1].hash)))
            && forall key: RunKey | e.None? || key != (d.tenantId, d.runId) ::
                 EventsOf(next, key) == EventsOf(runs, key)
  {
    hide Material;
    forall key: RunKey | key.1 == d.runId && key.0 != d.tenantId && EventsOf(runs, key) != []
      ensures CrossesTenants(runs, d)
    {
      assert key in runs;
    }
    if CrossesTenants(runs, d) {
      var key :| key in runs && key.1 == d.runId && key.0 != d.tenantId && runs[key] != [];
      assert EventsOf(runs, key) != [];
    }
  }

  function AppendAll(digest: Digest, runs: Runs, drafts: seq<Draft>): Runs
    decreases |drafts|
  {
    if drafts == [] then runs else AppendAll(digest, Append(digest, runs, drafts[0]).0, drafts[1..])
  }

  /** Every run is a verified chain of its own tenant's events, and a run id belongs to one tenant. */
  ghost predicate Sound(digest: Digest, runs: Runs) {
    && (forall key | key in runs ::
          Verified(digest, key.0, runs[key]) && forall i | 0 <= i < |runs[key]| :: runs[key][i].draft.runId == key.1)
    && (forall a, b | a in runs && b in runs && a.1 == b.1 && runs[a] != [] && runs[b] != [] :: a == b)
  }

  lemma VerifiedExtends(digest: Digest, tenantId: string, events: seq<ControlEvent>, d: Draft)
    requires Verified(digest, tenantId, events) && d.tenantId == tenantId
    ensures Verified(digest, tenantId, events + [NextEvent(digest, events, d)])
  {
    var more := events + [NextEvent(digest, events, d)];
    forall i | 0 <= i < |more| ensures Linked(digest, tenantId, more, i) {
      assert more[..i] == events[..i];
      if i < |events| { assert Linked(digest, tenantId, events, i); }
      else { assert events[..i] == events; }
    }
  }

  lemma AppendKeepsSound(digest: Digest, runs: Runs, d: Draft)
    requires Sound(digest, runs)
    ensures Sound(digest, Append(digest, runs, d).0)
  {
    hide Verified, NextEvent;
    if !CrossesTenants(runs, d) {
      var key := (d.tenantId, d.runId);
      var events := EventsOf(runs, key);
      assert Verified(digest, key.0, events) by { EmptyIsVerified(digest, key.0); }
      VerifiedExtends(digest, d.tenantId, events, d);
      assert NextEvent(digest, events, d).draft == d by { NextEventIs(digest, events, d); }
    }
  }

  lemma EmptyIsVerified(digest: Digest, tenantId: string)
    ensures Verified(digest, tenantId, [])
  {
  }

  lemma NextEventIs(digest: Digest, events: seq<ControlEvent>, d: Draft)
    ensures NextEvent(digest, events, d).draft == d
  {
  }

  /** Every ledger that appends alone can reach verifies, run by run, with no run id under two tenants. */
  lemma {:induction false} ReachableIsSound(digest: Digest, runs: Runs, drafts: seq<Draft>)
    requires Sound(digest, runs)
    ensures Sound(digest, AppendAll(digest, runs, drafts))
    decreases |drafts|
  {
    if drafts != [] {
      AppendKeepsSound(digest, runs, drafts[0]);
      ReachableIsSound(digest, Append(digest, runs, drafts[0]).0, drafts[1..]);
    }
  }

  // ---------------------------------------------------------------- the tip pins the history

  /** What a hash in a chain was computed from. */
  datatype Link = Link(material: Value, previous: Option<string>, hash: string)

  function LinkTip(links: seq<Link>): Option<string> {
    if links == [] then None else Some(links[|links| - 1].hash)
  }

  ghost predicate Joined(digest: Digest, links: seq<Link>, i: nat)
    requires i < |links|
  {
    links[i].previous == LinkTip(links[..i]) && links[i].hash == digest(links[i].material, links[i].previous)
  }

  ghost predicate Chained(digest: Digest, links: seq<Link>) {
    forall i | 0 <= i < |links| :: Joined(digest, links, i)
  }

  /** Hashed from the same material, up to member order, and the same previous hash. */
  ghost predicate SameInput(a: Link, b: Link) {
    Equiv(a.material, b.material) && a.previous == b.previous
  }

  /** No two links of the chains were hashed to the same digest from different inputs. */
  ghost predicate NoCollision(a: seq<Link>, b: seq<Link>) {
    forall i, j | 0 <= i < |a| && 0 <= j < |b| && a[i].hash == b[j].hash :: SameInput(a[i], b[j])
  }

  ghost predicate SameHistory(a: seq<Link>, b: seq<Link>) {
    |a| == |b| && forall i | 0 <= i < |a| :: SameInput(a[i], b[i]) && a[i].hash == b[i].hash
  }

  lemma ChainedPrefix(digest: Digest, links: seq<Link>, n: nat)
    requires Chained(digest, links) && n <= |links|
    ensures Chained(digest, links[..n])
  {
    forall i | 0 <= i < n ensures Joined(digest, links[..n], i) {
      assert links[..n][..i] == links[..i];
      assert Joined(digest, links, i);
    }
  }

  /** Two chains with the same final hash are the same chain: same material, same length, down to the
      first link, unless the digest collided on them. */
  lemma {:induction false} TipPinsHistory(digest: Digest, a: seq<Link>, b: seq<Link>)
    requires Chained(digest, a) && Chained(digest, b) && LinkTip(a) == LinkTip(b) && NoCollision(a, b)
    ensures SameHistory(a, b)
    decreases |a|
  {
    hide SameInput;
    if a != [] {
      var m, n := |a| - 1, |b| - 1;
      assert Joined(digest, a, m) && Joined(digest, b, n);
      assert a[m].hash == b[n].hash;
      assert a[m].previous == b[n].previous by { SameInputPrevious(a[m], b[n]); }
      ChainedPrefix(digest, a, m);
      ChainedPrefix(digest, b, n);
      TipPinsHistory(digest, a[..m], b[..n]);
    }
  }

  lemma SameInputPrevious(a: Link, b: Link)
    requires SameInput(a, b)
    ensures a.previous == b.previous
  {
  }

  function LinkOf(e: ControlEvent): Link {
    Link(Material(e.draft, e.sequence), e.previous, e.hash)
  }

  function LinksOf(events: seq<ControlEvent>): (links: seq<Link>)
    ensures |links| == |events| && forall i | 0 <= i < |events| :: links[i] == LinkOf(events[i])
  {
    seq(|events|, i requires 0 <= i < |events| => LinkOf(events[i]))
  }

  lemma VerifiedIsChained(digest: Digest, tenantId: string, events: seq<ControlEvent>)
    requires Verified(digest, tenantId, events)
    ensures Chained(digest, LinksOf(events)) && LinkTip(LinksOf(events)) == Tip(events)
  {
    var links := LinksOf(events);
    forall i | 0 <= i < |links| ensures Joined(digest, links, i) {
      assert Linked(digest, tenantId, events, i);
    }
  }

  /** Two verified runs with the same final hash hold the same events. */
  lemma RunsWithOneTip(digest: Digest, tenantA: string, a: seq<ControlEvent>, tenantB: string, b: seq<ControlEvent>)
    requires Verified(digest, tenantA, a) && Verified(digest, tenantB, b) && Tip(a) == Tip(b)
    requires NoCollision(LinksOf(a), LinksOf(b))
    ensures |a| == |b|
    ensures forall i | 0 <= i < |a| ::
              a[i].previous == b[i].previous && a[i].hash == b[i].hash
              && Equiv(Material(a[i].draft, a[i].sequence), Material(b[i].draft, b[i].sequence))
  {
    hide Equiv, Verified, Material;
    VerifiedIsChained(digest, tenantA, a);
    VerifiedIsChained(digest, tenantB, b);
    TipPinsHistory(digest, LinksOf(a), LinksOf(b));
    assert forall i | 0 <= i < |a| :: SameInput(LinksOf(a)[i], LinksOf(b)[i]);
  }

  /** Equal material means equal tenant, run, type and number, and the same details: under the same names, and
      equal under each. */
  lemma SameMaterialMeans(a: ControlEvent, b: ControlEvent)
    requires Equiv(Material(a.draft, a.sequence), Material(b.draft, b.sequence))
    ensures a.draft.tenantId == b.draft.tenantId && a.draft.runId == b.draft.runId
    ensures a.draft.eventType == b.draft.eventType && a.sequence == b.sequence
    ensures forall i, j | 0 <= i < |a.draft.details| && 0 <= j < |b.draft.details|
              && a.draft.details[i].key == b.draft.details[j].key ::
              Equiv(a.draft.details[i].value, b.draft.details[j].value)
    ensures ValidDraft(a.draft) && ValidDraft(b.draft) ==> Equiv(Obj(a.draft.details), Obj(b.draft.details))
  {
    hide Equiv, WellFormed, ValidDraft;
    var x, y := Material(a.draft, a.sequence).members, Material(b.draft, b.sequence).members;
    var p, q := a.draft.details, b.draft.details;
    MembersAgree(x, y, 0, 0);
    MembersAgree(x, y, 1, 1);
    MembersAgree(x, y, 2, 2);
    MembersAgree(x, y, 3, 3);
    ScalarsAgree(a, b);
    forall i, j | 0 <= i < |p| && 0 <= j < |q| && p[i].key == q[j].key ensures Equiv(p[i].value, q[j].value) {
      MembersAgree(x, y, i + 4, j + 4);
    }
    if ValidDraft(a.draft) && ValidDraft(b.draft) {
      DetailNames(a.draft, a.sequence);
      DetailNames(b.draft, b.sequence);
      SameNames(x, y);
      ObjectsAgree(p, q);
    }
  }

  lemma MembersAgree(x: seq<Member>, y: seq<Member>, i: nat, j: nat)
    requires Equiv(Obj(x), Obj(y)) && i < |x| && j < |y| && x[i].key == y[j].key
    ensures Equiv(x[i].value, y[j].value)
  {
  }

  lemma SameNames(x: seq<Member>, y: seq<Member>)
    requires Equiv(Obj(x), Obj(y))
    ensures KeySet(x) == KeySet(y)
  {
  }

  lemma ObjectsAgree(x: seq<Member>, y: seq<Member>)
    requires KeySet(x) == KeySet(y)
    requires forall i, j | 0 <= i < |x| && 0 <= j < |y| && x[i].key == y[j].key :: Equiv(x[i].value, y[j].value)
    ensures Equiv(Obj(x), Obj(y))
  {
  }

  lemma ScalarsAgree(a: ControlEvent, b: ControlEvent)
    requires Equiv(Str(a.draft.tenantId), Str(b.draft.tenantId)) && Equiv(Str(a.draft.runId), Str(b.draft.runId))
    requires Equiv(Str(a.draft.eventType), Str(b.draft.eventType)) && Equiv(Int(a.sequence), Int(b.sequence))
    ensures a.draft.tenantId == b.draft.tenantId && a.draft.runId == b.draft.runId
    ensures a.draft.eventType == b.draft.eventType && a.sequence == b.sequence
  {
  }

  /** The names of the details are those of the material that are not reserved. */
  lemma DetailNames(d: Draft, sequence: nat)
    requires ValidDraft(d)
    ensures KeySet(d.details)
         == set k | k in KeySet(Material(d, sequence).members) && !(k.Name? && k.name in RESERVED)
  {
    hide WellFormed;
    var ms := Material(d, sequence).members;
    forall k ensures k in KeySet(d.details) <==> k in KeySet(ms) && !(k.Name? && k.name in RESERVED) {
      if k in KeySet(d.details) {
        var m :| m in d.details && m.key == k;
        assert m in ms;
      }
      if k in KeySet(ms) && !(k.Name? && k.name in RESERVED) {
        var m :| m in ms && m.key == k;
        assert m in d.details;
      }
    }
  }

  // ---------------------------------------------------------------- the ledger

  class InMemoryEventLedger {
    const digest: Digest
    var runs: Runs

    ghost predicate Valid()
      reads this
    {
      Sound(digest, runs)
    }

    constructor (digest: Digest)
      ensures this.digest == digest && runs == map[] && Valid()
    {
      this.digest := digest;
      runs := map[];
    }

    method AppendEvent(d: Draft) returns (event: Option<ControlEvent>)
      requires Valid()
      modifies this`runs
      ensures Valid()
      ensures (runs, event) == Append(digest, old(runs), d)
      ensures event.Some?
              ==> EventsOf(runs, (d.tenantId, d.runId)) == EventsOf(old(runs), (d.tenantId, d.runId)) + [event.value]
    {
      hide Sound, Verified, Material;
      AppendKeepsSound(digest, runs, d);
      var key := (d.tenantId, d.runId);
      if exists other | other in runs :: other.1 == d.runId && other.0 != d.tenantId && runs[other] != [] {
        return None;
      }
      var events := EventsOf(runs, key);
      var sequence := |events| + 1;
      var previous := if events == [] then None else Some(events[|events| - 1].hash);
      var hash := digest(Material(d, sequence), previous);
      var e := ControlEvent(d, sequence, previous, hash);
      runs := runs[key := events + [e]];
      return Some(e);
    }

    /** `verify_run` on any list of events: true exactly when the chain holds. */
    method VerifyEvents(tenantId: string, events: seq<ControlEvent>) returns (ok: bool)
      ensures ok <==> Verified(digest, tenantId, events)
    {
      var previous: Option<string> := None;
      var expectedSequence := 1;
      for i := 0 to |events|
        invariant expectedSequence == i + 1 && previous == Tip(events[..i])
        invariant forall k | 0 <= k < i :: Linked(digest, tenantId, events, k)
      {
        var event := events[i];
        var intact :=
          && event.sequence == expectedSequence
          && event.draft.tenantId == tenantId
          && event.previous == previous
          && event.hash == digest(Material(event.draft, event.sequence), previous);
        if !intact {
          assert !Linked(digest, tenantId, events, i);
          return false;
        }
        assert Linked(digest, tenantId, events, i);
        assert events[..i + 1][i] == event;
        previous := Some(event.hash);
        expectedSequence := expectedSequence + 1;
      }
      return true;
    }
  }
}
