/** A bundle exported from a verified run is accepted, with matching counts and tip; and the final hash of
    an accepted bundle determines every event in it. */
module BundleProofs {
  import opened Common
  import opened PortableJson
  import opened PortableJsonProofs
  import opened Ledger
  import opened Bundles

  ghost predicate DistinctKeys(ms: seq<Member>) {
    forall i, j | 0 <= i < j < |ms| :: ms[i].key != ms[j].key
  }

  // ---------------------------------------------------------------- looking up members

  lemma {:induction false} FindIs(ms: seq<Member>, name: string)
    ensures Find(ms, name).Some? ==> Member(Name(name), Find(ms, name).value) in ms
    ensures Find(ms, name).None? <==> Name(name) !in KeySet(ms)
  {
    if ms != [] {
      FindIs(ms[1..], name);
      assert KeySet(ms) == {ms[0].key} + KeySet(ms[1..]);
    }
  }

  lemma FindMember(ms: seq<Member>, name: string, v: Value)
    requires DistinctKeys(ms) && Member(Name(name), v) in ms
    ensures Find(ms, name) == Some(v)
  {
    FindIs(ms, name);
    assert Member(Name(name), v).key in KeySet(ms);
    SameMember(ms, Member(Name(name), v), Member(Name(name), Find(ms, name).value));
  }

  /** The parser's reordering does not disturb lookups. */
  lemma GetCanon(v: Value, name: string)
    requires v.Obj? && WellFormed(v) && Named(v)
    ensures Canon(v).Obj?
    ensures Get(Canon(v), name) == if Get(v, name).Some? then Some(Canon(Get(v, name).value)) else None
  {
    var ms, canon := v.members, Canon(v).members;
    CanonIsEquivalent(v);
    FindIs(ms, name);
    FindIs(canon, name);
    if Find(ms, name).Some? {
      var m := Member(Name(name), Find(ms, name).value);
      MembersAreSmaller(v);
      var i := IndexOf(SortMembers(ms), m);
      assert canon[i] == Member(Name(name), Canon(m.value));
      FindMember(canon, name, Canon(m.value));
    }
  }

  lemma WithoutEquiv(a: Value, b: Value, name: string)
    requires WellFormed(a) && WellFormed(b) && Equiv(a, b)
    ensures Equiv(Without(a, name), Without(b, name)) && WellFormed(Without(b, name)) && WellFormed(Without(a, name))
  {
    if a.Obj? {
      var x, y := Remove(a.members, name), Remove(b.members, name);
      RemoveDistinct(a.members, name);
      RemoveDistinct(b.members, name);
      RemoveKeys(a.members, name);
      RemoveKeys(b.members, name);
      forall i, j | 0 <= i < |x| && 0 <= j < |y| && x[i].key == y[j].key ensures Equiv(x[i].value, y[j].value) {
        assert x[i] in a.members && y[j] in b.members;
        var m := IndexOf(a.members, x[i]);
        var n := IndexOf(b.members, y[j]);
      }
    }
  }

  lemma RemoveKeys(ms: seq<Member>, name: string)
    ensures KeySet(Remove(ms, name)) == KeySet(ms) - {Name(name)}
  {
  }

  lemma {:induction false} RemoveDistinct(ms: seq<Member>, name: string)
    requires DistinctKeys(ms) && forall i | 0 <= i < |ms| :: WellFormed(ms[i].value)
    ensures DistinctKeys(Remove(ms, name)) && forall i | 0 <= i < |Remove(ms, name)| ::
              WellFormed(Remove(ms, name)[i].value)
  {
    if ms != [] {
      RemoveDistinct(ms[1..], name);
      var rest := Remove(ms[1..], name);
      forall i | 0 <= i < |rest| ensures rest[i].key != ms[0].key {
        assert rest[i] in ms[1..];
      }
    }
  }

  lemma {:induction false} RemoveNothing(ms: seq<Member>, name: string)
    requires Name(name) !in KeySet(ms)
    ensures Remove(ms, name) == ms
  {
    if ms != [] {
      assert ms[0].key in KeySet(ms);
      assert KeySet(ms) == {ms[0].key} + KeySet(ms[1..]);
      RemoveNothing(ms[1..], name);
    }
  }

  lemma {:induction false} RemoveLast(ms: seq<Member>, name: string, v: Value)
    requires Name(name) !in KeySet(ms)
    ensures Remove(ms + [Member(Name(name), v)], name) == ms
  {
    var all := ms + [Member(Name(name), v)];
    if ms == [] {
      assert all[1..] == [];
    } else {
      assert ms[0].key in KeySet(ms) && all[0] == ms[0];
      assert KeySet(ms) == {ms[0].key} + KeySet(ms[1..]);
      assert all[1..] == ms[1..] + [Member(Name(name), v)];
      RemoveLast(ms[1..], name, v);
    }
  }

  // ---------------------------------------------------------------- one exported event

  function IntegrityValue(e: ControlEvent): Value {
    Obj([Field("previous_event_hash", if e.previous.Some? then Str(e.previous.value) else Null),
        Field("event_hash", Str(e.hash))])
  }

  /** The event as it is written to `events.jsonl`. */
  function EventValue(e: ControlEvent): Value {
    Obj(Material(e.draft, e.sequence).members + [Field("integrity", IntegrityValue(e))])
  }

  /** Drafts as the contracts admit them: JSON throughout, with the fields the verifier insists on. */
  ghost predicate Exportable(d: Draft) {
    && ValidDraft(d) && d.tenantId != "" && d.eventType != ""
    && forall i | 0 <= i < |d.details| :: Named(d.details[i].value)
  }

  /** The five fields every event has are five different names. */
  lemma NamesDiffer()
    ensures Name("tenant_id") != Name("run_id") && Name("tenant_id") != Name("event_type")
    ensures Name("tenant_id") != Name("sequence") && Name("tenant_id") != Name("integrity")
    ensures Name("run_id") != Name("event_type") && Name("run_id") != Name("sequence")
            && Name("run_id") != Name("integrity")
    ensures Name("event_type") != Name("sequence") && Name("event_type") != Name("integrity")
    ensures Name("sequence") != Name("integrity") && Name("previous_event_hash") != Name("event_hash")
  {
    assert "tenant_id"[0] == 't' && "run_id"[0] == 'r' && "event_type"[0] == 'e' && "sequence"[0] == 's';
    assert "integrity"[0] == 'i' && "previous_event_hash"[0] == 'p';
  }

  lemma MaterialShape(d: Draft, sequence: nat)
    requires Exportable(d)
    ensures WellFormed(Material(d, sequence)) && Named(Material(d, sequence))
    ensures Name("integrity") !in KeySet(Material(d, sequence).members)
  {
    NamesDiffer();
    MaterialWellFormed(d, sequence);
    var ms := Material(d, sequence).members;
    assert forall i | 4 <= i < |ms| :: ms[i] == d.details[i - 4];
    assert forall i | 0 <= i < |ms| :: ms[i].key != Name("integrity");
  }

  lemma AppendMember(ms: seq<Member>, m: Member)
    requires WellFormed(Obj(ms)) && Named(Obj(ms)) && m.key.Name? && WellFormed(m.value) && Named(m.value)
             && m.key !in KeySet(ms)
    ensures WellFormed(Obj(ms + [m])) && Named(Obj(ms + [m])) && DistinctKeys(ms + [m])
  {
    assert forall i | 0 <= i < |ms| :: ms[i].key in KeySet(ms);
  }

  lemma EventValueShape(e: ControlEvent)
    requires Exportable(e.draft)
    ensures WellFormed(EventValue(e)) && Named(EventValue(e)) && WellFormed(Material(e.draft, e.sequence))
    ensures DistinctKeys(EventValue(e).members)
    ensures Without(EventValue(e), "integrity") == Material(e.draft, e.sequence)
  {
    MaterialShape(e.draft, e.sequence);
    IntegrityShape(e);
    var ms := Material(e.draft, e.sequence).members;
    assert Material(e.draft, e.sequence) == Obj(ms);
    AppendMember(ms, Field("integrity", IntegrityValue(e)));
    RemoveLast(ms, "integrity", IntegrityValue(e));
  }

  lemma EventValueFields(e: ControlEvent)
    requires DistinctKeys(EventValue(e).members)
    ensures Get(EventValue(e), "tenant_id") == Some(Str(e.draft.tenantId))
    ensures Get(EventValue(e), "run_id") == Some(Str(e.draft.runId))
    ensures Get(EventValue(e), "event_type") == Some(Str(e.draft.eventType))
    ensures Get(EventValue(e), "sequence") == Some(Int(e.sequence))
    ensures Get(EventValue(e), "integrity") == Some(IntegrityValue(e))
  {
    hide Find, DistinctKeys, IntegrityValue;
    var all := EventValue(e).members;
    assert all[0] in all && all[1] in all && all[2] in all && all[3] in all && all[|all| - 1] in all;
    FindMember(all, "tenant_id", Str(e.draft.tenantId));
    FindMember(all, "run_id", Str(e.draft.runId));
    FindMember(all, "event_type", Str(e.draft.eventType));
    FindMember(all, "sequence", Int(e.sequence));
    FindMember(all, "integrity", IntegrityValue(e));
  }

  lemma IntegrityShape(e: ControlEvent)
    ensures WellFormed(IntegrityValue(e)) && Named(IntegrityValue(e))
    ensures Get(IntegrityValue(e), "previous_event_hash")
            == Some(if e.previous.Some? then Str(e.previous.value) else Null)
    ensures Get(IntegrityValue(e), "event_hash") == Some(Str(e.hash))
  {
    NamesDiffer();
    var ms := IntegrityValue(e).members;
    assert ms[0] in ms && ms[1] in ms;
    FindMember(ms, "previous_event_hash", ms[0].value);
    FindMember(ms, "event_hash", ms[1].value);
  }

  /** Digests are 64 lower-case hexadecimal digits. */
  ghost predicate HexDigests(digest: Digest) {
    forall v: Value, previous: Option<string> :: IsSha256(digest(v, previous))
  }

  /** A line of text, parsed. */
  function ReadLine(text: string): Line {
    var v := Parse(text);
    if v.Some? then Line(v.value) else Malformed
  }

  /** A value written as one line and read again. Where the value holds floats or integers past the portable
      range, the text is not modelled, and reading is taken to undo writing. */
  function ReadBack(v: Value): Line {
    var text := Encode(v);
    if text.Ok? then ReadLine(text.value) else Line(Canon(v))
  }

  lemma ReadBackIs(v: Value)
    ensures ReadBack(v) == Line(Canon(v))
  {
    hide Encode, Parse, Canon;
    if Encode(v).Ok? { RoundTrip(v); }
  }

  lemma CanonLineOk(digest: Digest, e: ControlEvent, index: nat)
    requires Respects(digest) && HexDigests(digest) && Exportable(e.draft) && e.sequence == index
    requires e.hash == digest(Material(e.draft, e.sequence), e.previous)
    ensures LineOk(digest, e.draft.runId, e.draft.tenantId, Line(Canon(EventValue(e))), index, e.previous)
    ensures HashOf(Line(Canon(EventValue(e)))) == e.hash && TypeOf(Line(Canon(EventValue(e)))) == e.draft.eventType
  {
    hide Canon, Equiv, DistinctKeys, EventValue, IntegrityValue, Material, WellFormed, Named, Exportable, Without;
    var v, integrity := EventValue(e), IntegrityValue(e);
    assert v.Obj? && integrity.Obj? by { Objects(e); }
    EventValueShape(e);
    EventValueFields(e);
    IntegrityShape(e);
    CanonIsEquivalent(v);
    GetCanon(v, "tenant_id");
    GetCanon(v, "run_id");
    GetCanon(v, "event_type");
    GetCanon(v, "sequence");
    GetCanon(v, "integrity");
    GetCanon(integrity, "previous_event_hash");
    GetCanon(integrity, "event_hash");
    CanonScalars();
    WithoutEquiv(v, Canon(v), "integrity");
    assert digest(Without(Canon(v), "integrity"), e.previous) == e.hash;
    assert IsNonEmpty(Some(Str(e.draft.eventType))) && e.draft.tenantId != "" by { NonEmptyFields(e.draft); }
  }

  /** An event, written as a line and read back, passes every check of its line. */
  lemma ExportedLineOk(digest: Digest, e: ControlEvent, index: nat)
    requires Respects(digest) && HexDigests(digest) && Exportable(e.draft) && e.sequence == index
    requires e.hash == digest(Material(e.draft, e.sequence), e.previous)
    ensures var line := ReadBack(EventValue(e));
            && LineOk(digest, e.draft.runId, e.draft.tenantId, line, index, e.previous)
            && HashOf(line) == e.hash && TypeOf(line) == e.draft.eventType
  {
    hide LineOk, HashOf, TypeOf, Canon, EventValue, Material, Exportable, Respects, HexDigests, ReadBack;
    CanonLineOk(digest, e, index);
    ReadBackIs(EventValue(e));
  }

  lemma Objects(e: ControlEvent)
    ensures EventValue(e).Obj? && IntegrityValue(e).Obj?
  {
  }

  lemma NonEmptyFields(d: Draft)
    requires Exportable(d)
    ensures d.tenantId != "" && d.eventType != ""
  {
  }

  lemma CanonScalars()
    ensures forall s :: Canon(Str(s)) == Str(s)
    ensures forall n :: Canon(Int(n)) == Int(n)
    ensures Canon(Null) == Null
  {
  }

  // ---------------------------------------------------------------- counting event types

  /** `Counter[t] += 1` on a JSON object of counts. */
  function Bump(ms: seq<Member>, t: string): seq<Member> {
    if ms == [] then [Field(t, Int(1))]
    else if ms[0].key == Name(t) then
      [Field(t, Int((if ms[0].value.Int? then ms[0].value.number else 0) + 1))] + ms[1..]
    else [ms[0]] + Bump(ms[1..], t)
  }

  function CountMembers(types: seq<string>): seq<Member> {
    if types == [] then [] else Bump(CountMembers(types[..|types| - 1]), types[|types| - 1])
  }

  ghost predicate IsCounter(ms: seq<Member>) {
    && DistinctKeys(ms)
    && forall i | 0 <= i < |ms| :: ms[i].key.Name? && ms[i].value.Int? && ms[i].value.number >= 0
  }

  lemma {:induction false} BumpFinds(ms: seq<Member>, t: string, x: string)
    requires IsCounter(ms)
    ensures Find(Bump(ms, t), x) ==
              if x != t then Find(ms, x)
              else Some(Int((if Find(ms, t).Some? && Find(ms, t).value.Int? then Find(ms, t).value.number else 0) + 1))
  {
    if ms != [] && ms[0].key != Name(t) { BumpFinds(ms[1..], t, x); }
  }

  lemma {:induction false} BumpCounts(ms: seq<Member>, t: string)
    requires IsCounter(ms)
    ensures IsCounter(Bump(ms, t)) && SumOf(Bump(ms, t)) == SumOf(ms) + 1
    ensures KeySet(Bump(ms, t)) == KeySet(ms) + {Name(t)}
  {
    var bumped := Bump(ms, t);
    if ms == [] {
      assert bumped[1..] == [];
    } else {
      assert KeySet(ms) == {ms[0].key} + KeySet(ms[1..]) && ms[0].key !in KeySet(ms[1..]);
      assert KeySet(bumped) == {bumped[0].key} + KeySet(bumped[1..]);
      if ms[0].key == Name(t) {
        assert bumped[1..] == ms[1..];
      } else {
        BumpCounts(ms[1..], t);
        assert bumped[1..] == Bump(ms[1..], t);
        PrependCounter(ms[0], bumped[1..]);
        assert bumped == [ms[0]] + bumped[1..];
      }
    }
  }

  lemma PrependCounter(m: Member, rest: seq<Member>)
    requires IsCounter(rest) && m.key !in KeySet(rest) && m.key.Name? && m.value.Int? && m.value.number >= 0
    ensures IsCounter([m] + rest)
  {
    assert forall j | 0 <= j < |rest| :: rest[j].key in KeySet(rest);
  }

  lemma EmptyCounter()
    ensures IsCounter([]) && SumOf([]) == 0 && KeySet([]) == {}
  {
  }

  /** The exported counts are the counts the verifier recomputes, and they add up to the number of events. */
  lemma {:induction false} CountMembersMatch(types: seq<string>)
    ensures IsCounter(CountMembers(types)) && SumOf(CountMembers(types)) == |types|
    ensures forall t :: t in CountTypes(types) <==> Name(t) in KeySet(CountMembers(types))
    ensures forall t | t in CountTypes(types) :: Find(CountMembers(types), t) == Some(Int(CountTypes(types)[t]))
  {
    hide Bump, IsCounter, Find, SumOf, KeySet;
    EmptyCounter();
    if types != [] {
      var last, rest := types[|types| - 1], types[..|types| - 1];
      CountMembersMatch(rest);
      BumpCounts(CountMembers(rest), last);
      FindIs(CountMembers(rest), last);
      forall t | t in CountTypes(types) ensures Find(CountMembers(types), t) == Some(Int(CountTypes(types)[t])) {
        BumpFinds(CountMembers(rest), last, t);
      }
    }
  }

  lemma {:induction false} SumInsert(m: Member, ms: seq<Member>)
    ensures SumOf(Insert(m, ms)) == SumOf([m]) + SumOf(ms)
  {
    if ms == [] || Before(m, ms[0]) { assert ([m] + ms)[1..] == ms; }
    else {
      SumInsert(m, ms[1..]);
      assert Insert(m, ms)[1..] == Insert(m, ms[1..]);
    }
  }

  lemma {:induction false} SumSort(ms: seq<Member>)
    ensures SumOf(SortMembers(ms)) == SumOf(ms)
  {
    if ms != [] {
      SumSort(ms[1..]);
      SumInsert(ms[0], SortMembers(ms[1..]));
    }
  }

  /** Reading the counts back leaves them a counter with the same entries and the same sum. */
  lemma CanonCounter(ms: seq<Member>)
    requires IsCounter(ms)
    ensures Canon(Obj(ms)) == Obj(SortMembers(ms))
    ensures IsCounter(SortMembers(ms)) && SumOf(SortMembers(ms)) == SumOf(ms) && KeySet(SortMembers(ms)) == KeySet(ms)
    ensures forall t :: Find(SortMembers(ms), t) == Find(ms, t)
  {
    var sorted := SortMembers(ms);
    SortAscending(ms);
    SumSort(ms);
    forall i | 0 <= i < |sorted| ensures sorted[i].key.Name? && sorted[i].value.Int? && sorted[i].value.number >= 0 {
      var k := IndexOf(ms, sorted[i]);
    }
    forall i, j | 0 <= i < j < |sorted| ensures sorted[i].key != sorted[j].key {
      if sorted[i].key == sorted[j].key { AscendingIsDistinct(sorted, i, j); }
    }
    MembersAreSmaller(Obj(ms));
    assert CanonMembers(Obj(ms), sorted) == sorted;
    assert KeySet(sorted) == KeySet(ms);
    forall t ensures Find(sorted, t) == Find(ms, t) {
      FindIs(ms, t);
      if Find(ms, t).Some? { FindMember(sorted, t, Find(ms, t).value); } else { FindIs(sorted, t); }
    }
  }

  // ---------------------------------------------------------------- exporting a run

  function TypesOfEvents(events: seq<ControlEvent>): (types: seq<string>)
    ensures |types| == |events| && forall i | 0 <= i < |events| :: types[i] == events[i].draft.eventType
  {
    seq(|events|, i requires 0 <= i < |events| => events[i].draft.eventType)
  }

  function FileMembers(eventsSha256: string, lineage: Option<LineageMember>): seq<Member> {
    [Field("events.jsonl", Str(eventsSha256))]
    + if lineage.Some? then [Field("lineage.json", Str(lineage.value.sha256))] else []
  }

  function GraphSize(lineage: Option<LineageMember>): (nat, nat) {
    if lineage.Some? && lineage.value.graph.Some? then
      (lineage.value.graph.value.nodes, lineage.value.graph.value.relations)
    else (0, 0)
  }

  function ExportManifest(events: seq<ControlEvent>, runId: string, tenantId: string, eventsSha256: string,
                          lineage: Option<LineageMember>): Manifest
  {
    var tip := if events == [] then "" else events[|events| - 1].hash;
    Manifest(
      Some(Str(SCHEMA_NAME)), Some(Str(SCHEMA_VERSION)), Some(Str(runId)), Some(Str(tenantId)), Some(Int(|events|)),
      Some(Str(eventsSha256)), Some(Str(tip)), Some(Canon(Obj(CountMembers(TypesOfEvents(events))))),
      Some(Int(GraphSize(lineage).0)), Some(Int(GraphSize(lineage).1)),
          Some(Canon(Obj(FileMembers(eventsSha256, lineage)))))
  }

  /** The lines of `events.jsonl`, written and read back. */
  function ExportLines(events: seq<ControlEvent>): (lines: seq<Line>)
    ensures |lines| == |events| && forall i | 0 <= i < |events| :: lines[i] == ReadBack(EventValue(events[i]))
  {
    seq(|events|, i requires 0 <= i < |events| => ReadBack(EventValue(events[i])))
  }

  function Export(events: seq<ControlEvent>, runId: string, tenantId: string, eventsSha256: string,
                  lineage: Option<LineageMember>): Archive
  {
    Archive(Some(ExportManifest(events, runId, tenantId, eventsSha256, lineage)), eventsSha256, ExportLines(events),
        lineage)
  }

  /** The lineage graph belongs to the exported run. */
  predicate LineageFits(lineage: Option<LineageMember>, runId: string, tenantId: string) {
    lineage.Some? ==>
      && lineage.value.graph.Some? && IsSha256(lineage.value.sha256)
      && lineage.value.graph.value.runId == runId && lineage.value.graph.value.tenantId == tenantId
  }

  lemma FilesShape(eventsSha256: string, lineage: Option<LineageMember>)
    ensures var ms := FileMembers(eventsSha256, lineage);
            && WellFormed(Obj(ms)) && Named(Obj(ms)) && DistinctKeys(ms)
            && KeySet(ms) == {Name("events.jsonl")} + (if lineage.Some? then {Name("lineage.json")} else {})
  {
    assert "events.jsonl"[0] == 'e' && "lineage.json"[0] == 'l';
    var first := Field("events.jsonl", Str(eventsSha256));
    assert WellFormed(Obj([first])) && Named(Obj([first]));
    assert [first][0] in [first] && KeySet([first]) == {first.key};
    if lineage.Some? {
      var second := Field("lineage.json", Str(lineage.value.sha256));
      AppendMember([first], second);
      assert FileMembers(eventsSha256, lineage) == [first] + [second];
      var both := [first] + [second];
      assert both[0] in both && both[1] in both && KeySet(both) == {first.key, second.key};
    } else {
      assert FileMembers(eventsSha256, lineage) == [first];
    }
  }

  lemma FilesAreListed(eventsSha256: string, lineage: Option<LineageMember>)
    ensures var files := Canon(Obj(FileMembers(eventsSha256, lineage)));
            && files.Obj? && FilesMatch(Some(files), lineage.Some?)
            && Get(files, "events.jsonl") == Some(Str(eventsSha256))
            && (lineage.Some? ==> Get(files, "lineage.json") == Some(Str(lineage.value.sha256)))
  {
    hide Canon, Find, DistinctKeys, KeySet, WellFormed, Named;
    var ms := FileMembers(eventsSha256, lineage);
    FilesShape(eventsSha256, lineage);
    CanonIsEquivalent(Obj(ms));
    GetCanon(Obj(ms), "events.jsonl");
    GetCanon(Obj(ms), "lineage.json");
    assert ms[0] in ms;
    FindMember(ms, "events.jsonl", Str(eventsSha256));
    if lineage.Some? {
      assert ms[1] in ms;
      FindMember(ms, "lineage.json", Str(lineage.value.sha256));
    }
    CanonScalars();
  }

  lemma ExportedLinesOk(digest: Digest, events: seq<ControlEvent>, runId: string, tenantId: string)
    requires Respects(digest) && HexDigests(digest) && Verified(digest, tenantId, events)
    requires forall i | 0 <= i < |events| :: Exportable(events[i].draft) && events[i].draft.runId == runId
    ensures LinesOk(digest, runId, tenantId, ExportLines(events), |events|)
    ensures LineTip(ExportLines(events)) == Tip(events)
    ensures TypesOf(ExportLines(events)) == TypesOfEvents(events)
  {
    hide LineOk, HashOf, TypeOf, Canon, EventValue, Material, Exportable, Respects, HexDigests, ReadBack;
    var lines := ExportLines(events);
    forall i | 0 <= i < |events|
      ensures LineOk(digest, runId, tenantId, lines[i], i + 1, events[i].previous)
      ensures HashOf(lines[i]) == events[i].hash && TypeOf(lines[i]) == events[i].draft.eventType
    {
      assert Linked(digest, tenantId, events, i);
      ExportedLineOk(digest, events[i], i + 1);
    }
    forall i | 0 <= i < |events| ensures LineTip(lines[..i]) == events[i].previous {
      assert Linked(digest, tenantId, events, i);
    }
  }

  /** The bundle built from a verified run is accepted, for the run's tenant, with the run's own count,
      counts by type and tip. */
  lemma ExportIsAccepted(digest: Digest, events: seq<ControlEvent>, runId: string, tenantId: string,
                         eventsSha256: string, lineage: Option<LineageMember>)
    requires Respects(digest) && HexDigests(digest) && Verified(digest, tenantId, events) && events != []
    requires forall i | 0 <= i < |events| :: Exportable(events[i].draft) && events[i].draft.runId == runId
    requires IsCanonicalUuid(runId) && !IsBlank(tenantId) && IsSha256(eventsSha256)
             && LineageFits(lineage, runId, tenantId)
    ensures Accepted(digest, Export(events, runId, tenantId, eventsSha256, lineage), tenantId)
  {
    hide LineOk, LinesOk, Canon, EventValue, Material, Exportable, Respects, HexDigests, CountMembers, CountTypes,
         FilesMatch,
      Get, Find, IsSha256, IsCanonicalUuid, IsBlank, Verified, SortMembers, KeySet;
    var m := ExportManifest(events, runId, tenantId, eventsSha256, lineage);
    var types := TypesOfEvents(events);
    ExportedLinesOk(digest, events, runId, tenantId);
    FilesAreListed(eventsSha256, lineage);
    CountMembersMatch(types);
    CanonCounter(CountMembers(types));
    ExportedCounts(types);
    assert IsSha256(events[|events| - 1].hash) by { TipIsHex(digest, tenantId, events); }
    assert ManifestOk(m, eventsSha256, lineage.Some?);
    assert EventsOk(digest, m, runId, ExportLines(events), tenantId);
  }

  lemma TipIsHex(digest: Digest, tenantId: string, events: seq<ControlEvent>)
    requires HexDigests(digest) && Verified(digest, tenantId, events) && events != []
    ensures IsSha256(events[|events| - 1].hash)
  {
    assert Linked(digest, tenantId, events, |events| - 1);
  }

  lemma ExportedCounts(types: seq<string>)
    ensures CountsMatch(CountTypes(types), Some(Obj(SortMembers(CountMembers(types)))))
  {
    hide CountMembers, CountTypes, SortMembers, Find, KeySet;
    var ms, counts := CountMembers(types), CountTypes(types);
    var sorted := SortMembers(ms);
    CountMembersMatch(types);
    CanonCounter(ms);
    forall t | t in counts ensures Find(sorted, t) == Some(Int(counts[t])) {
      assert Find(sorted, t) == Find(ms, t);
    }
    forall i | 0 <= i < |sorted| ensures sorted[i].key.Name? && sorted[i].key.name in counts {
      KeyOf(sorted, i);
      assert Name(sorted[i].key.name) in KeySet(ms);
    }
  }

  lemma KeyOf(ms: seq<Member>, i: nat)
    requires i < |ms|
    ensures ms[i].key in KeySet(ms)
  {
    assert ms[i] in ms;
  }

  // ---------------------------------------------------------------- the tip of a bundle

  function LineLink(lines: seq<Line>, i: nat): Link
    requires i < |lines|
  {
    Link(if lines[i].Line? then Without(lines[i].value, "integrity") else Null, LineTip(lines[..i]), HashOf(lines[i]))
  }

  function LineLinks(lines: seq<Line>): (links: seq<Link>)
    ensures |links| == |lines| && forall i | 0 <= i < |lines| :: links[i] == LineLink(lines, i)
  {
    seq(|lines|, i requires 0 <= i < |lines| => LineLink(lines, i))
  }

  lemma AcceptedIsChained(digest: Digest, a: Archive, tenant: string)
    requires Accepted(digest, a, tenant)
    ensures a.lines != [] && a.manifest.value.finalEventHash == Some(Str(LineTip(a.lines).value))
    ensures Chained(digest, LineLinks(a.lines)) && LinkTip(LineLinks(a.lines)) == LineTip(a.lines)
  {
    hide ManifestOk, LineageOk, CountsMatch, LineOk, LineTip, HashOf, Get, Without, Find;
    var links := LineLinks(a.lines);
    forall i | 0 <= i < |links| ensures Joined(digest, links, i) {
      LineIsHashed(digest, RunIdOf(a.manifest.value), tenant, a.lines[i], i + 1, LineTip(a.lines[..i]));
      SameTip(a.lines, links, i);
    }
    SameTip(a.lines, links, |links|);
    assert a.lines[..|links|] == a.lines && links[..|links|] == links;
  }

  /** An accepted line carries the hash of its event and of the hash before. */
  lemma LineIsHashed(digest: Digest, runId: string, tenant: string, line: Line, index: int, previous: Option<string>)
    requires LineOk(digest, runId, tenant, line, index, previous)
    ensures line.Line? && HashOf(line) == digest(Without(line.value, "integrity"), previous)
  {
    hide Get, Without, IsIndex, IsNonEmpty, IsPrevious, IsSha256Value;
  }

  lemma SameTip(lines: seq<Line>, links: seq<Link>, n: nat)
    requires links == LineLinks(lines) && n <= |lines|
    ensures LinkTip(links[..n]) == LineTip(lines[..n])
  {
    hide HashOf, Without;
    if n > 0 {
      assert links[..n][n - 1] == LineLink(lines, n - 1) && lines[..n][n - 1] == lines[n - 1];
    }
  }

  /** Two accepted bundles with the same final event hash hold the same events, whatever else they say. */
  lemma BundlesWithOneTip(digest: Digest, a: Archive, tenantA: string, b: Archive, tenantB: string)
    requires Accepted(digest, a, tenantA) && Accepted(digest, b, tenantB)
    requires a.manifest.value.finalEventHash == b.manifest.value.finalEventHash
    requires NoCollision(LineLinks(a.lines), LineLinks(b.lines))
    ensures SameHistory(LineLinks(a.lines), LineLinks(b.lines))
  {
    hide Accepted, NoCollision, SameHistory, Chained;
    AcceptedIsChained(digest, a, tenantA);
    AcceptedIsChained(digest, b, tenantB);
    TipPinsHistory(digest, LineLinks(a.lines), LineLinks(b.lines));
  }

  /** An accepted bundle that ends on a run's tip holds that run's events, no more and no fewer. */
  lemma BundleMatchesRun(digest: Digest, a: Archive, tenant: string, events: seq<ControlEvent>, tenantId: string)
    requires Accepted(digest, a, tenant) && Verified(digest, tenantId, events) && events != []
    requires a.manifest.value.finalEventHash == Some(Str(Tip(events).value))
    requires NoCollision(LineLinks(a.lines), LinksOf(events))
    ensures SameHistory(LineLinks(a.lines), LinksOf(events)) && |a.lines| == |events|
  {
    hide Verified, NoCollision, Chained;
    AcceptedIsChained(digest, a, tenant);
    VerifiedIsChained(digest, tenantId, events);
    TipPinsHistory(digest, LineLinks(a.lines), LinksOf(events));
  }

  // ---------------------------------------------------------------- the builder

  /** `EvidenceBundleBuilder.build`: a run that was appended event by event always yields an archive, unless
      it is empty or the lineage graph is another run's; the archive is accepted. */
  method Build(ledger: InMemoryEventLedger, runId: string, tenantId: string, eventsSha256: string,
               lineage: Option<LineageMember>) returns (archive: Option<Archive>)
    requires ledger.Valid() && Respects(ledger.digest) && HexDigests(ledger.digest)
    requires forall i | 0 <= i < |EventsOf(ledger.runs, (tenantId, runId))| ::
               Exportable(EventsOf(ledger.runs, (tenantId, runId))[i].draft)
    requires IsCanonicalUuid(runId) && !IsBlank(tenantId) && IsSha256(eventsSha256)
    requires lineage.Some? ==> lineage.value.graph.Some? && IsSha256(lineage.value.sha256)
    ensures archive.Some? <==> EventsOf(ledger.runs, (tenantId, runId)) != [] && LineageFits(lineage, runId, tenantId)
    ensures archive.Some? ==> Accepted(ledger.digest, archive.value, tenantId)
    ensures archive.Some? ==> archive.value.manifest.value.finalEventHash
                              == Some(Str(Tip(EventsOf(ledger.runs, (tenantId, runId))).value))
  {
    hide Accepted, Exportable, Respects, HexDigests, Verified, IsCanonicalUuid, IsBlank, IsSha256;
    var events := EventsOf(ledger.runs, (tenantId, runId));
    assert Verified(ledger.digest, tenantId, events) by { EmptyIsVerified(ledger.digest, tenantId); }
    var intact := ledger.VerifyEvents(tenantId, events);
    if !intact || events == [] || exists i | 0 <= i < |events| :: events[i].draft.tenantId != tenantId {
      assert events == [] by { OwnEvents(ledger.digest, tenantId, events); }
      return None;
    }
    if !LineageFits(lineage, runId, tenantId) {
      return None;
    }
    ExportIsAccepted(ledger.digest, events, runId, tenantId, eventsSha256, lineage);
    return Some(Export(events, runId, tenantId, eventsSha256, lineage));
  }

  lemma OwnEvents(digest: Digest, tenantId: string, events: seq<ControlEvent>)
    requires Verified(digest, tenantId, events)
    ensures forall i | 0 <= i < |events| :: events[i].draft.tenantId == tenantId
  {
    forall i | 0 <= i < |events| ensures events[i].draft.tenantId == tenantId {
      assert Linked(digest, tenantId, events, i);
    }
  }
}
