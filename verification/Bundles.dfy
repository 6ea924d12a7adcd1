/** Evidence bundles: the archive a verified run is exported to, and the checks that accept an archive. */
module Bundles {
  import opened Common
  import opened PortableJson
  import opened PortableJsonProofs
  import opened Ledger

  // ---------------------------------------------------------------- JSON objects as dictionaries

  function Find(ms: seq<Member>, name: string): Option<Value> {
    if ms == [] then None else if ms[0].key == Name(name) then Some(ms[0].value) else Find(ms[1..], name)
  }

  /** `value.get(name)`; `None` also when the value is no object. */
  function Get(v: Value, name: string): Option<Value> {
    if v.Obj? then Find(v.members, name) else None
  }

  function Remove(ms: seq<Member>, name: string): (r: seq<Member>)
    ensures forall m :: m in r <==> m in ms && m.key != Name(name)
  {
    if ms == [] then [] else (if ms[0].key == Name(name) then [] else [ms[0]]) + Remove(ms[1..], name)
  }

  /** `value.pop(name)`. */
  function Without(v: Value, name: string): Value {
    if v.Obj? then Obj(Remove(v.members, name)) else v
  }

  // ---------------------------------------------------------------- archives

  /** A line of `events.jsonl`, parsed. */
  datatype Line = Malformed | Line(value: Value)

  datatype Graph = Graph(runId: string, tenantId: string, nodes: nat, relations: nat)

  /** `lineage.json`: the SHA-256 of its bytes, and the graph they parse to, if they do. */
  datatype LineageMember = LineageMember(sha256: string, graph: Option<Graph>)

  /** A manifest: what `manifest.get` gives for each name the verifier reads. */
  datatype Manifest = Manifest(
    schemaName: Option<Value>, schemaVersion: Option<Value>, runId: Option<Value>, tenantId: Option<Value>,
    eventCount: Option<Value>, eventsSha256: Option<Value>, finalEventHash: Option<Value>, countsByType: Option<Value>,
    lineageNodeCount: Option<Value>, lineageRelationCount: Option<Value>, files: Option<Value>)

  /** A readable archive: the manifest, if it is a JSON object, the SHA-256 of `events.jsonl`, its lines,
      and the lineage member. */
  datatype Archive = Archive(
    manifest: Option<Manifest>, eventsSha256: string, lines: seq<Line>, lineage: Option<LineageMember>)

  const SCHEMA_NAME := "prodkit.evidence-bundle-manifest"
  const SCHEMA_VERSION := "1.1.0"
  const LEGACY_SCHEMA_VERSION := "1.0.0"

  predicate IsLowerHex(c: char) { '0' <= c <= '9' || 'a' <= c <= 'f' }

  predicate IsSha256(s: string) {
    |s| == 64 && forall i | 0 <= i < |s| :: IsLowerHex(s[i])
  }

  predicate IsDash(i: int) { i == 8 || i == 13 || i == 18 || i == 23 }

  /** The canonical form `str(UUID(...))` gives. */
  predicate IsCanonicalUuid(s: string) {
    |s| == 36 && forall i | 0 <= i < |s| :: if IsDash(i) then s[i] == '-' else IsLowerHex(s[i])
  }

  predicate IsSha256Value(v: Option<Value>) {
    v.Some? && v.value.Str? && IsSha256(v.value.text)
  }

  /** `_manifest_count`. */
  predicate IsCount(v: Option<Value>, minimum: int) {
    v.Some? && v.value.Int? && v.value.number >= minimum
  }

  /** `set(files)` is exactly the archive's other members. */
  predicate FilesMatch(files: Option<Value>, hasLineage: bool) {
    && files.Some? && files.value.Obj?
    && KeySet(files.value.members)
       == {Name("events.jsonl")} + if hasLineage then {Name("lineage.json")} else {}
  }

  predicate AreCounts(v: Option<Value>) {
    && v.Some? && v.value.Obj?
    && forall i | 0 <= i < |v.value.members| ::
         v.value.members[i].key.Name? && v.value.members[i].value.Int? && v.value.members[i].value.number >= 0
  }

  function SumOf(ms: seq<Member>): int {
    if ms == [] then 0 else (if ms[0].value.Int? then ms[0].value.number else 0) + SumOf(ms[1..])
  }

  predicate ValidTenant(tenant: Option<Value>, version: Value) {
    if version == Str(SCHEMA_VERSION) then tenant.Some? && tenant.value.Str? && !IsBlank(tenant.value.text)
    else tenant.None? || tenant.value.Null? || (tenant.value.Str? && !IsBlank(tenant.value.text))
  }

  /** `_validate_manifest`. */
  predicate ManifestOk(m: Manifest, eventsSha256: string, hasLineage: bool) {
    && m.schemaName == Some(Str(SCHEMA_NAME))
    && m.schemaVersion in {Some(Str(LEGACY_SCHEMA_VERSION)), Some(Str(SCHEMA_VERSION))}
    && m.runId.Some? && m.runId.value.Str? && IsCanonicalUuid(m.runId.value.text)
    && ValidTenant(m.tenantId, m.schemaVersion.value)
    && IsCount(m.eventCount, 1) && IsCount(m.lineageNodeCount, 0) && IsCount(m.lineageRelationCount, 0)
    && FilesMatch(m.files, hasLineage)
    && IsSha256Value(Get(m.files.value, "events.jsonl"))
    && Get(m.files.value, "events.jsonl") == Some(Str(eventsSha256)) == m.eventsSha256
    && IsSha256Value(m.finalEventHash)
    && AreCounts(m.countsByType) && SumOf(m.countsByType.value.members) == m.eventCount.value.number
  }

  // ---------------------------------------------------------------- the event stream

  /** What the verifier chains: the event without its integrity record, and the hashes in that record. */
  function HashOf(line: Line): string {
    if line.Malformed? then ""
    else
      var integrity := Get(line.value, "integrity");
      var hash := if integrity.Some? then Get(integrity.value, "event_hash") else None;
      if hash.Some? && hash.value.Str? then hash.value.text else ""
  }

  function LineTip(lines: seq<Line>): Option<string> {
    if lines == [] then None else Some(HashOf(lines[|lines| - 1]))
  }

  /** `integrity.get("previous_event_hash") != previous`, negated: absent and null are both `None`. */
  predicate IsPrevious(v: Option<Value>, previous: Option<string>) {
    if previous.None? then v.None? || v.value.Null? else v == Some(Str(previous.value))
  }

  /** Python's `event.get("sequence") == index`, where `1.0` and `True` equal 1. */
  predicate IsIndex(v: Option<Value>, index: int) {
    v == Some(Int(index)) || v == Some(Float(index as real)) || (index == 1 && v == Some(Bool(true)))
  }

  predicate IsNonEmpty(v: Option<Value>) {
    v.Some? && v.value.Str? && v.value.text != ""
  }

  predicate IntegrityOk(digest: Digest, v: Value, previous: Option<string>) {
    var integrity := Get(v, "integrity");
    && integrity.Some? && integrity.value.Obj?
    && IsPrevious(Get(integrity.value, "previous_event_hash"), previous)
    && IsSha256Value(Get(integrity.value, "event_hash"))
    && Get(integrity.value, "event_hash") == Some(Str(digest(Without(v, "integrity"), previous)))
  }

  predicate LineOk(digest: Digest, runId: string, tenant: string, line: Line, index: int, previous: Option<string>) {
    && line.Line? && line.value.Obj?
    && IsIndex(Get(line.value, "sequence"), index)
    && Get(line.value, "run_id") == Some(Str(runId))
    && Get(line.value, "tenant_id") == Some(Str(tenant)) && tenant != ""
    && IsNonEmpty(Get(line.value, "event_type"))
    && IntegrityOk(digest, line.value, previous)
  }

  function TypeOf(line: Line): string {
    if line.Malformed? then ""
    else
      var t := Get(line.value, "event_type");
      if t.Some? && t.value.Str? then t.value.text else ""
  }

  type Counter = map<string, nat>

  function CountOne(counts: Counter, t: string): Counter {
    counts[t := (if t in counts then counts[t] else 0) + 1]
  }

  function CountTypes(types: seq<string>): Counter {
    if types == [] then map[] else CountOne(CountTypes(types[..|types| - 1]), types[|types| - 1])
  }

  function TypesOf(lines: seq<Line>): (types: seq<string>)
    ensures |types| == |lines| && forall i | 0 <= i < |lines| :: types[i] == TypeOf(lines[i])
  {
    seq(|lines|, i requires 0 <= i < |lines| => TypeOf(lines[i]))
  }

  /** `dict(counts) == manifest["counts_by_type"]`. */
  predicate CountsMatch(counts: Counter, v: Option<Value>) {
    && v.Some? && v.value.Obj?
    && (forall t | t in counts :: Find(v.value.members, t) == Some(Int(counts[t])))
    && (forall i | 0 <= i < |v.value.members| :: v.value.members[i].key.Name? && v.value.members[i].key.name in counts)
  }

  /** The first `n` lines are in order, each checked against the hash of the one before. */
  ghost predicate LinesOk(digest: Digest, runId: string, tenant: string, lines: seq<Line>, n: nat)
    requires n <= |lines|
  {
    forall i | 0 <= i < n :: LineOk(digest, runId, tenant, lines[i], i + 1, LineTip(lines[..i]))
  }

  /** What `_validate_events` accepts, with the tenant it returns. */
  ghost predicate EventsOk(digest: Digest, manifest: Manifest, runId: string, lines: seq<Line>, tenant: string) {
    && lines != [] && manifest.eventCount == Some(Int(|lines|))
    && LinesOk(digest, runId, tenant, lines, |lines|)
    && manifest.finalEventHash == Some(Str(LineTip(lines).value))
    && CountsMatch(CountTypes(TypesOf(lines)), manifest.countsByType)
  }

  /** The tenant the first event names. */
  function FirstTenant(line: Line): Option<string> {
    if line.Line? && IsNonEmpty(Get(line.value, "tenant_id")) then
      Some(Get(line.value, "tenant_id").value.text) else None
  }

  /** `_validate_events`. */
  method ValidateEvents(digest: Digest, manifest: Manifest, runId: string, lines: seq<Line>)
    returns (tenant: Option<string>)
    ensures tenant.Some? ==> EventsOk(digest, manifest, runId, lines, tenant.value)
    ensures tenant.None? ==> forall t :: !EventsOk(digest, manifest, runId, lines, t)
  {
    hide LineOk, LinesOk, CountTypes, CountOne, FirstTenant, LineTip, CountsMatch, HashOf, TypeOf;
    if lines == [] || manifest.eventCount != Some(Int(|lines|)) {
      return None;
    }
    Starts(lines);
    var previous: Option<string> := None;
    var counts: Counter := map[];
    tenant := None;
    for i := 0 to |lines|
      invariant previous == LineTip(lines[..i])
      invariant counts == CountTypes(TypesOf(lines)[..i])
      invariant tenant == if i == 0 then None else FirstTenant(lines[0])
      invariant i > 0 ==> previous.Some? && tenant.Some? && LinesOk(digest, runId, tenant.value, lines, i)
    {
      var line := lines[i];
      if tenant.None? {
        tenant := FirstTenant(line);
      }
      if tenant.None? || !LineOk(digest, runId, tenant.value, line, i + 1, previous) {
        RejectLine(digest, manifest, runId, lines, i);
        return None;
      }
      AcceptLine(digest, runId, tenant.value, lines, i);
      counts := CountOne(counts, TypeOf(line));
      previous := Some(HashOf(line));
    }
    assert lines[..|lines|] == lines && TypesOf(lines)[..|lines|] == TypesOf(lines);
    if manifest.finalEventHash != Some(Str(previous.value)) || !CountsMatch(counts, manifest.countsByType) {
      return None;
    }
  }

  lemma Starts(lines: seq<Line>)
    ensures LineTip(lines[..0]) == None && CountTypes(TypesOf(lines)[..0]) == map[]
  {
  }

  lemma AcceptLine(digest: Digest, runId: string, tenant: string, lines: seq<Line>, i: nat)
    requires i < |lines| && (i > 0 ==> LinesOk(digest, runId, tenant, lines, i))
    requires LineOk(digest, runId, tenant, lines[i], i + 1, LineTip(lines[..i]))
    ensures LinesOk(digest, runId, tenant, lines, i + 1)
    ensures LineTip(lines[..i + 1]) == Some(HashOf(lines[i]))
    ensures CountTypes(TypesOf(lines)[..i + 1]) == CountOne(CountTypes(TypesOf(lines)[..i]), TypeOf(lines[i]))
  {
    hide LineOk, HashOf, TypeOf, CountOne;
    assert lines[..i + 1][i] == lines[i] && TypesOf(lines)[..i + 1][i] == TypeOf(lines[i]);
    assert TypesOf(lines)[..i + 1][..i] == TypesOf(lines)[..i];
  }

  /** A line that fails for the tenant of the first event fails for every tenant. */
  lemma RejectLine(digest: Digest, manifest: Manifest, runId: string, lines: seq<Line>, i: nat)
    requires i < |lines|
    requires FirstTenant(lines[0]).Some? ==>
               !LineOk(digest, runId, FirstTenant(lines[0]).value, lines[i], i + 1, LineTip(lines[..i]))
    ensures forall t :: !EventsOk(digest, manifest, runId, lines, t)
  {
    hide CountsMatch, CountTypes;
    assert lines[..0] == [];
  }

  // ---------------------------------------------------------------- the whole archive

  /** `_validate_lineage`. */
  predicate LineageOk(m: Manifest, lineage: Option<LineageMember>, runId: string, tenant: string) {
    match lineage
    case None => m.lineageNodeCount == Some(Int(0)) && m.lineageRelationCount == Some(Int(0))
    case Some(member) =>
      && m.files.Some? && IsSha256Value(Get(m.files.value, "lineage.json"))
      && Get(m.files.value, "lineage.json") == Some(Str(member.sha256))
      && member.graph.Some? && member.graph.value.runId == runId && member.graph.value.tenantId == tenant
      && m.lineageNodeCount == Some(Int(member.graph.value.nodes))
      && m.lineageRelationCount == Some(Int(member.graph.value.relations))
  }

  function RunIdOf(m: Manifest): string {
    if m.runId.Some? && m.runId.value.Str? then m.runId.value.text else ""
  }

  /** The manifest's tenant, where it names one, is the events' tenant. */
  predicate TenantMatches(m: Manifest, tenant: string) {
    m.tenantId in {None, Some(Null), Some(Str(tenant))}
  }

  ghost predicate Accepted(digest: Digest, a: Archive, tenant: string) {
    && a.manifest.Some?
    && var m := a.manifest.value;
       && ManifestOk(m, a.eventsSha256, a.lineage.Some?)
       && EventsOk(digest, m, RunIdOf(m), a.lines, tenant)
       && TenantMatches(m, tenant)
       && LineageOk(m, a.lineage, RunIdOf(m), tenant)
  }

  /** `EvidenceBundleVerifier.verify`, after the archive has been read. */
  method Verify(digest: Digest, a: Archive) returns (tenant: Option<string>)
    ensures tenant.Some? ==> Accepted(digest, a, tenant.value)
    ensures tenant.None? ==> forall t :: !Accepted(digest, a, t)
  {
    hide ManifestOk, EventsOk, LineageOk, TenantMatches;
    if a.manifest.None? || !ManifestOk(a.manifest.value, a.eventsSha256, a.lineage.Some?) {
      return None;
    }
    var m := a.manifest.value;
    tenant := ValidateEvents(digest, m, RunIdOf(m), a.lines);
    if tenant.Some? {
      OneTenant(digest, m, a.lines, tenant.value);
      if !TenantMatches(m, tenant.value) || !LineageOk(m, a.lineage, RunIdOf(m), tenant.value) {
        return None;
      }
    }
  }

  /** The events of an archive name one tenant. */
  lemma OneTenant(digest: Digest, m: Manifest, lines: seq<Line>, tenant: string)
    requires EventsOk(digest, m, RunIdOf(m), lines, tenant)
    ensures forall t | EventsOk(digest, m, RunIdOf(m), lines, t) :: t == tenant
  {
    assert LineOk(digest, RunIdOf(m), tenant, lines[0], 1, LineTip(lines[..0]));
    forall t | EventsOk(digest, m, RunIdOf(m), lines, t) ensures t == tenant {
      assert LineOk(digest, RunIdOf(m), t, lines[0], 1, LineTip(lines[..0]));
    }
  }
}
