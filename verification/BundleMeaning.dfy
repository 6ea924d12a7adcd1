/** What an accepted bundle attests, told without the verifier's helpers: whose run it is, that its events are one
    chain, that the counts are the numbers of events, and that the hashes are those of the members. */
module BundleMeaning {
  import opened Common
  import opened PortableJson
  import opened PortableJsonProofs
  import opened Ledger
  import opened Bundles

  // ---------------------------------------------------------------- counts

  /** How often the type occurs. */
  function Occurrences(types: seq<string>, t: string): set<nat> {
    set i: nat | i < |types| && types[i] == t
  }

  lemma OneMoreOccurrence(types: seq<string>, x: string, t: string)
    ensures |Occurrences(types + [x], t)| == |Occurrences(types, t)| + if x == t then 1 else 0
  {
    var n: nat := |types|;
    if x == t {
      assert Occurrences(types + [x], t) == Occurrences(types, t) + {n};
      assert n !in Occurrences(types, t);
    } else {
      assert Occurrences(types + [x], t) == Occurrences(types, t);
    }
  }

  /** The counter holds the number of occurrences of just the types that occur. */
  lemma {:induction false} CountsAre(types: seq<string>)
    ensures forall t :: t in CountTypes(types) <==> t in types
    ensures forall t | t in types :: CountTypes(types)[t] == |Occurrences(types, t)|
    decreases |types|
  {
    if types != [] {
      var front, x := types[..|types| - 1], types[|types| - 1];
      assert types == front + [x];
      CountsAre(front);
      forall t | t in types ensures CountTypes(types)[t] == |Occurrences(types, t)| {
        OneMoreOccurrence(front, x, t);
        if t !in front { assert Occurrences(front, t) == {}; }
      }
    }
  }

  /** Every count given is that of a type that occurs, and every type that occurs has its number given. */
  ghost predicate CountsTell(types: seq<string>, given: Option<Value>) {
    && given.Some? && given.value.Obj?
    && (forall t | t in types :: Find(given.value.members, t) == Some(Int(|Occurrences(types, t)|)))
    && (forall m | m in given.value.members ::
          m.key.Name? && m.key.name in types && m.value.Int? && m.value.number >= 0)
  }

  // ---------------------------------------------------------------- the chain

  /** Line `i` is event `i + 1` of this run and tenant, hashed over what it says and the hash of the line before. */
  ghost predicate IsEvent(digest: Digest, runId: string, tenant: string, lines: seq<Line>, hashes: seq<string>, i: nat)
    requires i < |lines| == |hashes|
  {
    && lines[i].Line? && lines[i].value.Obj?
    && var v := lines[i].value;
    && (|| Get(v, "sequence") == Some(Int(i + 1)) || Get(v, "sequence") == Some(Float((i + 1) as real))
        || (i == 0 && Get(v, "sequence") == Some(Bool(true))))
    && Get(v, "run_id") == Some(Str(runId)) && Get(v, "tenant_id") == Some(Str(tenant))
    && (exists t :: t != "" && Get(v, "event_type") == Some(Str(t)))
    && exists record ::
         && Get(v, "integrity") == Some(record) && record.Obj?
         && Get(record, "event_hash") == Some(Str(hashes[i])) && IsSha256(hashes[i])
         && (if i == 0 then Get(record, "previous_event_hash").None? || Get(record, "previous_event_hash") == Some(Null)
             else Get(record, "previous_event_hash") == Some(Str(hashes[i - 1])))
         && hashes[i] == digest(Without(v, "integrity"), if i == 0 then None else Some(hashes[i - 1]))
  }

  ghost predicate AreEvents(digest: Digest, runId: string, tenant: string, lines: seq<Line>, hashes: seq<string>) {
    |hashes| == |lines| && forall i | 0 <= i < |lines| :: IsEvent(digest, runId, tenant, lines, hashes, i)
  }

  function HashesOf(lines: seq<Line>): (hashes: seq<string>)
    ensures |hashes| == |lines| && forall i | 0 <= i < |lines| :: hashes[i] == HashOf(lines[i])
  {
    seq(|lines|, i requires 0 <= i < |lines| => HashOf(lines[i]))
  }

  lemma TipBefore(lines: seq<Line>, i: nat)
    requires i <= |lines|
    ensures LineTip(lines[..i]) == if i == 0 then None else Some(HashesOf(lines)[i - 1])
  {
    hide HashOf;
  }

  lemma LineIsEvent(digest: Digest, runId: string, tenant: string, lines: seq<Line>, i: nat)
    requires i < |lines| && tenant != ""
    ensures LineOk(digest, runId, tenant, lines[i], i + 1, LineTip(lines[..i]))
       <==> IsEvent(digest, runId, tenant, lines, HashesOf(lines), i)
  {
    hide Get, Without, IsSha256;
    TipBefore(lines, i);
    var v := lines[i];
    if LineOk(digest, runId, tenant, v, i + 1, LineTip(lines[..i])) {
      var t, record := Get(v.value, "event_type").value.text, Get(v.value, "integrity").value;
      assert t != "" && Get(v.value, "event_type") == Some(Str(t)) && Get(v.value, "integrity") == Some(record);
    }
  }

  /** Only the recorded hashes make a chain of the lines. */
  lemma HashesAre(digest: Digest, runId: string, tenant: string, lines: seq<Line>, hashes: seq<string>)
    requires AreEvents(digest, runId, tenant, lines, hashes)
    ensures hashes == HashesOf(lines)
  {
    forall i | 0 <= i < |lines| ensures hashes[i] == HashOf(lines[i]) {
      assert IsEvent(digest, runId, tenant, lines, hashes, i);
    }
  }

  lemma LinesAreEvents(digest: Digest, runId: string, tenant: string, lines: seq<Line>)
    requires tenant != ""
    ensures LinesOk(digest, runId, tenant, lines, |lines|) <==> exists h :: AreEvents(digest, runId, tenant, lines, h)
  {
    hide LineOk, IsEvent, HashOf;
    forall i: nat | i < |lines|
      ensures LineOk(digest, runId, tenant, lines[i], i + 1, LineTip(lines[..i]))
         <==> IsEvent(digest, runId, tenant, lines, HashesOf(lines), i)
    {
      LineIsEvent(digest, runId, tenant, lines, i);
    }
    if LinesOk(digest, runId, tenant, lines, |lines|) {
      assert AreEvents(digest, runId, tenant, lines, HashesOf(lines));
    }
    if h :| AreEvents(digest, runId, tenant, lines, h) { HashesAre(digest, runId, tenant, lines, h); }
  }

  // ---------------------------------------------------------------- the whole bundle

  /** Lower-case hexadecimal digits in groups of 8, 4, 4, 4 and 12. */
  predicate IsUuid(s: string) {
    && |s| == 36 && s[8] == '-' && s[13] == '-' && s[18] == '-' && s[23] == '-'
    && AllHex(s[..8]) && AllHex(s[9..13]) && AllHex(s[14..18]) && AllHex(s[19..23]) && AllHex(s[24..])
  }

  predicate AllHex(s: string) { forall c | c in s :: '0' <= c <= '9' || 'a' <= c <= 'f' }

  predicate IsHash(s: string) { |s| == 64 && AllHex(s) }

  ghost predicate Attests(digest: Digest, a: Archive, tenant: string, runId: string, hashes: seq<string>) {
    && a.manifest.Some?
    && var m, n := a.manifest.value, |a.lines|;
    && m.schemaName == Some(Str("prodkit.evidence-bundle-manifest"))
    && (m.schemaVersion == Some(Str("1.1.0")) || m.schemaVersion == Some(Str("1.0.0")))
    && m.runId == Some(Str(runId)) && IsUuid(runId)
    && tenant != "" && (|| (m.tenantId == Some(Str(tenant)) && !IsBlank(tenant))
                        || (m.schemaVersion == Some(Str("1.0.0")) && (m.tenantId.None? || m.tenantId == Some(Null))))
    && n > 0 && m.eventCount == Some(Int(n)) && AreEvents(digest, runId, tenant, a.lines, hashes)
    && m.finalEventHash == Some(Str(hashes[n - 1])) && IsHash(hashes[n - 1])
    && CountsTell(TypesOf(a.lines), m.countsByType) && SumOf(m.countsByType.value.members) == n
    && m.files.Some? && m.files.value.Obj?
    && (forall m' | m' in m.files.value.members :: m'.key == Name("events.jsonl") || m'.key == Name("lineage.json"))
    && m.eventsSha256 == Get(m.files.value, "events.jsonl") == Some(Str(a.eventsSha256)) && IsHash(a.eventsSha256)
    && match a.lineage
       case None => && Get(m.files.value, "lineage.json").None?
                    && m.lineageNodeCount == Some(Int(0)) && m.lineageRelationCount == Some(Int(0))
       case Some(member) =>
         && Get(m.files.value, "lineage.json") == Some(Str(member.sha256)) && IsHash(member.sha256)
         && exists g :: member.graph == Some(g) && g.runId == runId && g.tenantId == tenant
              && m.lineageNodeCount == Some(Int(g.nodes)) && m.lineageRelationCount == Some(Int(g.relations))
  }

  lemma UuidIs(s: string)
    ensures IsCanonicalUuid(s) <==> IsUuid(s)
  {
    if |s| == 36 {
      HexAt(s, 0, 8);
      HexAt(s, 9, 13);
      HexAt(s, 14, 18);
      HexAt(s, 19, 23);
      HexAt(s, 24, 36);
      assert s[..8] == s[0..8] && s[24..] == s[24..36];
    }
  }

  lemma HexAt(s: string, lo: nat, hi: nat)
    requires lo <= hi <= |s|
    ensures AllHex(s[lo..hi]) <==> forall i | lo <= i < hi :: IsLowerHex(s[i])
  {
    if AllHex(s[lo..hi]) {
      forall i | lo <= i < hi ensures IsLowerHex(s[i]) { assert s[lo..hi][i - lo] in s[lo..hi]; }
    }
  }

  lemma HashIs(s: string)
    ensures IsSha256(s) <==> IsHash(s)
  {
    if IsHash(s) { forall i | 0 <= i < |s| ensures IsLowerHex(s[i]) { assert s[i] in s; } }
  }

  lemma CountsMatchTell(types: seq<string>, v: Option<Value>)
    ensures CountsMatch(CountTypes(types), v) && AreCounts(v) <==> CountsTell(types, v)
  {
    CountsAre(types);
    hide CountTypes, Occurrences;
    if CountsTell(types, v) {
      forall i | 0 <= i < |v.value.members|
        ensures var m := v.value.members[i];
                m.key.Name? && m.key.name in types && m.value.Int? && m.value.number >= 0
      {
        assert v.value.members[i] in v.value.members;
      }
    }
  }

  /** The files named are the archive's members. */
  lemma FilesAre(files: Option<Value>, hasLineage: bool)
    requires Get2(files, "events.jsonl").Some? && (hasLineage ==> Get2(files, "lineage.json").Some?)
    ensures FilesMatch(files, hasLineage) <==>
              && (forall m | m in files.value.members :: m.key == Name("events.jsonl") || m.key == Name("lineage.json"))
              && (!hasLineage ==> Get(files.value, "lineage.json").None?)
  {
    var ms := files.value.members;
    FoundKey(ms, "events.jsonl");
    FoundKey(ms, "lineage.json");
    assert Name("events.jsonl") != Name("lineage.json") by { assert "events.jsonl"[0] != "lineage.json"[0]; }
    if FilesMatch(files, hasLineage) {
      forall m | m in ms ensures m.key == Name("events.jsonl") || m.key == Name("lineage.json") {
        assert m.key in KeySet(ms);
      }
    }
  }

  /** What the object gives for the name, if it is one. */
  function Get2(v: Option<Value>, name: string): Option<Value> {
    if v.None? then None else Get(v.value, name)
  }

  lemma {:induction false} FoundKey(ms: seq<Member>, name: string)
    ensures Find(ms, name).Some? <==> Name(name) in KeySet(ms)
  {
    if ms != [] {
      FoundKey(ms[1..], name);
      assert ms == [ms[0]] + ms[1..];
      assert KeySet(ms) == {ms[0].key} + KeySet(ms[1..]);
    }
  }

  lemma NonEmptyTenant(digest: Digest, m: Manifest, runId: string, lines: seq<Line>, tenant: string)
    requires EventsOk(digest, m, runId, lines, tenant)
    ensures tenant != ""
  {
    assert LineOk(digest, runId, tenant, lines[0], 1, LineTip(lines[..0]));
  }

  lemma EventsAttest(digest: Digest, m: Manifest, runId: string, lines: seq<Line>, tenant: string)
    ensures EventsOk(digest, m, runId, lines, tenant) && AreCounts(m.countsByType) <==>
              && tenant != "" && lines != [] && m.eventCount == Some(Int(|lines|))
              && CountsTell(TypesOf(lines), m.countsByType)
              && exists hashes :: AreEvents(digest, runId, tenant, lines, hashes)
                                  && m.finalEventHash == Some(Str(hashes[|lines| - 1]))
  {
    hide LinesOk, AreCounts, CountsMatch, CountTypes, CountsTell, AreEvents, IsEvent;
    CountsMatchTell(TypesOf(lines), m.countsByType);
    if EventsOk(digest, m, runId, lines, tenant) { NonEmptyTenant(digest, m, runId, lines, tenant); }
    if tenant != "" && lines != [] {
      LinesAreEvents(digest, runId, tenant, lines);
      TipBefore(lines, |lines|);
      assert lines[..|lines|] == lines;
      forall hashes | AreEvents(digest, runId, tenant, lines, hashes) ensures hashes == HashesOf(lines) {
        HashesAre(digest, runId, tenant, lines, hashes);
      }
    }
  }

  /** A bundle is accepted for a tenant exactly when it attests a run of that tenant. */
  lemma AcceptedExactlyWhen(digest: Digest, a: Archive, tenant: string)
    ensures Accepted(digest, a, tenant) <==> exists runId, hashes :: Attests(digest, a, tenant, runId, hashes)
  {
    if Accepted(digest, a, tenant) { AcceptedAttests(digest, a, tenant); }
    if runId, hashes :| Attests(digest, a, tenant, runId, hashes) {
      AttestedIsAccepted(digest, a, tenant, runId, hashes);
    }
  }

  lemma AcceptedAttests(digest: Digest, a: Archive, tenant: string)
    requires Accepted(digest, a, tenant)
    ensures exists runId, hashes :: Attests(digest, a, tenant, runId, hashes)
  {
    hide EventsOk, IsEvent, CountsTell, AreCounts, IsCanonicalUuid, IsUuid, IsSha256, AllHex;
    var m := a.manifest.value;
    var runId := RunIdOf(m);
    EventsAttest(digest, m, runId, a.lines, tenant);
    var hashes :| AreEvents(digest, runId, tenant, a.lines, hashes)
                  && m.finalEventHash == Some(Str(hashes[|a.lines| - 1]));
    UuidIs(runId);
    HashIs(a.eventsSha256);
    HashIs(hashes[|a.lines| - 1]);
    if a.lineage.Some? { HashIs(a.lineage.value.sha256); }
    FilesAre(m.files, a.lineage.Some?);
    assert Attests(digest, a, tenant, runId, hashes);
  }

  lemma AttestedIsAccepted(digest: Digest, a: Archive, tenant: string, runId: string, hashes: seq<string>)
    requires Attests(digest, a, tenant, runId, hashes)
    ensures Accepted(digest, a, tenant)
  {
    hide EventsOk, IsEvent, CountsTell, AreCounts, IsCanonicalUuid, IsUuid, IsSha256, AllHex, FilesMatch;
    var m := a.manifest.value;
    EventsAttest(digest, m, runId, a.lines, tenant);
    UuidIs(runId);
    HashIs(a.eventsSha256);
    HashIs(hashes[|a.lines| - 1]);
    if a.lineage.Some? { HashIs(a.lineage.value.sha256); }
    FilesAre(m.files, a.lineage.Some?);
  }
}
