/** The recovery store's transactions as methods, and the integrity scan of a restored site. */
module RecoveryStore {
  import opened Common
  import opened Recovery

  class PostgresRecoveryStore {
    var rows: State

    constructor ()
      ensures rows == EMPTY
    {
      rows := EMPTY;
    }

    method RevokeBreakGlass(grantId: nat, actor: Actor, now: Time)
      modifies this
      ensures rows == Step(old(rows), RevokeGrant(grantId), actor, now)
    {
      if grantId in rows.grants && grantId !in rows.revoked {
        rows := rows.(revoked := rows.revoked + {grantId}, log := rows.log + [Revoked(grantId)]);
      }
    }

    /** The second transaction of `reconcile_uncertain_attempts`; `order` is the order of the observed records.
        A row that exists already aborts the transaction, rows inserted before it included. */
    method CommitReconciliation(i: nat, order: seq<nat>, actor: Actor, now: Time)
      requires i < |rows.pending| && rows.pending[i].Some?
      requires forall a :: a in order <==> a in rows.pending[i].value.records
      requires forall m, n | 0 <= m < n < |order| :: order[m] != order[n]
      modifies this
      ensures rows == Step(old(rows), Commit(i), actor, now)
    {
      var before := rows;
      var observation := rows.pending[i].value;
      var records, restoreId := observation.records, observation.restoreId;
      rows := rows.(pending := rows.pending[i := None]);
      if !Permits(before, restoreId, Reconcile, actor, now) || before.uncertain != records.Keys {
        return;
      }
      var inserted := RecoveriesOf(before, restoreId);
      for n := 0 to |order|
        invariant forall a :: a in inserted <==> a in RecoveriesOf(before, restoreId) || a in order[..n]
        invariant forall a | a in RecoveriesOf(before, restoreId) :: inserted[a] == RecoveriesOf(before, restoreId)[a]
        invariant forall a | a in order[..n] :: a !in RecoveriesOf(before, restoreId) && inserted[a] == records[a]
      {
        var a := order[n];
        if a in inserted {
          assert a !in order[..n];
          assert a in RecoveriesOf(before, restoreId).Keys * records.Keys;
          return;
        }
        inserted := inserted[a := records[a]];
        assert order[..n + 1] == order[..n] + [a];
      }
      assert order[..|order|] == order;
      assert inserted == RecoveriesOf(before, restoreId) + records;
      rows := rows.(recoveries := rows.recoveries[restoreId := inserted],
          log := rows.log + [Reconciled(restoreId, records)]);
    }

    method CompleteRestoreOf(restoreId: nat, scanId: nat, actor: Actor, now: Time) returns (result: Option<Result>)
      modifies this
      ensures rows == Step(old(rows), CompleteRestore(restoreId, scanId), actor, now)
      ensures result.Some? ==>
                restoreId in rows.results && rows.results[restoreId] == result.value && restoreId !in old(rows).results
      ensures result.None? ==> rows == old(rows)
    {
      if !Permits(rows, restoreId, Failover, actor, now) {
        return None;
      }
      var plan, profile := rows.plans[restoreId], ActiveProfile(rows.profiles, now);
      if profile.None? || plan.backupId !in rows.backups {
        return None;
      }
      var backup := rows.backups[plan.backupId];
      if plan.profileId != profile.value.profileId || plan.profileRevision != profile.value.revision {
        return None;
      }
      if scanId !in rows.scans || rows.scans[scanId].restoreId != restoreId || restoreId !in rows.gaps {
        return None;
      }
      var recoveries := RecoveriesOf(rows, restoreId);
      var unresolved := rows.uncertain != recoveries.Keys || exists a | a in recoveries :: Unresolved(recoveries[a]);
      var gapReconciled := rows.gaps[restoreId] == 0;
      var actualRpo := Max(0, plan.failureDetectedAt - backup.recoveryPointAt);
      var actualRto := Max(0, now - plan.failureDetectedAt);
      var integrityOk := rows.scans[scanId].verified;
      var targetsMet := actualRpo <= profile.value.rpoSeconds * SECOND
          && actualRto <= profile.value.rtoSeconds * SECOND;
      var status, promoted := Failed, false;
      if integrityOk && !unresolved && gapReconciled && targetsMet {
        status, promoted := Verified, true;
      } else if integrityOk {
        status := Degraded;
      }
      if restoreId in rows.results {
        return None;
      }
      var completed := Result(status, promoted, scanId, recoveries);
      rows := rows.(results := rows.results[restoreId := completed],
          log := rows.log + [Completed(restoreId, completed)]);
      return Some(completed);
    }
  }

  // ---------------------------------------------------------------- the integrity scan

  datatype Component =
    Ledger | Lineage | Configuration | ArtifactMetadata | ObjectStore | Idempotency | ExecutionAttempts | Governance

  datatype ComponentRecord = ComponentRecord(component: Component, sha256: string)

  datatype Manifest = Manifest(
    tenantId: string, components: seq<ComponentRecord>, chainTip: string, checkpointSha256: string,
        trustAnchorSha256: string)

  /** The presented checkpoint and trust policy: their digests, and whether the signature verifies. */
  datatype Checkpoint = Checkpoint(tenantId: string, finalEventHash: string, sha256: string)

  datatype Presented = Presented(chainTip: string, checkpoint: Checkpoint, trustPolicySha256: string,
      signatureVerifies: bool)

  datatype Finding =
    | Missing(component: Component) | Mismatch(component: Component) | Unexpected(component: Component)
    | WrongChainTip | WrongTrustAnchor | WrongCheckpoint | ForeignCheckpoint | UnboundCheckpoint | BadSignature
    | ObjectStoreUnverified

  datatype ScanResult = ScanResult(
    verified: bool, chainVerified: bool, checkpointVerified: bool, trustAnchorVerified: bool, objectStoreVerified: bool,
    components: seq<Component>, findings: seq<Finding>)

  function DigestMap(records: seq<ComponentRecord>): map<Component, string> {
    if records == [] then map[]
    else DigestMap(records[..|records| - 1])[records[|records| - 1].component := records[|records| - 1].sha256]
  }

  predicate DistinctComponents(records: seq<ComponentRecord>) {
    forall i, j | 0 <= i < j < |records| :: records[i].component != records[j].component
  }

  ghost predicate Lists(records: seq<ComponentRecord>, c: Component) {
    exists i | 0 <= i < |records| :: records[i].component == c
  }

  lemma ListsAppend(records: seq<ComponentRecord>, r: ComponentRecord, c: Component)
    ensures Lists(records + [r], c) <==> Lists(records, c) || r.component == c
  {
    var more := records + [r];
    assert more[|records|] == r;
    if Lists(records, c) {
      var i :| 0 <= i < |records| && records[i].component == c;
      assert more[i].component == c;
    }
  }

  lemma {:induction false} DigestMapKeys(records: seq<ComponentRecord>, c: Component)
    ensures c in DigestMap(records) <==> Lists(records, c)
  {
    if records != [] {
      var rest, last := records[..|records| - 1], records[|records| - 1];
      assert records == rest + [last];
      DigestMapKeys(rest, c);
      ListsAppend(rest, last, c);
    }
  }

  lemma {:induction false} DigestMapValues(records: seq<ComponentRecord>, i: nat)
    requires DistinctComponents(records) && i < |records|
    ensures records[i].component in DigestMap(records) && DigestMap(records)[records[i].component] == records[i].sha256
  {
    if i < |records| - 1 { DigestMapValues(records[..|records| - 1], i); }
  }

  /** The manifest, the presented chain tip, trust policy and checkpoint all agree. */
  predicate Anchored(m: Manifest, p: Presented) {
    && p.chainTip == m.chainTip
    && p.trustPolicySha256 == m.trustAnchorSha256
    && p.checkpoint.sha256 == m.checkpointSha256
    && p.checkpoint.tenantId == m.tenantId
    && p.checkpoint.finalEventHash == m.chainTip
    && p.signatureVerifies
  }

  /** The component was observed with the expected digest. */
  predicate Intact(observed: map<Component, string>, c: Component, sha256: string) {
    c in observed && observed[c] == sha256
  }

  ghost predicate AllIntact(observed: map<Component, string>, records: seq<ComponentRecord>) {
    forall i | 0 <= i < |records| :: Intact(observed, records[i].component, records[i].sha256)
  }

  ghost predicate AllExpected(expected: map<Component, string>, observations: seq<ComponentRecord>) {
    forall i | 0 <= i < |observations| :: observations[i].component in expected
  }

  /** Every expected component intact and none unexpected: the digest maps are equal. */
  lemma SameDigests(components: seq<ComponentRecord>, observations: seq<ComponentRecord>)
    requires DistinctComponents(components)
    ensures DigestMap(observations) == DigestMap(components) <==>
              AllIntact(DigestMap(observations), components) && AllExpected(DigestMap(components), observations)
  {
    hide DigestMap;
    var expected, observed := DigestMap(components), DigestMap(observations);
    forall i | 0 <= i < |components| ensures Intact(expected, components[i].component, components[i].sha256) {
      DigestMapValues(components, i);
    }
    forall i | 0 <= i < |observations| ensures observations[i].component in observed {
      DigestMapKeys(observations, observations[i].component);
    }
    if AllIntact(observed, components) && AllExpected(expected, observations) {
      forall c ensures c in observed <==> c in expected
               ensures c in expected ==> observed[c] == expected[c]
      {
        DigestMapKeys(observations, c);
        DigestMapKeys(components, c);
        if c in expected {
          var i :| 0 <= i < |components| && components[i].component == c;
          assert Intact(observed, components[i].component, components[i].sha256);
        }
      }
      assert observed == expected;
    }
  }

  lemma VerifiedSoFar(observed: map<Component, string>, records: seq<ComponentRecord>, r: ComponentRecord)
    ensures AllIntact(observed, records + [r]) <==>
              AllIntact(observed, records) && Intact(observed, r.component, r.sha256)
  {
    assert forall i | 0 <= i < |records| :: (records + [r])[i] == records[i];
    assert (records + [r])[|records|] == r;
  }

  lemma ExpectedSoFar(expected: map<Component, string>, observations: seq<ComponentRecord>, r: ComponentRecord)
    ensures AllExpected(expected, observations + [r]) <==>
              AllExpected(expected, observations) && r.component in expected
  {
    assert forall i | 0 <= i < |observations| :: (observations + [r])[i] == observations[i];
    assert (observations + [r])[|observations|] == r;
  }

  /** The two loops over components: `verified` lists the intact ones. */
  method CompareComponents(components: seq<ComponentRecord>, observations: seq<ComponentRecord>)
    returns (verified: seq<Component>, findings: seq<Finding>)
    requires DistinctComponents(components)
    ensures findings == [] <==> DigestMap(observations) == DigestMap(components)
    ensures forall c :: c in verified <==>
              c in DigestMap(components) && Intact(DigestMap(observations), c, DigestMap(components)[c])
  {
    hide DigestMap, AllIntact, AllExpected, Lists;
    var expected, observed := DigestMap(components), DigestMap(observations);
    SameDigests(components, observations);
    findings, verified := [], [];
    NothingYet(observed, expected);
    assert components[..0] == [] && observations[..0] == [];
    for i := 0 to |components|
      invariant findings == [] <==> AllIntact(observed, components[..i])
      invariant forall c :: c in verified <==>
                  Lists(components[..i], c) && c in expected && Intact(observed, c, expected[c])
    {
      var record := components[i];
      assert components[..i + 1] == components[..i] + [record];
      VerifiedSoFar(observed, components[..i], record);
      DigestMapValues(components, i);
      forall c ensures Lists(components[..i + 1], c) <==> Lists(components[..i], c) || record.component == c {
        ListsAppend(components[..i], record, c);
      }
      if record.component !in observed {
        findings := findings + [Missing(record.component)];
      } else if observed[record.component] != record.sha256 {
        findings := findings + [Mismatch(record.component)];
      } else {
        verified := verified + [record.component];
      }
    }
    assert components[..|components|] == components && observations[..|observations|] == observations;
    forall c ensures c in expected <==> Lists(components, c) { DigestMapKeys(components, c); }
    for i := 0 to |observations|
      invariant findings == [] <==> AllIntact(observed, components) && AllExpected(expected, observations[..i])
    {
      assert observations[..i + 1] == observations[..i] + [observations[i]];
      ExpectedSoFar(expected, observations[..i], observations[i]);
      if observations[i].component !in expected {
        findings := findings + [Unexpected(observations[i].component)];
      }
    }
  }

  lemma NothingYet(observed: map<Component, string>, expected: map<Component, string>)
    ensures AllIntact(observed, []) && AllExpected(expected, [])
    ensures forall c :: !Lists([], c)
  {
  }

  /** `RecoveryIntegrityVerifier.verify`; `None` when it raises. A scan is verified exactly when the observed
      digests are the manifest's, component for component, and every anchor checks. */
  method VerifyRestored(m: Manifest, observations: seq<ComponentRecord>, p: Presented)
    returns (scan: Option<ScanResult>)
    requires DistinctComponents(m.components)
    ensures scan.Some? <==> DistinctComponents(observations)
    ensures scan.Some? ==>
              && (scan.value.verified <==> DigestMap(observations) == DigestMap(m.components) && Anchored(m, p))
              && (scan.value.verified <==> scan.value.findings == [])
              && (scan.value.checkpointVerified ==> p.signatureVerifies || p.trustPolicySha256 != m.trustAnchorSha256)
              && (forall c :: c in scan.value.components <==>
                    c in DigestMap(m.components) && Intact(DigestMap(observations), c, DigestMap(m.components)[c]))
  {
    hide DigestMap;
    if !DistinctComponents(observations) {
      return None;
    }
    var verified, findings := CompareComponents(m.components, observations);
    var chainVerified := p.chainTip == m.chainTip;
    if !chainVerified {
      findings := findings + [WrongChainTip];
    }
    var trustAnchorVerified := p.trustPolicySha256 == m.trustAnchorSha256;
    if !trustAnchorVerified {
      findings := findings + [WrongTrustAnchor];
    }
    var checkpointVerified := p.checkpoint.sha256 == m.checkpointSha256;
    if !checkpointVerified {
      findings := findings + [WrongCheckpoint];
    }
    if p.checkpoint.tenantId != m.tenantId {
      checkpointVerified := false;
      findings := findings + [ForeignCheckpoint];
    }
    if p.checkpoint.finalEventHash != m.chainTip {
      checkpointVerified := false;
      findings := findings + [UnboundCheckpoint];
    }
    if trustAnchorVerified && checkpointVerified && !p.signatureVerifies {
      checkpointVerified := false;
      findings := findings + [BadSignature];
    }
    var objectStoreExpected := ObjectStore in DigestMap(m.components);
    var objectStoreVerified := !objectStoreExpected || ObjectStore in verified;
    if objectStoreExpected && !objectStoreVerified {
      findings := findings + [ObjectStoreUnverified];
    }
    var ok := findings == [] && chainVerified && checkpointVerified && trustAnchorVerified && objectStoreVerified;
    return Some(ScanResult(ok, chainVerified, checkpointVerified, trustAnchorVerified, objectStoreVerified, verified,
        findings));
  }
}
