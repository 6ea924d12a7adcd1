/** Promotion is a barrier: over every run, a promoted restore was preceded by everything it waits for,
    and reconciliation of a restore commits once or never. */
module RecoverySafety {
  import opened Common
  import opened Recovery

  // ---------------------------------------------------------------- appending to the history

  lemma MarkedAppend(log: seq<Entry>, e: Entry)
    ensures MarkedIn(log + [e]) == MarkedIn(log) + if e.Marked? then {e.attemptId} else {}
  {
  }

  lemma CompletedAppend(log: seq<Entry>, e: Entry, r: nat)
    ensures CompletedIn(log + [e], r) <==> CompletedIn(log, r) || (e.Completed? && e.restoreId == r)
  {
    var more := log + [e];
    assert more[|log|] == e;
    if CompletedIn(log, r) {
      var k :| 0 <= k < |log| && log[k].Completed? && log[k].restoreId == r;
      assert more[k] == log[k];
    }
  }

  predicate IsNonEmptyCommit(e: Entry, r: nat) {
    e.Reconciled? && e.restoreId == r && e.records != map[]
  }

  lemma NonEmptyAppend(log: seq<Entry>, e: Entry, r: nat)
    ensures NonEmptyCommit(log + [e], r) <==> NonEmptyCommit(log, r) || IsNonEmptyCommit(e, r)
  {
    var more := log + [e];
    assert more[|log|] == e;
    if NonEmptyCommit(log, r) {
      var k :| 0 <= k < |log| && log[k].Reconciled? && log[k].restoreId == r && log[k].records != map[];
      assert more[k] == log[k];
    }
  }

  lemma LogAppend(log: seq<Entry>, e: Entry)
    requires LogOk(log) && EntryOk(log, e)
    ensures LogOk(log + [e])
  {
    assert (log + [e])[..|log|] == log;
  }

  lemma RowsStay(s: State, t: State, e: Entry, r: nat)
    requires RowsFromOneCommit(s, r) && t.log == s.log + [e] && RecoveriesOf(t, r) == RecoveriesOf(s, r)
             && !IsNonEmptyCommit(e, r)
    ensures RowsFromOneCommit(t, r)
  {
    NonEmptyAppend(s.log, e, r);
    var rows := RecoveriesOf(s, r);
    if rows != map[] {
      var k :| 0 <= k < |s.log| && s.log[k] == Reconciled(r, rows) && MarkedIn(s.log[..k]) == rows.Keys;
      assert t.log[k] == s.log[k] && t.log[..k] == s.log[..k];
    }
  }

  /** Steps that append an entry without touching recovery rows. */
  lemma RowsKnownAppend(s: State, t: State, e: Entry)
    requires RowsKnown(s) && t.log == s.log + [e] && t.recoveries == s.recoveries && !e.Reconciled?
    ensures RowsKnown(t)
  {
    hide RowsFromOneCommit;
    forall r: nat ensures RowsFromOneCommit(t, r) {
      RowsStay(s, t, e, r);
    }
  }

  lemma RowsKnownSame(s: State, t: State)
    requires RowsKnown(s) && t.log == s.log && t.recoveries == s.recoveries
    ensures RowsKnown(t)
  {
    forall r: nat ensures RowsFromOneCommit(t, r) {
      assert RowsFromOneCommit(s, r);
      assert RecoveriesOf(t, r) == RecoveriesOf(s, r);
    }
  }

  // ---------------------------------------------------------------- steps that only record

  predicate Records(op: Op) {
    op.MarkUncertain? || op.RevokeGrant? || op.PlanRestore? || op.RecordScan? || op.RecordGap?
  }

  /** The rows of `t` are those of `s` with the entry's own row added. */
  predicate Adds(s: State, t: State, e: Entry) {
    && t.log == s.log + [e]
    && t.uncertain == s.uncertain + (if e.Marked? then {e.attemptId} else {})
    && t.revoked == s.revoked + (if e.Revoked? then {e.grantId} else {})
    && t.plans == (if e.Planned? then s.plans[e.restoreId := e.plan] else s.plans)
    && t.scans == (if e.Scanned? then s.scans[e.scanId := e.scan] else s.scans)
    && t.gaps == (if e.GapClosed? then s.gaps[e.restoreId := e.unresolvedEffects] else s.gaps)
    && t.results == (if e.Completed? then s.results[e.restoreId := e.result] else s.results)
  }

  lemma TablesAppend(s: State, t: State, e: Entry)
    requires TablesKnown(s) && Adds(s, t, e)
    ensures TablesKnown(t)
  {
    hide CompletedIn;
    MarkedAppend(s.log, e);
    forall r ensures CompletedIn(t.log, r) <==> CompletedIn(s.log, r) || (e.Completed? && e.restoreId == r) {
      CompletedAppend(s.log, e, r);
    }
  }

  lemma TablesSame(s: State, t: State)
    requires TablesKnown(s) && t.log == s.log && t.uncertain == s.uncertain && t.revoked == s.revoked
             && t.plans == s.plans
    requires t.scans == s.scans && t.gaps == s.gaps && t.results == s.results
    ensures TablesKnown(t)
  {
    hide CompletedIn, MarkedIn;
  }

  lemma RecordingAdds(s: State, op: Op, actor: Actor, now: Time)
    requires Records(op)
    ensures var t := Step(s, op, actor, now); t == s || (|t.log| == |s.log| + 1 && Adds(s, t, t.log[|s.log|]))
  {
    hide Live, Permits;
  }

  lemma RecordingKeepsInv(s: State, op: Op, actor: Actor, now: Time)
    requires Inv(s) && Records(op)
    ensures Inv(Step(s, op, actor, now))
  {
    hide LogOk, TablesKnown, RowsKnown, Live;
    var t := Step(s, op, actor, now);
    RecordingAdds(s, op, actor, now);
    if t != s {
      var e := t.log[|s.log|];
      assert EntryOk(s.log, e) by { RecordedOk(s, op, actor, now); }
      TablesAppend(s, t, e);
      LogAppend(s.log, e);
      RowsKnownAppend(s, t, e);
    }
  }

  lemma RecordedOk(s: State, op: Op, actor: Actor, now: Time)
    requires TablesKnown(s) && Records(op) && Step(s, op, actor, now).log != s.log
    ensures EntryOk(s.log, Step(s, op, actor, now).log[|s.log|])
  {
    hide CompletedIn, MarkedIn;
  }

  predicate Prepares(op: Op) {
    op.PublishProfile? || op.RecordBackup? || op.IssueGrant? || op.Observe?
  }

  /** The invariant does not speak of profiles, backups, grants or observations. */
  lemma UnrelatedTables(s: State, profiles: seq<Profile>, backups: map<nat, Backup>, grants: map<nat, Grant>,
                        pending: seq<Option<Observation>>)
    requires Inv(s)
    ensures Inv(s.(profiles := profiles)) && Inv(s.(backups := backups)) && Inv(s.(grants := grants))
            && Inv(s.(pending := pending))
  {
    hide LogOk, RowsKnown, TablesKnown;
    RowsKnownSame(s, s.(profiles := profiles));
    TablesSame(s, s.(profiles := profiles));
    RowsKnownSame(s, s.(backups := backups));
    TablesSame(s, s.(backups := backups));
    RowsKnownSame(s, s.(grants := grants));
    TablesSame(s, s.(grants := grants));
    RowsKnownSame(s, s.(pending := pending));
    TablesSame(s, s.(pending := pending));
  }

  lemma PreparingKeepsInv(s: State, op: Op, actor: Actor, now: Time)
    requires Inv(s) && Prepares(op)
    ensures Inv(Step(s, op, actor, now))
  {
    hide Inv, Permits, Recordable, Publishable, Issuable;
    match op
    case PublishProfile(p) => UnrelatedTables(s, s.profiles + [p], s.backups, s.grants, s.pending);
    case RecordBackup(id, b) => UnrelatedTables(s, s.profiles, s.backups[id := b], s.grants, s.pending);
    case IssueGrant(_, _, _, _) =>
      UnrelatedTables(s, s.profiles, s.backups, Step(s, op, actor, now).grants, s.pending);
    case Observe(r, records) => UnrelatedTables(s, s.profiles, s.backups, s.grants,
        s.pending + [Some(Observation(r, records))]);
  }

  // ---------------------------------------------------------------- reconciliation and promotion

  lemma CommitRows(s: State, t: State, restoreId: nat, records: Recoveries, r: nat)
    requires RowsKnown(s) && TablesKnown(s) && records.Keys == s.uncertain
    requires RecoveriesOf(s, restoreId).Keys * records.Keys == {}
    requires t.log == s.log + [Reconciled(restoreId, records)]
    requires t.recoveries == s.recoveries[restoreId := RecoveriesOf(s, restoreId) + records]
    requires RecoveriesOf(s, restoreId).Keys <= s.uncertain
    ensures RowsFromOneCommit(t, r)
  {
    hide TablesKnown, NonEmptyCommit, RowsFromOneCommit;
    var e := Reconciled(restoreId, records);
    assert RowsFromOneCommit(s, r);
    if r != restoreId {
      RowsStay(s, t, e, r);
    } else {
      var rows := RecoveriesOf(s, r);
      assert rows == map[] by { assert rows.Keys * records.Keys == rows.Keys; }
      assert RecoveriesOf(t, r) == records;
      if records == map[] { RowsStay(s, t, e, r); }
      else { FreshCommit(s, t, r, records); }
    }
  }

  lemma FreshCommit(s: State, t: State, r: nat, records: Recoveries)
    requires TablesKnown(s) && records.Keys == s.uncertain && records != map[]
    requires t.log == s.log + [Reconciled(r, records)] && RecoveriesOf(t, r) == records
    ensures RowsFromOneCommit(t, r)
  {
    NonEmptyAppend(s.log, Reconciled(r, records), r);
    assert t.log[|s.log|] == Reconciled(r, records) && t.log[..|s.log|] == s.log;
  }

  /** Recovery rows are for uncertain attempts only. */
  lemma RowsAreUncertain(s: State, r: nat)
    requires RowsKnown(s) && TablesKnown(s)
    ensures RecoveriesOf(s, r).Keys <= s.uncertain
  {
    assert RowsFromOneCommit(s, r);
    var rows := RecoveriesOf(s, r);
    if rows != map[] {
      var k :| 0 <= k < |s.log| && s.log[k] == Reconciled(r, rows) && MarkedIn(s.log[..k]) == rows.Keys;
      assert MarkedIn(s.log[..k]) <= MarkedIn(s.log);
    }
  }

  lemma CommitKeepsInv(s: State, i: nat, actor: Actor, now: Time)
    requires Inv(s) && i < |s.pending| && s.pending[i].Some?
    ensures Inv(CommitStep(s, i, actor, now))
  {
    hide LogOk, TablesKnown, RowsKnown, Live, Permits, RowsFromOneCommit;
    var t, o := CommitStep(s, i, actor, now), s.pending[i].value;
    if t.log == s.log {
      RowsKnownSame(s, t);
      TablesSame(s, t);
    } else {
      var e := Reconciled(o.restoreId, o.records);
      RowsAreUncertain(s, o.restoreId);
      forall r: nat ensures RowsFromOneCommit(t, r) { CommitRows(s, t, o.restoreId, o.records, r); }
      assert RowsKnown(t) by { RowsAreKnown(t); }
      TablesAppend(s, t, e);
      assert EntryOk(s.log, e) by { CommitOk(s, o); }
      LogAppend(s.log, e);
    }
  }

  lemma RowsAreKnown(t: State)
    requires forall r: nat :: RowsFromOneCommit(t, r)
    ensures RowsKnown(t)
  {
  }

  lemma CommitOk(s: State, o: Observation)
    requires TablesKnown(s) && RowsKnown(s) && s.uncertain == o.records.Keys
    requires RecoveriesOf(s, o.restoreId).Keys * o.records.Keys == {}
             && RecoveriesOf(s, o.restoreId).Keys <= s.uncertain
    ensures EntryOk(s.log, Reconciled(o.restoreId, o.records))
  {
    var rows := RecoveriesOf(s, o.restoreId);
    assert RowsFromOneCommit(s, o.restoreId);
    assert rows == map[] by { assert rows.Keys * o.records.Keys == rows.Keys; }
  }

  /** A promoted result passes the barrier. */
  lemma PromotionPasses(s: State, restoreId: nat, scanId: nat, actor: Actor, now: Time)
    requires TablesKnown(s) && RowsKnown(s) && Permits(s, restoreId, Failover, actor, now)
    requires scanId in s.scans && s.scans[scanId] == Scan(restoreId, true)
    requires restoreId in s.gaps && s.gaps[restoreId] == 0
    requires AllResolved(s.uncertain, RecoveriesOf(s, restoreId))
    ensures Barrier(s.log, restoreId, scanId)
  {
    hide CompletedIn, NonEmptyCommit;
    var rows := RecoveriesOf(s, restoreId);
    assert RowsFromOneCommit(s, restoreId);
    if rows != map[] {
      var k :| 0 <= k < |s.log| && s.log[k] == Reconciled(restoreId, rows) && MarkedIn(s.log[..k]) == rows.Keys;
      assert ResolvesAll(s.log, k, restoreId);
    }
    assert Planned(restoreId, s.plans[restoreId]) in s.log;
  }

  lemma CompleteKeepsInv(s: State, restoreId: nat, scanId: nat, actor: Actor, now: Time)
    requires Inv(s)
    ensures Inv(CompleteStep(s, restoreId, scanId, actor, now))
  {
    hide LogOk, TablesKnown, RowsKnown, Live, Permits, Barrier, AllResolved, TargetsMet;
    var t := CompleteStep(s, restoreId, scanId, actor, now);
    if t != s {
      var result := t.results[restoreId];
      var e := Completed(restoreId, result);
      if result.promoted { PromotionPasses(s, restoreId, scanId, actor, now); }
      assert !CompletedIn(s.log, restoreId) by { NotCompleted(s, restoreId); }
      LogAppend(s.log, e);
      TablesAppend(s, t, e);
      RowsKnownAppend(s, t, e);
    }
  }

  lemma NotCompleted(s: State, r: nat)
    requires TablesKnown(s) && r !in s.results
    ensures !CompletedIn(s.log, r)
  {
  }

  // ---------------------------------------------------------------- whole runs

  lemma StepKeepsInv(s: State, op: Op, actor: Actor, now: Time)
    requires Inv(s)
    ensures Inv(Step(s, op, actor, now))
  {
    hide Inv, CommitStep, CompleteStep;
    if Records(op) { RecordingKeepsInv(s, op, actor, now); }
    else if Prepares(op) { PreparingKeepsInv(s, op, actor, now); }
    else if op.CompleteRestore? { CompleteKeepsInv(s, op.restoreId, op.scanId, actor, now); }
    else if op.observation < |s.pending| && s.pending[op.observation].Some? {
      CommitKeepsInv(s, op.observation, actor, now);
    }
  }

  lemma {:induction false} AfterKeepsInv(s: State, run: seq<Event>)
    requires Inv(s)
    ensures Inv(After(s, run))
    decreases |run|
  {
    hide Inv, Step;
    if run != [] {
      StepKeepsInv(s, run[0].op, run[0].actor, run[0].now);
      AfterKeepsInv(Step(s, run[0].op, run[0].actor, run[0].now), run[1..]);
    }
  }

  lemma EmptyInv()
    ensures Inv(EMPTY)
  {
    forall r: nat ensures RowsFromOneCommit(EMPTY, r) {
    }
  }

  /** The histories of all runs. */
  ghost predicate History(log: seq<Entry>) {
    exists run :: After(EMPTY, run).log == log
  }

  lemma {:induction false} EntryIsOk(log: seq<Entry>, n: nat)
    requires LogOk(log) && n < |log|
    ensures EntryOk(log[..n], log[n])
  {
    if n < |log| - 1 {
      EntryIsOk(log[..|log| - 1], n);
      assert log[..|log| - 1][..n] == log[..n];
    }
  }

  lemma HistoryEntry(log: seq<Entry>, n: nat)
    requires History(log) && n < |log|
    ensures EntryOk(log[..n], log[n])
  {
    hide EntryOk;
    var run :| After(EMPTY, run).log == log;
    EmptyInv();
    AfterKeepsInv(EMPTY, run);
    EntryIsOk(log, n);
  }

  /** A promoted restore has, before it, a verified scan of its own, a closed gap without unresolved
      effects, a plan whose grant was not revoked, and a commit of resolved records for every attempt
      uncertain by then, after which no further attempt became uncertain. */
  lemma PromotionIsABarrier(log: seq<Entry>, n: nat)
    requires History(log) && n < |log| && log[n].Completed? && log[n].result.promoted
    ensures Barrier(log[..n], log[n].restoreId, log[n].result.scanId)
  {
    hide Barrier, CompletedIn, History;
    HistoryEntry(log, n);
  }

  /** A restore is completed once: a degraded or failed one is never promoted later. */
  lemma CompletedOnce(log: seq<Entry>, m: nat, n: nat)
    requires History(log) && m <= n < |log| && log[m].Completed? && log[n].Completed?
             && log[m].restoreId == log[n].restoreId
    ensures m == n
  {
    hide Barrier, History;
    assert m < n ==> log[..n][m] == log[m];
    HistoryEntry(log, n);
  }

  /** The commit a promotion rests on, if any attempt was uncertain. */
  lemma PromotedCommit(log: seq<Entry>, n: nat) returns (k: nat)
    requires History(log) && n < |log| && log[n].Completed? && log[n].result.promoted && MarkedIn(log[..n]) != {}
    ensures k < n && log[k].Reconciled? && log[k].restoreId == log[n].restoreId
    ensures log[k].records.Keys == MarkedIn(log[..k]) == MarkedIn(log[..n])
  {
    hide History, MarkedIn;
    PromotionIsABarrier(log, n);
    k :| 0 <= k < n && ResolvesAll(log[..n], k, log[n].restoreId) && MarkedIn(log[..n]) == MarkedIn(log[..n][..k]);
    assert log[..n][..k] == log[..k];
  }

  lemma CommitCoversMarked(log: seq<Entry>, m: nat)
    requires History(log) && m < |log| && log[m].Reconciled?
    ensures log[m].records.Keys == MarkedIn(log[..m])
  {
    hide History, MarkedIn;
    HistoryEntry(log, m);
  }

  /** Once records have been committed for a restore, an attempt that becomes uncertain later bars that
      restore from promotion for good: a second commit would repeat rows the first one wrote. */
  lemma LateUncertaintyBars(log: seq<Entry>, m: nat, a: nat, n: nat)
    requires History(log) && m < a < n < |log|
    requires log[m].Reconciled? && log[m].records != map[]
    requires log[a].Marked? && log[a].attemptId !in MarkedIn(log[..a])
    requires log[n].Completed? && log[n].restoreId == log[m].restoreId
    ensures !log[n].result.promoted
  {
    hide History, MarkedIn;
    MarkedAt(log, a, n);
    MarkedGrows(log, m, a);
    CommitCoversMarked(log, m);
    if log[n].result.promoted {
      var k := PromotedCommit(log, n);
      CommitsAgree(log, m, k, log[m].restoreId);
    }
  }

  lemma MarkedAt(log: seq<Entry>, a: nat, n: nat)
    requires a < n <= |log| && log[a].Marked?
    ensures log[a].attemptId in MarkedIn(log[..n])
  {
    assert log[..n][a] == log[a];
  }

  lemma MarkedGrows(log: seq<Entry>, m: nat, n: nat)
    requires m <= n <= |log|
    ensures MarkedIn(log[..m]) <= MarkedIn(log[..n])
  {
    forall x | x in MarkedIn(log[..m]) ensures x in MarkedIn(log[..n]) {
      var e :| e in log[..m] && e.Marked? && e.attemptId == x;
      var i :| 0 <= i < m && log[..m][i] == e;
      assert log[..n][i] == e;
    }
  }

  /** Two commits with records for one restore are one commit. */
  lemma CommitsAgree(log: seq<Entry>, m: nat, k: nat, r: nat)
    requires History(log) && m < |log| && k < |log|
    requires IsNonEmptyCommit(log[m], r) && IsNonEmptyCommit(log[k], r)
    ensures m == k
  {
    hide History;
    assert m < k ==> log[..k][m] == log[m];
    assert k < m ==> log[..m][k] == log[k];
    HistoryEntry(log, m);
    HistoryEntry(log, k);
  }
}
