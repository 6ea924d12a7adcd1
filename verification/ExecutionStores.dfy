/** The two stores every action execution shares: idempotency ownership and the attempt journal, in their
    in-memory and PostgreSQL forms. */
module ExecutionStores {
  import opened Common

  /** Which implementation backs the stores. */
  datatype Profile = InMemory | Postgres

  datatype ExecutionResult = ExecutionResult(
    actionId: nat, executorName: string, executorVersion: string, succeeded: bool,
    attemptId: Option<nat>, output: string)

  // ---------------------------------------------------------------- idempotency

  datatype Key = Key(tenantId: string, key: string)

  datatype Entry = Entry(actionDigest: string, result: Option<ExecutionResult>)

  type Entries = map<Key, Entry>

  datatype ClaimOutcome = Acquired | AlreadyOwned | OtherDigest

  function Claim(entries: Entries, k: Key, digest: string): (Entries, ClaimOutcome) {
    if k !in entries then (entries[k := Entry(digest, None)], Acquired)
    else (entries, if entries[k].actionDigest == digest then AlreadyOwned else OtherDigest)
  }

  /** `None` when the store raises. The in-memory store overwrites; PostgreSQL keeps the first result. */
  function Complete(profile: Profile, entries: Entries, k: Key, result: ExecutionResult): Option<Entries> {
    if k !in entries then None
    else if profile == Postgres && entries[k].result.Some? then
      if entries[k].result.value == result then Some(entries) else None
    else Some(entries[k := entries[k].(result := Some(result))])
  }

  function ResultOf(entries: Entries, k: Key): Option<ExecutionResult> {
    if k in entries then entries[k].result else None
  }

  // ---------------------------------------------------------------- attempts

  datatype AttemptState = Claimed | Started | Succeeded | Failed | Uncertain

  /** `_TRANSITIONS`: the states each state may be replaced by. */
  function Transitions(from: AttemptState): set<AttemptState> {
    match from
    case Claimed => {Started}
    case Started => {Succeeded, Failed, Uncertain}
    case _ => {}
  }

  datatype Attempt = Attempt(
    attemptId: nat, actionId: nat, runId: nat, key: Key, actionDigest: string,
    executorName: string, executorVersion: string, executorIdentity: string, state: AttemptState)
  {
    function Id(): AttemptId { AttemptId(key.tenantId, attemptId) }
  }

  datatype AttemptId = AttemptId(tenantId: string, attemptId: nat)

  type Attempts = map<AttemptId, Attempt>

  /** Attempt ids are unique across tenants in both stores; `None` when the store raises. */
  function Create(attempts: Attempts, a: Attempt): Option<Attempts> {
    if exists id | id in attempts :: id.attemptId == a.attemptId then None
    else Some(attempts[a.Id() := a])
  }

  predicate SameIdentity(a: Attempt, b: Attempt) {
    a.(state := b.state) == b
  }

  /** PostgreSQL compares the whole identity and the transition table; in memory only action and run are compared. */
  function Replace(profile: Profile, attempts: Attempts, a: Attempt): Option<Attempts> {
    if a.Id() !in attempts then None
    else
      var current := attempts[a.Id()];
      if current.actionId != a.actionId || current.runId != a.runId then None
      else if profile == Postgres && !(SameIdentity(current, a) && a.state in Transitions(current.state)) then None
      else Some(attempts[a.Id() := a])
  }

  /** A terminal attempt accepts no further state in the PostgreSQL journal, an uncertain one included. */
  lemma TerminalIsAbsorbing(attempts: Attempts, a: Attempt)
    requires a.Id() in attempts && attempts[a.Id()].state in {Succeeded, Failed, Uncertain}
    ensures Replace(Postgres, attempts, a).None?
  {
  }

  /** Whatever PostgreSQL accepts, the in-memory journal accepts with the same outcome; it refuses more
      exactly when identity beyond action and run changes, or the edge is not in the table. */
  lemma PostgresIsStricter(attempts: Attempts, a: Attempt)
    ensures Replace(Postgres, attempts, a).Some? ==> Replace(InMemory, attempts, a) == Replace(Postgres, attempts, a)
    ensures Replace(InMemory, attempts, a).Some? ==>
              (Replace(Postgres, attempts, a).None? <==>
                !SameIdentity(attempts[a.Id()], a) || a.state !in Transitions(attempts[a.Id()].state))
  {
  }

  // ---------------------------------------------------------------- the stores

  class IdempotencyStore {
    const profile: Profile
    var entries: Entries

    constructor (profile: Profile)
      ensures this.profile == profile && entries == map[]
    {
      this.profile := profile;
      entries := map[];
    }

    method ClaimKey(k: Key, digest: string) returns (outcome: ClaimOutcome)
      modifies this
      ensures (entries, outcome) == Claim(old(entries), k, digest)
    {
      if k !in entries {
        entries := entries[k := Entry(digest, None)];
        return Acquired;
      }
      if entries[k].actionDigest != digest {
        return OtherDigest;
      }
      return AlreadyOwned;
    }

    method CompleteKey(k: Key, result: ExecutionResult) returns (ok: bool)
      modifies this
      ensures ok <==> Complete(profile, old(entries), k, result).Some?
      ensures entries == if ok then Complete(profile, old(entries), k, result).value else old(entries)
    {
      if k !in entries {
        return false;
      }
      if profile == Postgres && entries[k].result.Some? {
        return entries[k].result.value == result;
      }
      entries := entries[k := entries[k].(result := Some(result))];
      return true;
    }
  }

  class InMemoryExecutionAttemptStore {
    var records: Attempts
    var latestByAction: map<(string, nat), nat>

    /** Every action with an attempt has a latest one, and it is an attempt of that action; an attempt id
        belongs to one tenant. */
    ghost predicate Valid()
      reads this
    {
      && (forall id | id in records ::
            records[id].Id() == id && (id.tenantId, records[id].actionId) in latestByAction)
      && (forall key | key in latestByAction ::
            AttemptId(key.0, latestByAction[key]) in records
            && records[AttemptId(key.0, latestByAction[key])].actionId == key.1)
      && (forall a, b | a in records && b in records :: a.attemptId == b.attemptId ==> a == b)
    }

    constructor ()
      ensures Valid() && records == map[]
    {
      records, latestByAction := map[], map[];
    }

    method CreateAttempt(a: Attempt) returns (ok: bool)
      requires Valid()
      modifies this
      ensures Valid()
      ensures ok <==> Create(old(records), a).Some?
      ensures records == if ok then Create(old(records), a).value else old(records)
      ensures ok ==> LatestForAction(a.key.tenantId, a.actionId) == Some(a)
    {
      if exists id | id in records :: id.attemptId == a.attemptId {
        return false;
      }
      records := records[a.Id() := a];
      latestByAction := latestByAction[(a.key.tenantId, a.actionId) := a.attemptId];
      return true;
    }

    method ReplaceAttempt(a: Attempt) returns (ok: bool)
      requires Valid()
      modifies this
      ensures Valid()
      ensures ok <==> Replace(InMemory, old(records), a).Some?
      ensures records == if ok then Replace(InMemory, old(records), a).value else old(records)
      ensures ok ==> LatestForAction(a.key.tenantId, a.actionId) == Some(a)
    {
      hide SameIdentity, Transitions, Create;
      if a.Id() !in records {
        return false;
      }
      var current := records[a.Id()];
      if current.actionId != a.actionId || current.runId != a.runId {
        return false;
      }
      records := records[a.Id() := a];
      latestByAction := latestByAction[(a.key.tenantId, a.actionId) := a.attemptId];
      return true;
    }

    function LatestForAction(tenantId: string, actionId: nat): Option<Attempt>
      requires Valid()
      reads this
    {
      if (tenantId, actionId) in latestByAction
      then Some(records[AttemptId(tenantId, latestByAction[(tenantId, actionId)])])
      else None
    }
  }

  class PostgresExecutionAttemptStore {
    var rows: Attempts

    /** Rows are stored under their own primary key. */
    ghost predicate Valid()
      reads this
    {
      forall id | id in rows :: rows[id].Id() == id
    }

    constructor ()
      ensures Valid() && rows == map[]
    {
      rows := map[];
    }

    method ReplaceAttempt(a: Attempt) returns (ok: bool)
      requires Valid()
      modifies this
      ensures Valid()
      ensures ok <==> Replace(Postgres, old(rows), a).Some?
      ensures rows == if ok then Replace(Postgres, old(rows), a).value else old(rows)
    {
      if a.Id() !in rows {
        return false;
      }
      var current := rows[a.Id()];
      if || current.actionId != a.actionId
         || current.runId != a.runId
         || current.key != a.key
         || current.actionDigest != a.actionDigest
         || current.executorName != a.executorName
         || current.executorVersion != a.executorVersion
         || current.executorIdentity != a.executorIdentity
      {
        return false;
      }
      if a.state !in Transitions(current.state) {
        return false;
      }
      rows := rows[a.Id() := a];
      return true;
    }
  }
}
