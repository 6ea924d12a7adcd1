/** What the safety theorems do not say: a call that nothing disturbs does reach its executor, once, and hands
    on what it returned; and a later call for the same action returns that result without executing again. */
module BrokerProgress {
  import opened Common
  import opened ExecutionStores
  import opened Broker
  import opened BrokerEndings

  /** Policy and approval clear the action, its executor can serve it, and nothing awaited fails. */
  predicate Smooth(cfg: Config, a: Action, ans: Answer) {
    && ans.fate == Done && ans.revoked && ans.reportedActionId == a.actionId
    && (a.expiresAt.Some? ==> ans.now < a.expiresAt.value)
    && ans.policy.actionDigest == a.digest && ans.policy.outcome != Deny
    && (ans.policy.outcome == RequireApproval ==> ans.approval.Some? && ans.approval.value.approved)
    && a.executor in cfg.executors
    && (cfg.attempts || cfg.leases ==> cfg.executors[a.executor].attemptAware)
    && (cfg.leases ==> cfg.executors[a.executor].leaseAware)
  }

  /** `After` along `n` turns of one call, each with the same answer. */
  function Turns(i: nat, ans: Answer, n: nat): seq<Turn> {
    seq(n, _ => Turn(i, ans))
  }

  lemma OneMoreTurn(cfg: Config, s: State, i: nat, ans: Answer, n: nat)
    requires i < |s.calls| && |Next(cfg, s, i, ans).calls| == |s.calls|
    ensures After(cfg, s, Turns(i, ans, n + 1)) == After(cfg, Next(cfg, s, i, ans), Turns(i, ans, n))
  {
    hide Next;
    assert Turns(i, ans, n + 1)[1..] == Turns(i, ans, n);
  }

  /** The same answer at every turn. */
  function Steady(ans: Answer): World {
    World(ans.now, ans.policy, ans.approval, ans.freshId, ans.freshId, ans.executed, ans.revoked, ans.fate,
          ans.reportedActionId, ans.reportedActionId)
  }

  lemma {:induction false} SteadyTurns(cfg: Config, s: State, i: nat, ans: Answer, n: nat)
    requires i < |s.calls| && ans.fate == Done
    ensures After(cfg, s, Turns(i, ans, n)) == Alone(cfg, Steady(ans), s, i, n)
    decreases n
  {
    hide Act, Apply;
    if n > 0 {
      assert AnswerAt(Steady(ans), s.calls[i].phase) == ans;
      SteadyTurns(cfg, Next(cfg, s, i, ans), i, ans, n - 1);
      OneMoreTurn(cfg, s, i, ans, n - 1);
    }
  }

  lemma SteadyLeads(cfg: Config, s: State, t: State, i: nat, ans: Answer) returns (n: nat)
    requires ans.fate == Done && Leads(cfg, Steady(ans), i, s, t)
    ensures After(cfg, s, Turns(i, ans, n)) == t
  {
    hide Alone, After;
    n :| Alone(cfg, Steady(ans), s, i, n) == t;
    SteadyTurns(cfg, s, i, ans, n);
  }

  /** The key holds `r`, stored for this very action. */
  predicate Stored(cfg: Config, start: State, a: Action, r: ExecutionResult) {
    && a.Key() in start.entries && start.entries[a.Key()] == Entry(a.digest, Some(r))
    && a.executor in cfg.executors && r.actionId == a.actionId && r.executorName == cfg.executors[a.executor].name
  }

  /** A new call of an actor of the action's own tenant. */
  predicate Starts(s: State, i: nat) {
    i < |s.calls| && s.calls[i] == NewCall(Request(s.calls[i].action, s.calls[i].action.tenantId))
  }

  /** What the call changed in the stores, from `s` to `t`. */
  ghost predicate Executed(cfg: Config, s: State, t: State, i: nat, a: Action, ans: Answer, r: ExecutionResult) {
    && t.entries == s.entries[a.Key() := Entry(a.digest, Some(r))]
    && (exists mode :: t.effects == s.effects + [Effect(i, a.Key(), mode, Some(r))])
    && (cfg.attempts ==> a.executor in cfg.executors)
    && t.attempts == if !cfg.attempts then s.attempts
                     else
                       var record := Record(cfg, a, ans, if r.succeeded then Succeeded else Failed);
                       s.attempts[record.Id() := record]
  }

  /** A call for an unused key that is cleared and undisturbed executes once, stores what the executor
      returned, journals how it ended, and returns it; nothing else in the stores changes. */
  lemma UndisturbedCallExecutes(cfg: Config, s: State, i: nat, ans: Answer, r: ExecutionResult) returns (n: nat)
    requires Starts(s, i) && Smooth(cfg, s.calls[i].action, ans) && Executes(cfg, s.calls[i].action, ans, r)
    requires s.calls[i].Key() !in s.entries && forall id | id in s.attempts :: id.attemptId != ans.freshId
    ensures var t := After(cfg, s, Turns(i, ans, n));
            && OnlyCall(s, t, i) && t.calls[i].phase == Returned && t.calls[i].result == Some(r) && !t.calls[i].reused
            && Executed(cfg, s, t, i, s.calls[i].action, ans, r)
  {
    hide Leads, After;
    var w := Steady(ans);
    var t := ExecutingCallEnds(cfg, w, s, i);
    n := SteadyLeads(cfg, s, t, i, ans);
    assert t.effects == s.effects + [Effect(i, s.calls[i].Key(), HowInvoked(cfg, w), Some(r))];
  }

  /** A call for a key that holds the action's result returns that result and changes no store. */
  lemma UndisturbedCallReuses(cfg: Config, s: State, i: nat, ans: Answer, r: ExecutionResult) returns (n: nat)
    requires Starts(s, i) && Smooth(cfg, s.calls[i].action, ans) && Stored(cfg, s, s.calls[i].action, r)
    ensures var t := After(cfg, s, Turns(i, ans, n));
            && OnlyCall(s, t, i) && t.calls[i].phase == Returned && t.calls[i].result == Some(r) && t.calls[i].reused
            && t.entries == s.entries && t.effects == s.effects && t.attempts == s.attempts
  {
    hide Leads, After;
    var t := RepeatedCallEnds(cfg, Steady(ans), s, i);
    n := SteadyLeads(cfg, s, t, i, ans);
  }
}
