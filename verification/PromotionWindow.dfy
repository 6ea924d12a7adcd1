/** How long a planned restore may be promoted: grants are short, so that a plan has an hour and no more. */
module PromotionWindow {
  import opened Common
  import opened Recovery
  import opened PromotionTargets
  import opened PromotionReach

  const HOUR := 3_600_000

  /** No grant outlives the clock by more than an hour, nor a plan made under it. */
  ghost predicate Short(s: State, clock: Time) {
    && (forall p | p in s.profiles :: p.maxBreakGlassSeconds <= LONGEST_GRANT)
    && (forall g | g in s.grants :: s.grants[g].expiresAt <= clock + HOUR)
    && (forall r | r in s.plans :: PlanShort(s, s.plans[r]))
  }

  predicate PlanShort(s: State, plan: Plan) {
    plan.grantId in s.grants && s.grants[plan.grantId].expiresAt <= plan.failureDetectedAt + HOUR
  }

  lemma {:induction false} ActiveIsPublished(profiles: seq<Profile>, at: Time)
    ensures ActiveProfile(profiles, at).Some? ==> ActiveProfile(profiles, at).value in profiles
  {
    if profiles != [] { ActiveIsPublished(profiles[..|profiles| - 1], at); }
  }

  lemma IssuingKeepsShort(s: State, id: nat, operator: Actor, capabilities: set<Capability>, ttlSeconds: int,
                          approver: Actor, now: Time)
    requires Short(s, now)
    ensures Short(IssueStep(s, id, operator, capabilities, ttlSeconds, approver, now), now)
  {
    hide ActiveProfile;
    ActiveIsPublished(s.profiles, now);
  }

  lemma PlanningKeepsShort(s: State, r: nat, backupId: nat, grantId: nat, actor: Actor, now: Time)
    requires Short(s, now)
    ensures Short(PlanStep(s, r, backupId, grantId, actor, now), now)
  {
    hide ActiveProfile;
  }

  lemma StepKeepsShort(s: State, op: Op, actor: Actor, clock: Time, now: Time)
    requires Short(s, clock) && clock <= now
    ensures Short(Step(s, op, actor, now), now)
  {
    hide PlanStep, IssueStep;
    assert Short(s, now);
    match op
    case PublishProfile(_) =>
    case IssueGrant(id, operator, capabilities, ttl) =>
      IssuingKeepsShort(s, id, operator, capabilities, ttl, actor, now);
    case PlanRestore(r, b, g) => PlanningKeepsShort(s, r, b, g, actor, now);
    case _ =>
      hide Step;
      StepShaped(s, op, actor, now);
  }

  lemma {:induction false} AfterKeepsShort(s: State, run: seq<Event>, from: Time, until: Time)
    requires Short(s, from) && Timed(run, from, until)
    ensures Short(After(s, run), until)
    decreases |run|
  {
    hide Step;
    if run != [] {
      hide Short;
      var e := run[0];
      StepKeepsShort(s, e.op, e.actor, from, e.now);
      AfterKeepsShort(Step(s, e.op, e.actor, e.now), run[1..], e.now, until);
    }
  }

  lemma ReachableShort(s: State, now: Time)
    requires Reachable(s, now)
    ensures Short(s, now)
  {
    hide Timed, After;
    var run, from :| Timed(run, from, now) && After(EMPTY, run) == s;
    AfterKeepsShort(EMPTY, run, from, now);
  }

  /** A restore is completed, and so promoted, within an hour of its plan. */
  lemma CompletedWithinTheHour(s: State, e: Event, r: nat)
    requires Reachable(s, e.now) && Completes(s, e, r)
    ensures r in s.plans && e.now < s.plans[r].failureDetectedAt + HOUR
  {
    hide Reachable, Step, Completes;
    ReachableShort(s, e.now);
    OnlyCompletionCompletes(s, e, r);
    CompletionRecords(s, e, r);
  }

  /** An hour after its plan, a restore without a result is out of reach of promotion. */
  lemma OldPlansAreDead(s: State, r: nat, now: Time)
    requires Reachable(s, now) && r in s.plans && r !in s.results
    requires s.plans[r].failureDetectedAt + HOUR <= now
    ensures !CanPromote(s, r, now)
  {
    hide Reachable, CanPromote, ObjectivesOpen, RecordsOpen, GapOpen, ScanVerified;
    ReachableShort(s, now);
    PromotableExactlyWhen(s, r, now);
  }
}
