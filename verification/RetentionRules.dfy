/** When a governed resource may be deleted: retention policies, legal holds and the decision they give. */
module RetentionRules {
  import opened Common

  type Time = int // milliseconds

  const SECOND := 1000

  datatype Rule = Rule(resourceType: string, retainForSeconds: Option<nat>, graceSeconds: nat, deletionAllowed: bool)

  datatype Policy = Policy(
    policyId: nat, tenantId: string, revision: nat, effectiveAt: Time, defaultRetainForSeconds: Option<nat>,
    rules: seq<Rule>)

  datatype Candidate = Candidate(tenantId: string, resourceType: string, resourceId: string, createdAt: Time)

  datatype Hold = Hold(
    holdId: nat, tenantId: string, active: bool, resourceTypes: seq<string>, resourceIds: seq<string>, placedAt: Time)
  {
    /** Whether the resource is in the hold's scope, active or not. */
    predicate Covers(c: Candidate) {
      && tenantId == c.tenantId
      && (resourceTypes == [] || c.resourceType in resourceTypes)
      && (resourceIds == [] || c.resourceId in resourceIds)
    }

    predicate AppliesTo(c: Candidate) { active && Covers(c) }
  }

  type Holds = map<nat, Hold>

  datatype Disposition = Retain | Delete

  datatype Decision = Decision(
    disposition: Disposition, policyId: nat, policyRevision: nat, deleteNotBefore: Option<Time>, holdIds: set<nat>)

  /** `rule_for`: the first rule for the resource type. */
  function RuleFor(rules: seq<Rule>, resourceType: string): Option<Rule> {
    if rules == [] then None
    else if rules[0].resourceType == resourceType then Some(rules[0])
    else RuleFor(rules[1..], resourceType)
  }

  function MatchingHolds(holds: Holds, c: Candidate): set<nat> {
    set id | id in holds && holds[id].AppliesTo(c)
  }

  /** `_decision_for`; `None` when the candidate belongs to another tenant. */
  function DecisionFor(p: Policy, holds: Holds, c: Candidate, at: Time): Option<Decision> {
    if c.tenantId != p.tenantId then None
    else if MatchingHolds(holds, c) != {} then
      Some(Decision(Retain, p.policyId, p.revision, None, MatchingHolds(holds, c)))
    else
      var rule := RuleFor(p.rules, c.resourceType);
      if rule.Some? && !rule.value.deletionAllowed then Some(Decision(Retain, p.policyId, p.revision, None, {}))
      else
        var retainFor := if rule.Some? then rule.value.retainForSeconds else p.defaultRetainForSeconds;
        var grace := if rule.Some? then rule.value.graceSeconds else 0;
        if retainFor.None? then Some(Decision(Retain, p.policyId, p.revision, None, {}))
        else
          var notBefore := c.createdAt + (retainFor.value + grace) * SECOND;
          if at < notBefore then Some(Decision(Retain, p.policyId, p.revision, None, {}))
          else Some(Decision(Delete, p.policyId, p.revision, Some(notBefore), {}))
  }

  // ---------------------------------------------------------------- what the decision means

  predicate UnderHold(holds: Holds, c: Candidate) {
    exists id | id in holds :: holds[id].AppliesTo(c)
  }

  /** How long the policy keeps a resource of this type before it may go; `None` is for ever. */
  ghost predicate KeepsFor(p: Policy, resourceType: string, seconds: nat) {
    || (exists n | 0 <= n < |p.rules| ::
          && p.rules[n].resourceType == resourceType
          && (forall m | 0 <= m < n :: p.rules[m].resourceType != resourceType)
          && p.rules[n].deletionAllowed && p.rules[n].retainForSeconds.Some?
          && seconds == p.rules[n].retainForSeconds.value + p.rules[n].graceSeconds)
    || ((forall n | 0 <= n < |p.rules| :: p.rules[n].resourceType != resourceType)
        && p.defaultRetainForSeconds == Some(seconds))
  }

  ghost predicate Elapsed(p: Policy, c: Candidate, at: Time) {
    exists seconds: nat :: KeepsFor(p, c.resourceType, seconds) && c.createdAt + seconds * 1000 <= at
  }

  lemma {:induction false} RuleForIsFirst(rules: seq<Rule>, resourceType: string)
    ensures match RuleFor(rules, resourceType)
            case None => forall n | 0 <= n < |rules| :: rules[n].resourceType != resourceType
            case Some(rule) =>
              exists n | 0 <= n < |rules| ::
                rules[n] == rule && rule.resourceType == resourceType
                && forall m | 0 <= m < n :: rules[m].resourceType != resourceType
  {
    if rules != [] {
      if rules[0].resourceType == resourceType {
        assert rules[0] == RuleFor(rules, resourceType).value;
      } else {
        RuleForIsFirst(rules[1..], resourceType);
        if RuleFor(rules, resourceType).Some? {
          var rule := RuleFor(rules, resourceType).value;
          var n :| 0 <= n < |rules| - 1 && rules[1..][n] == rule && rule.resourceType == resourceType
                   && forall m | 0 <= m < n :: rules[1..][m].resourceType != resourceType;
          forall m | 0 <= m < n + 1 ensures rules[m].resourceType != resourceType {
            if m > 0 { assert rules[m] == rules[1..][m - 1]; }
          }
          assert rules[n + 1] == rule;
        } else {
          forall m | 0 <= m < |rules| ensures rules[m].resourceType != resourceType {
            if m > 0 { assert rules[m] == rules[1..][m - 1]; }
          }
        }
      }
    }
  }

  /** Deletion is decided exactly when no active hold covers the resource and its retention and grace have
      run out under a policy that lets its type go; a hold that applies is named by the decision. */
  lemma DecisionIsSound(p: Policy, holds: Holds, c: Candidate, at: Time)
    ensures var decision := DecisionFor(p, holds, c, at);
            && (decision.Some? <==> c.tenantId == p.tenantId)
            && (decision.Some? ==>
                  && decision.value.policyId == p.policyId && decision.value.policyRevision == p.revision
                  && (decision.value.disposition == Delete <==> !UnderHold(holds, c) && Elapsed(p, c, at))
                  && (forall id :: id in decision.value.holdIds <==> id in holds && holds[id].AppliesTo(c)))
  {
    RuleForIsFirst(p.rules, c.resourceType);
    assert UnderHold(holds, c) <==> MatchingHolds(holds, c) != {} by {
      if UnderHold(holds, c) {
        var id :| id in holds && holds[id].AppliesTo(c);
        assert id in MatchingHolds(holds, c);
      }
    }
    KeepsForIsUnique(p, c.resourceType);
    var rule := RuleFor(p.rules, c.resourceType);
    var retainFor := if rule.Some? then rule.value.retainForSeconds else p.defaultRetainForSeconds;
    if retainFor.Some? && (rule.Some? ==> rule.value.deletionAllowed) {
      assert KeepsFor(p, c.resourceType, retainFor.value + if rule.Some? then rule.value.graceSeconds else 0);
    }
  }

  lemma KeepsForIsUnique(p: Policy, resourceType: string)
    ensures forall a: nat, b: nat :: KeepsFor(p, resourceType, a) && KeepsFor(p, resourceType, b) ==> a == b
    ensures forall a: nat :: KeepsFor(p, resourceType, a) ==>
              var rule := RuleFor(p.rules, resourceType);
              if rule.Some? then
                rule.value.deletionAllowed && rule.value.retainForSeconds.Some?
                && a == rule.value.retainForSeconds.value + rule.value.graceSeconds
              else p.defaultRetainForSeconds == Some(a)
  {
    RuleForIsFirst(p.rules, resourceType);
  }

  // ---------------------------------------------------------------- the policy in force

  /** `_current_retention_policy` without future policies: latest effective, then highest revision. */
  function CurrentPolicy(policies: seq<Policy>, at: Time): Option<Policy> {
    if policies == [] then None
    else
      var last, rest := policies[|policies| - 1], CurrentPolicy(policies[..|policies| - 1], at);
      if last.effectiveAt <= at && (rest.None? || rest.value.effectiveAt <= last.effectiveAt) then Some(last) else rest
  }

  /** The history of a tenant's policies: revisions are 1, 2, 3, ... */
  ghost predicate RevisionsAscend(policies: seq<Policy>) {
    forall i | 0 <= i < |policies| :: policies[i].revision == i + 1
  }

  lemma {:induction false} CurrentPolicyIsLatest(policies: seq<Policy>, at: Time)
    requires RevisionsAscend(policies)
    ensures match CurrentPolicy(policies, at)
            case None => forall i | 0 <= i < |policies| :: at < policies[i].effectiveAt
            case Some(p) =>
              && p in policies && p.effectiveAt <= at
              && forall q | q in policies && q.effectiveAt <= at && q != p ::
                   q.effectiveAt < p.effectiveAt || (q.effectiveAt == p.effectiveAt && q.revision < p.revision)
  {
    if policies != [] {
      var last, rest := policies[|policies| - 1], policies[..|policies| - 1];
      assert policies == rest + [last];
      CurrentPolicyIsLatest(rest, at);
    }
  }
}
