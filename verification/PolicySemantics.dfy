/** The portable policy profiles: the default policy and conjunctive composition, as the Python and the
    TypeScript runtimes compute them. */
module PolicySemantics {
  import opened Common
  import opened Text

  datatype Outcome = Allow | RequireApproval | Deny

  function Rank(o: Outcome): nat {
    match o
    case Allow => 0
    case RequireApproval => 1
    case Deny => 2
  }

  datatype Decision<V> = Decision(
    engine: string, outcome: Outcome, reasons: seq<string>, roles: seq<string>, constraints: map<string, V>)

  datatype Result<V> = Result(outcome: Outcome, reasons: seq<string>, roles: seq<string>, constraints: map<string, V>)

  // ---------------------------------------------------------------- the default policy

  datatype EffectClass = Read | Write | Destructive | Privileged

  datatype RiskClass = Low | Medium | High | Critical

  function DefaultPolicy<V>(effect: EffectClass, risk: RiskClass): Result<V> {
    if effect == Privileged && risk == Critical then
      Result(Deny, ["critical_privileged_action_denied_by_default"], [], map[])
    else if effect in {Write, Destructive, Privileged} || risk in {High, Critical} then
      Result(RequireApproval, ["side_effect_requires_exact_approval"], ["production_approver"], map[])
    else Result(Allow, ["low_risk_action_allowed"], [], map[])
  }

  function Severity(e: EffectClass): nat {
    match e
    case Read => 0
    case Write => 1
    case Destructive => 2
    case Privileged => 3
  }

  function Exposure(r: RiskClass): nat {
    match r
    case Low => 0
    case Medium => 1
    case High => 2
    case Critical => 3
  }

  /** A graver effect or a higher risk never gets a milder outcome. */
  lemma DefaultPolicyIsMonotone(e: EffectClass, r: RiskClass, graver: EffectClass, higher: RiskClass)
    requires Severity(e) <= Severity(graver) && Exposure(r) <= Exposure(higher)
    ensures Rank(DefaultPolicy<int>(e, r).outcome) <= Rank(DefaultPolicy<int>(graver, higher).outcome)
  {
  }

  /** The gravest effect at the highest risk is denied; any other effect but a read, and any high risk, needs the
      approval of the production approver; the rest is allowed. */
  lemma DefaultPolicyIs(e: EffectClass, r: RiskClass)
    ensures var result := DefaultPolicy<int>(e, r);
            && (result.outcome == Deny <==> Severity(e) == 3 && Exposure(r) == 3)
            && (result.outcome == Allow <==> Severity(e) == 0 && Exposure(r) < 2)
            && (result.outcome == RequireApproval <==> result.roles == ["production_approver"])
            && (result.outcome != RequireApproval ==> result.roles == [])
            && result.constraints == map[] && |result.reasons| == 1
  {
  }

  // ---------------------------------------------------------------- sorted, unique names

  function InsertName(name: string, names: seq<string>): seq<string> {
    if names == [] || Less(name, names[0]) then [name] + names
    else if name == names[0] then names
    else [names[0]] + InsertName(name, names[1..])
  }

  /** `sorted(set(names))`. */
  function SortedUnique(names: seq<string>): seq<string> {
    if names == [] then [] else InsertName(names[|names| - 1], SortedUnique(names[..|names| - 1]))
  }

  ghost predicate Ascending(names: seq<string>) {
    forall i, j | 0 <= i < j < |names| :: Less(names[i], names[j])
  }

  lemma {:induction false} InsertNameIs(name: string, names: seq<string>)
    requires Ascending(names)
    ensures Ascending(InsertName(name, names))
    ensures forall n :: n in InsertName(name, names) <==> n == name || n in names
  {
    if names != [] {
      LessTotal(name, names[0]);
      if Less(name, names[0]) {
        forall j | 0 < j < |names| ensures Less(name, names[j]) { LessTransitive(name, names[0], names[j]); }
      } else if name != names[0] {
        InsertNameIs(name, names[1..]);
        var rest := InsertName(name, names[1..]);
        forall j | 0 <= j < |rest| ensures Less(names[0], rest[j]) {
          assert rest[j] == name || rest[j] in names[1..];
        }
      }
    }
  }

  lemma {:induction false} SortedUniqueIs(names: seq<string>)
    ensures Ascending(SortedUnique(names))
    ensures forall n :: n in SortedUnique(names) <==> n in names
  {
    if names != [] {
      var rest, last := names[..|names| - 1], names[|names| - 1];
      assert names == rest + [last];
      SortedUniqueIs(rest);
      InsertNameIs(last, SortedUnique(rest));
    }
  }

  /** Ascending lists of the same names are the same list. */
  lemma {:induction false} AscendingIsUnique(a: seq<string>, b: seq<string>)
    requires Ascending(a) && Ascending(b) && forall n :: n in a <==> n in b
    ensures a == b
    decreases |a|
  {
    assert a != [] ==> a[0] in a;
    assert b != [] ==> b[0] in b;
    if a != [] {
      var i :| 0 <= i < |a| && a[i] == b[0];
      var j :| 0 <= j < |b| && b[j] == a[0];
      if i > 0 && j > 0 { LessAsymmetric(a[0], b[0]); }
      forall n ensures n in a[1..] <==> n in b[1..] {
        LessIrreflexive(a[0]);
        assert n in a <==> n == a[0] || n in a[1..];
        assert n in b <==> n == b[0] || n in b[1..];
      }
      AscendingIsUnique(a[1..], b[1..]);
    }
  }

  // ---------------------------------------------------------------- composition

  /** How a runtime compares constraint values: `==` in Python, `===` in TypeScript. */
  type Same<!V> = (V, V) -> bool

  datatype Merged<V> = Merged(values: map<string, V>, conflicts: set<string>)

  predicate Clashes<V>(same: Same<V>, values: map<string, V>, key: string, v: V) {
    key in values && !same(values[key], v)
  }

  /** One decision's constraints merged into those before it. */
  function Merge<V>(same: Same<V>, m: Merged<V>, c: map<string, V>): Merged<V> {
    Merged(
      map k | k in m.values.Keys + c.Keys ::
        if k in c && !Clashes(same, m.values, k, c[k]) then c[k] else m.values[k],
      m.conflicts + set k | k in c && Clashes(same, m.values, k, c[k]))
  }

  function MergeAll<V>(same: Same<V>, ds: seq<Decision<V>>): Merged<V> {
    if ds == [] then Merged(map[], {})
    else Merge(same, MergeAll(same, ds[..|ds| - 1]), ds[|ds| - 1].constraints)
  }

  function Strictest<V>(ds: seq<Decision<V>>): Outcome {
    if ds == [] then Allow
    else
      var rest, last := Strictest(ds[..|ds| - 1]), ds[|ds| - 1].outcome;
      if Rank(last) > Rank(rest) then last else rest
  }

  function Prefixed(engine: string, reasons: seq<string>): seq<string> {
    seq(|reasons|, i requires 0 <= i < |reasons| => engine + ":" + reasons[i])
  }

  function AllReasons<V>(ds: seq<Decision<V>>): seq<string> {
    if ds == [] then []
    else AllReasons(ds[..|ds| - 1]) + Prefixed(ds[|ds| - 1].engine, ds[|ds| - 1].reasons)
  }

  function AllRoles<V>(ds: seq<Decision<V>>): seq<string> {
    if ds == [] then [] else AllRoles(ds[..|ds| - 1]) + ds[|ds| - 1].roles
  }

  /** The names of a set, in order. */
  ghost function Sorted(names: set<string>): (r: seq<string>)
    ensures Ascending(r) && forall n :: n in r <==> n in names
  {
    if names == {} then []
    else
      var n :| n in names;
      InsertNameIs(n, Sorted(names - {n}));
      InsertName(n, Sorted(names - {n}))
  }

  function ConflictReasons(keys: seq<string>): seq<string> {
    seq(|keys|, i requires 0 <= i < |keys| => "constraint_conflict:" + keys[i])
  }

  /** `combine_policy_semantics`; for `combinePolicySemantics`, see `PolicyRuntimes.Visible`. */
  ghost function Combine<V>(same: Same<V>, ds: seq<Decision<V>>): Result<V> {
    var merged := MergeAll(same, ds);
    var reasons := AllReasons(ds) + ConflictReasons(Sorted(merged.conflicts));
    Result(
      if merged.conflicts != {} then Deny else Strictest(ds),
      if reasons == [] then ["all_policy_engines_returned_no_reason"] else reasons,
      SortedUnique(AllRoles(ds)),
      merged.values)
  }
}
