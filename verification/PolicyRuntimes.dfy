/** Policy composition in the two runtimes: JavaScript numbers and the JavaScript record the TypeScript loop
    collects constraints in, and exactly when the runtimes reach different outcomes. */
module PolicyRuntimes {
  import opened Common
  import opened PolicySemantics
  import opened PolicyProofs

  // ---------------------------------------------------------------- constraint values

  /** `Number` is a whole number, integer or float, `Fraction` a finite binary float that is none, named by its
      bits, and `Infinity` the float that both runtimes read from `1e400` or `-1e400`. */
  datatype Constraint =
    | Text(text: string)
    | Number(number: int)
    | Fraction(bits: nat)
    | Infinity(negative: bool)
    | Truth(truth: bool)
    | Absent

  type Decided = Decision<Constraint>

  const TWO_TO_53 := 9_007_199_254_740_992
  const MAX_EXTRA_BITS := 971

  function Pow2(n: nat): (p: nat)
    ensures p > 0
  {
    if n == 0 then 1 else 2 * Pow2(n - 1)
  }

  /** How many low bits a double cannot hold. */
  function ExtraBits(m: nat): nat {
    if m < TWO_TO_53 then 0 else 1 + ExtraBits(m / 2)
  }

  /** To 53 significant bits, to nearest, ties to even. */
  function RoundMagnitude(m: nat): nat {
    var unit := Pow2(ExtraBits(m));
    var whole, rest := m / unit, m % unit;
    (if 2 * rest > unit || (2 * rest == unit && whole % 2 == 1) then whole + 1 else whole) * unit
  }

  datatype Double = Finite(value: int) | Infinite(negative: bool)

  /** The double that JavaScript holds for a whole number. */
  function AsDouble(n: int): Double {
    var m: int := RoundMagnitude(if n < 0 then -n else n);
    if ExtraBits(m) > MAX_EXTRA_BITS then Infinite(n < 0) else Finite(if n < 0 then -m else m)
  }

  /** Numbers below 2 to the 53rd are held exactly. */
  lemma SafeNumbersAreExact(n: int)
    requires -TWO_TO_53 < n < TWO_TO_53
    ensures AsDouble(n) == Finite(n)
  {
    assert Pow2(0) == 1;
  }

  lemma {:induction false} ExtraBitsOfPower(k: nat)
    ensures ExtraBits(TWO_TO_53 * Pow2(k)) == k + 1
  {
    if k == 0 {
      assert ExtraBits(TWO_TO_53) == 1 + ExtraBits(TWO_TO_53 / 2);
    } else {
      ExtraBitsOfPower(k - 1);
      assert TWO_TO_53 * Pow2(k) == 2 * (TWO_TO_53 * Pow2(k - 1)) >= TWO_TO_53;
    }
  }

  lemma Divides(whole: nat, unit: nat)
    requires unit > 0
    ensures (whole * unit) / unit == whole && (whole * unit) % unit == 0
  {
    var n := whole * unit;
    var quotient, rest := n / unit, n % unit;
    assert n == quotient * unit + rest;
    AtLeastOnce(whole - quotient, unit);
  }

  lemma AtLeastOnce(times: int, unit: nat)
    ensures times > 0 ==> times * unit >= unit
    ensures times < 0 ==> times * unit <= -1 * unit
  {
  }

  /** From 2 to the 1024th on, powers of two are past every double. */
  lemma LargePowersOverflow(k: nat)
    requires k >= MAX_EXTRA_BITS
    ensures AsDouble(TWO_TO_53 * Pow2(k)) == Infinite(false)
  {
    var m := TWO_TO_53 * Pow2(k);
    ExtraBitsOfPower(k);
    var unit := Pow2(k + 1);
    assert m == (TWO_TO_53 / 2) * unit by { assert unit == 2 * Pow2(k); }
    Divides(TWO_TO_53 / 2, unit);
    assert RoundMagnitude(m) == m;
  }

  function TruthNumber(truth: bool): int { if truth then 1 else 0 }

  /** Python's `==`, under which `True` equals 1 and `False` equals 0, and no integer equals an infinity. */
  function PythonSame(a: Constraint, b: Constraint): bool {
    if a.Truth? && b.Number? then b.number == TruthNumber(a.truth)
    else if a.Number? && b.Truth? then a.number == TruthNumber(b.truth)
    else a == b
  }

  /** A whole number, which JavaScript rounds, or an infinity, to which it rounds what is past its range. */
  predicate Roundable(c: Constraint) { c.Number? || c.Infinity? }

  function HeldAs(c: Constraint): Double
    requires Roundable(c)
  {
    if c.Number? then AsDouble(c.number) else Infinite(c.negative)
  }

  predicate OneDouble(a: Constraint, b: Constraint) { Roundable(a) && Roundable(b) && HeldAs(a) == HeldAs(b) }

  /** JavaScript's `===`. */
  function TypeScriptSame(a: Constraint, b: Constraint): bool { a == b || OneDouble(a, b) }

  lemma BothAreEquivalences()
    ensures Equivalence(PythonSame) && Equivalence(TypeScriptSame)
  {
    hide AsDouble;
  }

  // ---------------------------------------------------------------- a JavaScript record

  const PROTO := "__proto__"

  /** An object that started as `{}`: its own properties, and whether its prototype was set to null. */
  datatype Record = Record(own: map<string, Constraint>, bare: bool)

  /** `record[key] = value`. Unless the record is bare or has such a property of its own, assigning to
      `__proto__` calls the inherited setter: null makes the record bare, any other primitive is ignored. */
  function Assign(record: Record, key: string, value: Constraint): Record {
    if key == PROTO && key !in record.own && !record.bare then record.(bare := value.Absent?)
    else record.(own := record.own[key := value])
  }

  predicate SetsNull(c: map<string, Constraint>) {
    PROTO in c && c[PROTO].Absent?
  }

  /** Some decision gives null under `__proto__`. */
  predicate Bare(ds: seq<Decided>) {
    exists i | 0 <= i < |ds| :: SetsNull(ds[i].constraints)
  }

  /** What assigning all of `c` stores. */
  function Stored(c: map<string, Constraint>, bare: bool): map<string, Constraint> {
    if bare then c else c - {PROTO}
  }

  /** The decisions with the constraints that reach the record. */
  function Visible(ds: seq<Decided>): (vs: seq<Decided>)
    ensures |vs| == |ds|
    ensures forall i | 0 <= i < |ds| :: vs[i] == ds[i].(constraints := Stored(ds[i].constraints, Bare(ds[..i])))
  {
    if ds == [] then []
    else
      var n := |ds| - 1;
      assert forall i | 0 <= i < n :: ds[..n][..i] == ds[..i];
      Visible(ds[..n]) + [ds[n].(constraints := Stored(ds[n].constraints, Bare(ds[..n])))]
  }

  lemma VisibleGrows(ds: seq<Decided>, d: Decided)
    ensures Visible(ds + [d]) == Visible(ds) + [d.(constraints := Stored(d.constraints, Bare(ds)))]
    ensures Bare(ds + [d]) <==> Bare(ds) || SetsNull(d.constraints)
  {
    assert (ds + [d])[..|ds|] == ds;
    assert Bare(ds) ==> Bare(ds + [d]) by {
      if Bare(ds) {
        var i :| 0 <= i < |ds| && SetsNull(ds[i].constraints);
        assert (ds + [d])[i] == ds[i];
      }
    }
    assert SetsNull(d.constraints) ==> Bare(ds + [d]) by { assert (ds + [d])[|ds|] == d; }
  }

  /** What the record and the conflicts are to hold once only the keys in `left` remain to be assigned. */
  ghost function Progress(record: Record, conflicts: set<string>, c: map<string, Constraint>, left: set<string>)
    : Merged<Constraint>
  {
    var stored := Stored(c, record.bare);
    Merge(TypeScriptSame, Merged(record.own, conflicts), Part(stored, left * stored.Keys))
  }

  lemma ProgressStarts(record: Record, conflicts: set<string>, c: map<string, Constraint>)
    ensures Progress(record, conflicts, c, c.Keys) == Merged(record.own, conflicts)
    ensures Progress(record, conflicts, c, {})
         == Merge(TypeScriptSame, Merged(record.own, conflicts), Stored(c, record.bare))
  {
    hide Merge, Part;
    var stored := Stored(c, record.bare);
    MergeNone(TypeScriptSame, Merged(record.own, conflicts), stored);
    assert c.Keys * stored.Keys == stored.Keys && {} * stored.Keys == {};
  }

  lemma ProgressSteps(record: Record, conflicts: set<string>, c: map<string, Constraint>, left: set<string>,
                      key: string)
    requires key in left && left <= c.Keys
    ensures var so, next := Progress(record, conflicts, c, left), Progress(record, conflicts, c, left - {key});
            if key !in Stored(c, record.bare) then next == so
            else if key in so.values && !TypeScriptSame(so.values[key], c[key])
            then next == Merged(so.values, so.conflicts + {key})
            else next == Merged(so.values[key := c[key]], so.conflicts)
  {
    hide Merge, Part, TypeScriptSame;
    var stored := Stored(c, record.bare);
    if key in stored {
      MergeOneMore(TypeScriptSame, Merged(record.own, conflicts), stored, left * stored.Keys, key);
      assert (left - {key}) * stored.Keys == left * stored.Keys - {key};
    } else {
      assert (left - {key}) * stored.Keys == left * stored.Keys;
    }
  }

  /** The entries of a decision's record, assigned one by one in whatever order they are listed. */
  method MergeEntries(record: Record, conflicts: set<string>, c: map<string, Constraint>)
    returns (next: Record, newConflicts: set<string>)
    requires PROTO in record.own ==> record.bare
    ensures PROTO in next.own ==> next.bare
    ensures next.bare <==> record.bare || SetsNull(c)
    ensures Merged(next.own, newConflicts)
         == Merge(TypeScriptSame, Merged(record.own, conflicts), Stored(c, record.bare))
  {
    hide Progress, Merge, TypeScriptSame;
    next, newConflicts := record, conflicts;
    var left := c.Keys;
    ProgressStarts(record, conflicts, c);
    while left != {}
      invariant left <= c.Keys
      invariant next.bare <==> record.bare || (PROTO !in left && SetsNull(c))
      invariant PROTO in next.own ==> record.bare
      invariant Merged(next.own, newConflicts) == Progress(record, conflicts, c, left)
      decreases |left|
    {
      var key :| key in left;
      var value := c[key];
      ProgressSteps(record, conflicts, c, left, key);
      if key in next.own && !TypeScriptSame(next.own[key], value) {
        newConflicts := newConflicts + {key};
      } else {
        next := Assign(next, key, value);
      }
      left := left - {key};
    }
  }

  /** What one more decision does to the parts of the composition. */
  lemma OneMoreDecision(ds: seq<Decided>, d: Decided)
    ensures var vs, more, c := Visible(ds), Visible(ds + [d]), Stored(d.constraints, Bare(ds));
            && Strictest(more) == (if Rank(d.outcome) > Rank(Strictest(vs)) then d.outcome else Strictest(vs))
            && AllReasons(more) == AllReasons(vs) + Prefixed(d.engine, d.reasons)
            && AllRoles(more) == AllRoles(vs) + d.roles
            && MergeAll(TypeScriptSame, more) == Merge(TypeScriptSame, MergeAll(TypeScriptSame, vs), c)
    ensures Bare(ds + [d]) <==> Bare(ds) || SetsNull(d.constraints)
  {
    hide Merge, Prefixed, Stored, Bare, SetsNull, Visible;
    VisibleGrows(ds, d);
    var seen := d.(constraints := Stored(d.constraints, Bare(ds)));
    assert (Visible(ds) + [seen])[..|ds|] == Visible(ds);
  }

  /** `combinePolicySemantics`: one loop over the decisions updates everything. */
  method CombineTypeScript(ds: seq<Decided>) returns (r: Option<Result<Constraint>>)
    ensures r.None? <==> ds == []
    ensures r.Some? ==> r.value == Combine(TypeScriptSame, Visible(ds))
  {
    hide Merge, MergeAll, Prefixed, SortedUnique, Stored, Bare, SetsNull, TypeScriptSame, Strictest, AllReasons,
         AllRoles, Visible;
    if ds == [] {
      return None;
    }
    var outcome, reasons, roles := Allow, [], [];
    var constraints, conflicts: set<string> := Record(map[], false), {};
    NothingVisible();
    for i := 0 to |ds|
      invariant outcome == Strictest(Visible(ds[..i]))
      invariant reasons == AllReasons(Visible(ds[..i])) && roles == AllRoles(Visible(ds[..i]))
      invariant constraints.bare == Bare(ds[..i]) && (PROTO in constraints.own ==> constraints.bare)
      invariant Merged(constraints.own, conflicts) == MergeAll(TypeScriptSame, Visible(ds[..i]))
    {
      assert ds[..i + 1] == ds[..i] + [ds[i]];
      OneMoreDecision(ds[..i], ds[i]);
      if Rank(ds[i].outcome) > Rank(outcome) {
        outcome := ds[i].outcome;
      }
      reasons := reasons + Prefixed(ds[i].engine, ds[i].reasons);
      roles := roles + ds[i].roles;
      constraints, conflicts := MergeEntries(constraints, conflicts, ds[i].constraints);
    }
    assert ds[..|ds|] == ds;
    var sorted := SortNames(conflicts);
    AscendingIsUnique(sorted, Sorted(conflicts));
    if |conflicts| > 0 {
      outcome := Deny;
      reasons := reasons + ConflictReasons(sorted);
    } else {
      assert reasons + ConflictReasons(sorted) == reasons;
    }
    return Some(Result(outcome, if |reasons| > 0 then reasons else ["all_policy_engines_returned_no_reason"],
                       SortedUnique(roles), constraints.own));
  }

  lemma NothingVisible()
    ensures !Bare([]) && Visible([]) == [] && MergeAll(TypeScriptSame, Visible([])) == Merged(map[], {})
    ensures Strictest(Visible([])) == Allow && AllReasons(Visible([])) == [] && AllRoles(Visible([])) == []
  {
  }

  // ---------------------------------------------------------------- what the TypeScript loop sees

  /** The values two decisions give a key, in one of the decisions' lists. */
  predicate BothGive(ds: seq<Decided>, i: nat, j: nat, key: string) {
    i < |ds| && j < |ds| && key in ds[i].constraints && key in ds[j].constraints
  }

  predicate Apart(same: Same<Constraint>, ds: seq<Decided>, i: nat, j: nat, key: string) {
    BothGive(ds, i, j, key) && !same(ds[i].constraints[key], ds[j].constraints[key])
  }

  lemma DisagreementIs(same: Same<Constraint>, ds: seq<Decided>)
    ensures SomeDisagreement(same, ds) <==> exists i, j, key :: Apart(same, ds, i, j, key)
  {
    if SomeDisagreement(same, ds) {
      var key :| DisagreeOn(same, ds, key);
      var i, j :| 0 <= i < |ds| && 0 <= j < |ds| && key in ds[i].constraints && key in ds[j].constraints
                  && !same(ds[i].constraints[key], ds[j].constraints[key]);
      assert Apart(same, ds, i, j, key);
    }
    if i, j, key :| Apart(same, ds, i, j, key) { assert DisagreeOn(same, ds, key); }
  }

  /** Decision `i`'s constraint for the key reaches the record. */
  predicate Shown(ds: seq<Decided>, i: nat, key: string)
    requires i < |ds|
  {
    key != PROTO || Bare(ds[..i])
  }

  lemma ApartWhenVisible(ds: seq<Decided>, i: nat, j: nat, key: string)
    ensures Apart(TypeScriptSame, Visible(ds), i, j, key)
       <==> Apart(TypeScriptSame, ds, i, j, key) && Shown(ds, i, key) && Shown(ds, j, key)
  {
    hide Bare, TypeScriptSame;
  }

  /** A truth value and the number it equals in Python. */
  predicate IsMix(a: Constraint, b: Constraint) {
    a.Truth? && b.Number? && b.number == TruthNumber(a.truth)
  }

  predicate MixedAt(ds: seq<Decided>, i: nat, j: nat, key: string) {
    BothGive(ds, i, j, key) && IsMix(ds[i].constraints[key], ds[j].constraints[key])
    && Shown(ds, i, key) && Shown(ds, j, key)
  }

  /** Some key is given, where the record takes it, as a truth value by one decision and as the number equal
      to it by another. */
  ghost predicate Mixed(ds: seq<Decided>) {
    exists i, j, key :: MixedAt(ds, i, j, key)
  }

  /** TypeScript cannot tell the two constraints apart: it ignored one of them, or holds both as one double. */
  predicate Overlooked(ds: seq<Decided>, i: nat, j: nat, key: string)
    requires BothGive(ds, i, j, key)
  {
    || !Shown(ds, i, key) || !Shown(ds, j, key)
    || OneDouble(ds[i].constraints[key], ds[j].constraints[key])
  }

  /** Every conflict Python sees is overlooked. */
  ghost predicate AllOverlooked(ds: seq<Decided>) {
    forall i, j, key | Apart(PythonSame, ds, i, j, key) :: Overlooked(ds, i, j, key)
  }

  lemma TypeScriptConflicts(ds: seq<Decided>)
    ensures SomeDisagreement(TypeScriptSame, Visible(ds)) <==> Mixed(ds) || !AllOverlooked(ds)
  {
    hide Bare, AsDouble, SomeDisagreement, Visible, Shown;
    DisagreementIs(TypeScriptSame, Visible(ds));
    if i, j, key :| Apart(TypeScriptSame, Visible(ds), i, j, key) {
      ApartWhenVisible(ds, i, j, key);
      assert Apart(PythonSame, ds, i, j, key) || MixedAt(ds, i, j, key) || MixedAt(ds, j, i, key);
    }
    if i, j, key :| MixedAt(ds, i, j, key) {
      ApartWhenVisible(ds, i, j, key);
    }
    if i, j, key :| Apart(PythonSame, ds, i, j, key) && !Overlooked(ds, i, j, key) {
      ApartWhenVisible(ds, i, j, key);
    }
  }

  // ---------------------------------------------------------------- when the runtimes differ

  ghost function PythonOutcome(ds: seq<Decided>): Outcome { Combine(PythonSame, ds).outcome }

  ghost function TypeScriptOutcome(ds: seq<Decided>): Outcome { Combine(TypeScriptSame, Visible(ds)).outcome }

  /** Without a denial or a disagreement both outcomes are the strictest of the decisions' own. */
  lemma OutcomesAre(ds: seq<Decided>)
    requires ds != []
    ensures PythonOutcome(ds) == Deny <==> SomeDeny(ds) || SomeDisagreement(PythonSame, ds)
    ensures TypeScriptOutcome(ds) == Deny <==> SomeDeny(ds) || SomeDisagreement(TypeScriptSame, Visible(ds))
    ensures PythonOutcome(ds) != Deny ==> PythonOutcome(ds) == Strictest(ds)
    ensures TypeScriptOutcome(ds) != Deny ==> TypeScriptOutcome(ds) == Strictest(ds)
  {
    hide SomeDisagreement, MergeAll, Sorted, AllReasons, AllRoles, Equivalence, PythonSame, TypeScriptSame;
    BothAreEquivalences();
    OutcomeIs(PythonSame, ds);
    OutcomeIs(TypeScriptSame, Visible(ds));
    assert SomeDeny(Visible(ds)) <==> SomeDeny(ds);
    StrictestVisible(ds);
  }

  lemma {:induction false} StrictestVisible(ds: seq<Decided>)
    ensures Strictest(Visible(ds)) == Strictest(ds)
  {
    if ds != [] {
      var n := |ds| - 1;
      assert Visible(ds)[..n] == Visible(ds[..n]);
      StrictestVisible(ds[..n]);
    }
  }

  /** The runtimes reach different outcomes exactly when no decision denies, and either Python sees no conflict
      and TypeScript one, between a truth value and its number, or Python sees conflicts and TypeScript none:
      each is over a value its record ignored or between numbers that are one double, an infinity among them if
      need be, and nothing is mixed. */
  lemma RuntimesDifferWhen(ds: seq<Decided>)
    requires ds != []
    ensures PythonOutcome(ds) != TypeScriptOutcome(ds) <==>
              && !SomeDeny(ds)
              && if SomeDisagreement(PythonSame, ds) then AllOverlooked(ds) && !Mixed(ds) else Mixed(ds)
  {
    hide PythonOutcome, TypeScriptOutcome, SomeDeny, Mixed, Overlooked, Strictest, SomeDisagreement;
    OutcomesAre(ds);
    TypeScriptConflicts(ds);
    DisagreementIs(PythonSame, ds);
  }

  /** Every whole number is one that JavaScript calls safe, and no key is `__proto__`. */
  predicate Portable(ds: seq<Decided>) {
    forall i | 0 <= i < |ds| ::
      && PROTO !in ds[i].constraints
      && forall key | key in ds[i].constraints ::
           ds[i].constraints[key].Number? ==> -TWO_TO_53 < ds[i].constraints[key].number < TWO_TO_53
  }

  /** On portable constraints the two loops compute compositions that differ in outcome exactly when a key mixes
      a truth value with its number, no decision denies, and no key differs in Python's eyes. */
  lemma RuntimesAgreeUnlessMixed(ds: seq<Decided>)
    requires ds != [] && Portable(ds)
    ensures Visible(ds) == ds
    ensures PythonOutcome(ds) != TypeScriptOutcome(ds)
       <==> Mixed(ds) && !SomeDeny(ds) && !SomeDisagreement(PythonSame, ds)
  {
    hide PythonOutcome, TypeScriptOutcome, SomeDeny, Mixed, SomeDisagreement, Bare, AsDouble;
    RuntimesDifferWhen(ds);
    DisagreementIs(PythonSame, ds);
    if i: nat, j: nat, key :| Apart(PythonSame, ds, i, j, key) && Overlooked(ds, i, j, key) {
      SafeIsExact(ds[i].constraints[key]);
      SafeIsExact(ds[j].constraints[key]);
    }
    PlainIsVisible(ds);
  }

  lemma SafeIsExact(c: Constraint)
    requires c.Number? ==> -TWO_TO_53 < c.number < TWO_TO_53
    ensures c.Number? ==> AsDouble(c.number) == Finite(c.number)
  {
    hide AsDouble;
    if c.Number? { SafeNumbersAreExact(c.number); }
  }

  lemma PlainIsVisible(ds: seq<Decided>)
    requires forall i | 0 <= i < |ds| :: PROTO !in ds[i].constraints
    ensures Visible(ds) == ds
  {
    hide Bare, Visible;
    var vs := Visible(ds);
    forall i | 0 <= i < |ds| ensures vs[i] == ds[i] {
      StoredPlain(ds[i].constraints, Bare(ds[..i]));
    }
  }

  lemma StoredPlain(c: map<string, Constraint>, bare: bool)
    requires PROTO !in c
    ensures Stored(c, bare) == c
  {
  }

  function Give(key: string, value: Constraint): Decided {
    Decision("engine", Allow, [], [], map[key := value])
  }

  lemma {:induction false} NoDenials(ds: seq<Decided>)
    requires forall d | d in ds :: d.outcome == Allow
    ensures !SomeDeny(ds) && Strictest(ds) == Allow
  {
    if ds != [] { NoDenials(ds[..|ds| - 1]); }
  }

  /** `true` and 1 for one key: one constraint in Python, a conflict in TypeScript. */
  lemma MixedExample()
    ensures var ds := [Give("k", Truth(true)), Give("k", Number(1))];
            PythonOutcome(ds) == Allow && TypeScriptOutcome(ds) == Deny
  {
    hide AsDouble, PythonOutcome, TypeScriptOutcome, SomeDisagreement;
    var ds := [Give("k", Truth(true)), Give("k", Number(1))];
    assert MixedAt(ds, 0, 1, "k");
    NoDenials(ds);
    OutcomesAre(ds);
    TypeScriptConflicts(ds);
    DisagreementIs(PythonSame, ds);
  }

  /** 1 and 2 under `__proto__`: a conflict in Python; TypeScript stores neither. */
  lemma IgnoredExample()
    ensures var ds := [Give(PROTO, Number(1)), Give(PROTO, Number(2))];
            PythonOutcome(ds) == Deny && TypeScriptOutcome(ds) == Allow
  {
    hide AsDouble, PythonOutcome, TypeScriptOutcome, SomeDisagreement;
    var ds := [Give(PROTO, Number(1)), Give(PROTO, Number(2))];
    assert Apart(PythonSame, ds, 0, 1, PROTO);
    assert forall i | 0 <= i < 2 :: !Shown(ds, i, PROTO);
    NoDenials(ds);
    OutcomesAre(ds);
    TypeScriptConflicts(ds);
    DisagreementIs(PythonSame, ds);
  }

  /** Two whole numbers past the safe range: two constraints in Python, one double in TypeScript. */
  lemma RoundedExample()
    ensures var ds := [Give("k", Number(TWO_TO_53)), Give("k", Number(TWO_TO_53 + 1))];
            PythonOutcome(ds) == Deny && TypeScriptOutcome(ds) == Allow
  {
    hide AsDouble, PythonOutcome, TypeScriptOutcome, SomeDisagreement;
    var ds := [Give("k", Number(TWO_TO_53)), Give("k", Number(TWO_TO_53 + 1))];
    NeighboursRoundAlike();
    NoDenials(ds);
    assert Apart(PythonSame, ds, 0, 1, "k");
    OutcomesAre(ds);
    TypeScriptConflicts(ds);
    DisagreementIs(PythonSame, ds);
  }

  lemma NeighboursRoundAlike()
    ensures AsDouble(TWO_TO_53) == AsDouble(TWO_TO_53 + 1) == Finite(TWO_TO_53)
  {
    assert Pow2(1) == 2;
    assert ExtraBits(TWO_TO_53) == 1 && ExtraBits(TWO_TO_53 + 1) == 1;
  }

  /** An infinity and a whole number past every double: two constraints in Python, one double in TypeScript. */
  lemma OverflowExample(k: nat)
    requires k >= MAX_EXTRA_BITS
    ensures var ds := [Give("k", Infinity(false)), Give("k", Number(TWO_TO_53 * Pow2(k)))];
            PythonOutcome(ds) == Deny && TypeScriptOutcome(ds) == Allow
  {
    hide AsDouble, PythonOutcome, TypeScriptOutcome, SomeDisagreement, Pow2;
    var ds := [Give("k", Infinity(false)), Give("k", Number(TWO_TO_53 * Pow2(k)))];
    LargePowersOverflow(k);
    NoDenials(ds);
    assert Apart(PythonSame, ds, 0, 1, "k");
    OutcomesAre(ds);
    TypeScriptConflicts(ds);
    DisagreementIs(PythonSame, ds);
  }
}
