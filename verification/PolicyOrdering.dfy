/** What the JavaScript record takes away from policy composition: adding a decision still never weakens it, but
    the order and the grouping of the decisions can matter, and exactly when they do. */
module PolicyOrdering {
  import opened Common
  import opened PolicySemantics
  import opened PolicyProofs
  import opened PolicyRuntimes

  // ---------------------------------------------------------------- the order of the decisions

  /** A conflict over an ordinary key. */
  ghost predicate PlainConflict(ds: seq<Decided>) {
    exists d, e, key | d in ds && e in ds && key != PROTO :: Differ(TypeScriptSame, d, e, key)
  }

  /** A conflict under `__proto__` after a null there. */
  ghost predicate LateAt(ds: seq<Decided>, i: nat, j: nat, k: nat) {
    && i < j < |ds| && i < k < |ds| && SetsNull(ds[i].constraints) && Differ(TypeScriptSame, ds[j], ds[k], PROTO)
  }

  ghost predicate LateConflict(ds: seq<Decided>) {
    exists i, j, k :: LateAt(ds, i, j, k)
  }

  lemma ConflictsAre(ds: seq<Decided>)
    ensures SomeDisagreement(TypeScriptSame, Visible(ds)) <==> PlainConflict(ds) || LateConflict(ds)
  {
    hide Visible, TypeScriptSame, SomeDisagreement, SetsNull;
    DisagreementIs(TypeScriptSame, Visible(ds));
    if i: nat, j: nat, key :| Apart(TypeScriptSame, Visible(ds), i, j, key) {
      ApartWhenVisible(ds, i, j, key);
      if key != PROTO {
        assert Differ(TypeScriptSame, ds[i], ds[j], key);
      } else {
        var m := BareSince(ds, if i < j then i else j);
        assert LateAt(ds, m, i, j);
      }
    }
    if d, e, key :| d in ds && e in ds && key != PROTO && Differ(TypeScriptSame, d, e, key) {
      var i :| 0 <= i < |ds| && ds[i] == d;
      var j :| 0 <= j < |ds| && ds[j] == e;
      ApartWhenVisible(ds, i, j, key);
    }
    if i: nat, j: nat, k: nat :| LateAt(ds, i, j, k) {
      BareAfter(ds, i, j);
      BareAfter(ds, i, k);
      ApartWhenVisible(ds, j, k, PROTO);
    }
  }

  lemma BareSince(ds: seq<Decided>, n: nat) returns (m: nat)
    requires n <= |ds| && Bare(ds[..n])
    ensures m < n && SetsNull(ds[m].constraints)
  {
    m :| 0 <= m < n && SetsNull(ds[..n][m].constraints);
  }

  lemma BareAfter(ds: seq<Decided>, m: nat, n: nat)
    requires m < n <= |ds| && SetsNull(ds[m].constraints)
    ensures Bare(ds[..n])
  {
    assert ds[..n][m] == ds[m];
  }

  /** A decision with null under `__proto__`, and two more that differ there. */
  ghost predicate UnsettledBy(ds: seq<Decided>, x: Decided, y: Decided, z: Decided) {
    multiset{x, y, z} <= multiset(ds) && SetsNull(x.constraints) && Differ(TypeScriptSame, y, z, PROTO)
  }

  ghost predicate Unsettled(ds: seq<Decided>) {
    exists x, y, z :: UnsettledBy(ds, x, y, z)
  }

  lemma LateIsUnsettled(ds: seq<Decided>, i: nat, j: nat, k: nat)
    requires LateAt(ds, i, j, k)
    ensures Unsettled(ds)
  {
    hide SetsNull, TypeScriptSame;
    BothAreEquivalences();
    assert j != k;
    if j < k {
      ThreeOf(ds, i, j, k);
      assert UnsettledBy(ds, ds[i], ds[j], ds[k]);
    } else {
      ThreeOf(ds, i, k, j);
      assert UnsettledBy(ds, ds[i], ds[k], ds[j]);
    }
  }

  lemma ThreeOf<T>(s: seq<T>, i: nat, j: nat, k: nat)
    requires i < j < k < |s|
    ensures multiset{s[i], s[j], s[k]} <= multiset(s)
  {
    var rest := s[i + 1..];
    var x, y, z := s[i], s[j], s[k];
    assert rest[j - i - 1] == y && rest[k - i - 1] == z;
    TwoOf(rest, j - i - 1, k - i - 1);
    OneOf(s, i);
    Together(x, multiset{y, z}, multiset(rest), multiset(s));
    assert multiset{x, y, z} == multiset{x} + multiset{y, z};
  }

  lemma Together<T>(x: T, some: multiset<T>, rest: multiset<T>, all: multiset<T>)
    requires some <= rest && multiset{x} + rest <= all
    ensures multiset{x} + some <= all
  {
  }

  lemma TwoOf<T>(s: seq<T>, lo: nat, hi: nat)
    requires lo < hi < |s|
    ensures multiset{s[lo], s[hi]} <= multiset(s)
  {
    OneOf(s, lo);
    assert s[hi] == s[lo + 1..][hi - lo - 1];
    assert multiset{s[lo], s[hi]} == multiset{s[lo]} + multiset{s[hi]};
  }

  lemma OneOf<T>(s: seq<T>, i: nat)
    requires i < |s|
    ensures multiset{s[i]} + multiset(s[i + 1..]) <= multiset(s)
  {
    assert s == s[..i] + ([s[i]] + s[i + 1..]);
  }

  /** The decisions of a multiset, in some order. */
  lemma Listed(m: multiset<Decided>) returns (ds: seq<Decided>)
    ensures multiset(ds) == m
  {
    if m == multiset{} {
      ds := [];
    } else {
      var d :| d in m;
      var rest := Listed(m - multiset{d});
      ds := [d] + rest;
      assert multiset(ds) == multiset{d} + multiset(rest);
    }
  }

  /** With the null first, the other two conflict. */
  lemma NullFirst(ds: seq<Decided>, x: Decided, y: Decided, z: Decided) returns (es: seq<Decided>)
    requires UnsettledBy(ds, x, y, z)
    ensures multiset(es) == multiset(ds) && LateConflict(es)
  {
    hide SetsNull, TypeScriptSame;
    var rest := Listed(multiset(ds) - multiset{x});
    es := [x] + rest;
    assert multiset(es) == multiset{x} + multiset(rest);
    assert y in multiset(rest) && z in multiset(rest) by {
      BothAreEquivalences();
      assert y != z;
      assert multiset{x, y, z}[y] <= multiset(ds)[y] && multiset{x, y, z}[z] <= multiset(ds)[z];
    }
    var j :| 0 <= j < |rest| && rest[j] == y;
    var k :| 0 <= k < |rest| && rest[k] == z;
    assert LateAt(es, 0, j + 1, k + 1);
  }

  function Split(ds: seq<Decided>, nulls: bool): (es: seq<Decided>)
    ensures forall d | d in es :: SetsNull(d.constraints) == nulls
  {
    if ds == [] then []
    else Split(ds[..|ds| - 1], nulls) + if SetsNull(ds[|ds| - 1].constraints) == nulls then [ds[|ds| - 1]] else []
  }

  lemma {:induction false} SplitAll(ds: seq<Decided>)
    ensures multiset(Split(ds, false)) + multiset(Split(ds, true)) == multiset(ds)
  {
    if ds != [] {
      var n := |ds| - 1;
      SplitAll(ds[..n]);
      var others, nulls := multiset(Split(ds[..n], false)), multiset(Split(ds[..n], true));
      SplitLast(ds, others, nulls, multiset(Split(ds, false)), multiset(Split(ds, true)));
    }
  }

  lemma SplitLast(ds: seq<Decided>, others: multiset<Decided>, nulls: multiset<Decided>,
                  others': multiset<Decided>, nulls': multiset<Decided>)
    requires ds != [] && others + nulls == multiset(ds[..|ds| - 1])
    requires var last := ds[|ds| - 1];
             if SetsNull(last.constraints) then others' == others && nulls' == nulls + multiset{last}
             else others' == others + multiset{last} && nulls' == nulls
    ensures others' + nulls' == multiset(ds)
  {
    hide SetsNull;
    assert ds == ds[..|ds| - 1] + [ds[|ds| - 1]];
  }

  /** With the nulls last, nothing conflicts under `__proto__`. */
  lemma NullsLast(ds: seq<Decided>) returns (es: seq<Decided>)
    ensures multiset(es) == multiset(ds) && !LateConflict(es)
  {
    SplitAll(ds);
    var others, nulls := Split(ds, false), Split(ds, true);
    es := others + nulls;
    forall i: nat, j: nat, k: nat ensures !LateAt(es, i, j, k) {
      if i < |es| && i < |others| { assert es[i] in others; }
    }
  }

  lemma SameMultiset(ds: seq<Decided>, es: seq<Decided>)
    requires multiset(es) == multiset(ds)
    ensures PlainConflict(es) <==> PlainConflict(ds)
    ensures SomeDeny(es) <==> SomeDeny(ds)
    ensures Unsettled(es) <==> Unsettled(ds)
  {
    hide TypeScriptSame, SetsNull;
    assert forall d :: d in es <==> d in multiset(es);
    assert forall d :: d in ds <==> d in multiset(ds);
    DenyByMembers(ds);
    DenyByMembers(es);
    assert forall x, y, z :: UnsettledBy(es, x, y, z) <==> UnsettledBy(ds, x, y, z);
  }

  lemma DenyByMembers(ds: seq<Decided>)
    ensures SomeDeny(ds) <==> exists d :: d in ds && d.outcome == Deny
  {
  }

  /** TypeScript's outcome depends on the order of the decisions exactly when none denies, no ordinary key
      conflicts, and one gives null under `__proto__` where two others differ. */
  lemma TypeScriptOrderMattersWhen(ds: seq<Decided>)
    requires ds != []
    ensures (exists es :: multiset(es) == multiset(ds) && TypeScriptOutcome(es) != TypeScriptOutcome(ds))
       <==> !SomeDeny(ds) && !PlainConflict(ds) && Unsettled(ds)
  {
    hide TypeScriptOutcome, SomeDeny, PlainConflict, Unsettled, UnsettledBy, LateConflict, Strictest;
    OrderedOutcome(ds, ds);
    forall es | multiset(es) == multiset(ds) ensures TypeScriptOutcome(es) == TypeScriptOutcome(ds)
        || (!SomeDeny(ds) && !PlainConflict(ds) && Unsettled(ds)) {
      OrderedOutcome(ds, es);
    }
    if !SomeDeny(ds) && !PlainConflict(ds) && Unsettled(ds) {
      var es := NullsLast(ds);
      var x, y, z := Unsettling(ds);
      var fs := NullFirst(ds, x, y, z);
      OrderedOutcome(ds, es);
      OrderedOutcome(ds, fs);
      assert TypeScriptOutcome(es) != TypeScriptOutcome(fs);
    }
  }

  lemma Unsettling(ds: seq<Decided>) returns (x: Decided, y: Decided, z: Decided)
    requires Unsettled(ds)
    ensures UnsettledBy(ds, x, y, z)
  {
    x, y, z :| UnsettledBy(ds, x, y, z);
  }

  /** Of one order: a denial exactly for what no order changes, or a late conflict; else the strictest. */
  lemma OrderedOutcome(ds: seq<Decided>, es: seq<Decided>)
    requires ds != [] && multiset(es) == multiset(ds)
    ensures TypeScriptOutcome(es) == Deny <==> SomeDeny(ds) || PlainConflict(ds) || LateConflict(es)
    ensures TypeScriptOutcome(es) != Deny ==> TypeScriptOutcome(es) == Strictest(ds)
    ensures LateConflict(es) ==> Unsettled(ds)
  {
    hide TypeScriptOutcome, SomeDeny, PlainConflict, Unsettled, SomeDisagreement, Strictest, LateAt;
    assert |es| == |multiset(es)| == |ds|;
    OutcomesAre(es);
    ConflictsAre(es);
    SameMultiset(ds, es);
    StrictestByMembers(ds, es);
    if i: nat, j: nat, k: nat :| LateAt(es, i, j, k) { LateIsUnsettled(es, i, j, k); }
  }

  lemma StrictestByMembers(ds: seq<Decided>, es: seq<Decided>)
    requires ds != [] && es != [] && multiset(es) == multiset(ds)
    ensures Strictest(es) == Strictest(ds)
  {
    hide Strictest;
    StrictestIs(ds);
    StrictestIs(es);
    assert forall d :: d in es <==> d in multiset(es);
    assert forall d :: d in ds <==> d in multiset(ds);
    var i :| 0 <= i < |ds| && ds[i].outcome == Strictest(ds);
    var j :| 0 <= j < |es| && es[j].outcome == Strictest(es);
    assert ds[i] in es && es[j] in ds;
    SameRank(Strictest(ds), Strictest(es));
  }

  lemma OnlyProto(ds: seq<Decided>)
    requires forall d | d in ds :: d.constraints.Keys <= {PROTO}
    ensures !PlainConflict(ds)
  {
  }

  /** Of any list of decisions: TypeScript denies for a denial or a conflict; else it takes the strictest. */
  lemma TypeScriptOutcomeIs(ds: seq<Decided>)
    requires ds != []
    ensures TypeScriptOutcome(ds) == Deny <==> SomeDeny(ds) || PlainConflict(ds) || LateConflict(ds)
    ensures TypeScriptOutcome(ds) != Deny ==> TypeScriptOutcome(ds) == Strictest(ds)
  {
    hide TypeScriptOutcome, SomeDisagreement, Strictest, PlainConflict, LateConflict, SomeDeny;
    OutcomesAre(ds);
    ConflictsAre(ds);
  }

  lemma MoreIsStricter(ds: seq<Decided>, es: seq<Decided>)
    requires ds != [] && forall e | e in ds :: e in es
    ensures Rank(Strictest(ds)) <= Rank(Strictest(es))
    ensures SomeDeny(ds) ==> SomeDeny(es)
    ensures PlainConflict(ds) ==> PlainConflict(es)
  {
    hide Strictest, TypeScriptSame;
    StrictestIs(ds);
    StrictestIs(es);
    var i :| 0 <= i < |ds| && ds[i].outcome == Strictest(ds);
    assert ds[i] in es;
  }

  lemma LateShifts(before: seq<Decided>, d: Decided, after: seq<Decided>)
    requires LateConflict(before + after)
    ensures LateConflict(before + [d] + after)
  {
    hide LateAt;
    var i: nat, j: nat, k: nat :| LateAt(before + after, i, j, k);
    LateAtShifts(before, d, after, i, j, k);
  }

  lemma LateAtShifts(before: seq<Decided>, d: Decided, after: seq<Decided>, i: nat, j: nat, k: nat)
    requires LateAt(before + after, i, j, k)
    ensures LateAt(before + [d] + after, Shift(before, i), Shift(before, j), Shift(before, k))
  {
    hide SetsNull, TypeScriptSame;
    Shifted(before, d, after, i);
    Shifted(before, d, after, j);
    Shifted(before, d, after, k);
  }

  /** Putting one more decision in, anywhere, never gives TypeScript a milder outcome. */
  lemma TypeScriptNeverWeakens(before: seq<Decided>, d: Decided, after: seq<Decided>)
    requires before + after != []
    ensures Rank(TypeScriptOutcome(before + after)) <= Rank(TypeScriptOutcome(before + [d] + after))
  {
    hide TypeScriptOutcome, Strictest, PlainConflict, LateConflict, SomeDeny;
    var ds, es := before + after, before + [d] + after;
    TypeScriptOutcomeIs(ds);
    TypeScriptOutcomeIs(es);
    MoreIsStricter(ds, es);
    if LateConflict(ds) { LateShifts(before, d, after); }
  }

  function Shift<T>(before: seq<T>, i: nat): nat { if i < |before| then i else i + 1 }

  lemma Shifted<T>(before: seq<T>, d: T, after: seq<T>, i: nat)
    requires i < |before + after|
    ensures Shift(before, i) < |before + [d] + after| && (before + [d] + after)[Shift(before, i)] == (before + after)[i]
  {
  }

  lemma MorePlainConflicts(ds: seq<Decided>, es: seq<Decided>)
    requires PlainConflict(ds) && forall e | e in ds :: e in es
    ensures PlainConflict(es)
  {
  }

  // ---------------------------------------------------------------- grouping the decisions

  function VisibleGroups(groups: seq<seq<Decided>>): (vs: seq<seq<Decided>>)
    ensures |vs| == |groups| && forall i | 0 <= i < |groups| :: vs[i] == Visible(groups[i])
  {
    seq(|groups|, i requires 0 <= i < |groups| => Visible(groups[i]))
  }

  /** Each group composed by TypeScript, as one decision. */
  ghost function Composed(groups: seq<seq<Decided>>): (cs: seq<Decided>)
    ensures |cs| == |groups|
    ensures forall i | 0 <= i < |groups| :: cs[i] == AsDecision(Combine(TypeScriptSame, Visible(groups[i])))
  {
    Composites(TypeScriptSame, VisibleGroups(groups))
  }

  lemma StoredKeeps(c: map<string, Constraint>, bare: bool, key: string)
    requires key != PROTO
    ensures key in Stored(c, bare) <==> key in c
    ensures key in c ==> Stored(c, bare)[key] == c[key]
  {
  }

  lemma VisibleKeeps(ds: seq<Decided>, i: nat, key: string)
    requires key != PROTO && i < |ds|
    ensures key in Visible(ds)[i].constraints <==> key in ds[i].constraints
    ensures key in ds[i].constraints ==> Visible(ds)[i].constraints[key] == ds[i].constraints[key]
  {
    hide Stored, Bare, Visible;
    StoredKeeps(ds[i].constraints, Bare(ds[..i]), key);
  }

  /** The decision gives the key this value. */
  predicate GivesValue(d: Decided, key: string, value: Constraint) {
    key in d.constraints && d.constraints[key] == value
  }

  lemma VisibleOf(ds: seq<Decided>, d: Decided, key: string) returns (v: Decided)
    requires key != PROTO && d in ds && key in d.constraints
    ensures v in Visible(ds) && GivesValue(v, key, d.constraints[key])
  {
    hide Visible;
    var i :| 0 <= i < |ds| && ds[i] == d;
    VisibleKeeps(ds, i, key);
    v := Visible(ds)[i];
  }

  lemma OriginOf(ds: seq<Decided>, v: Decided, key: string) returns (d: Decided)
    requires key != PROTO && v in Visible(ds) && key in v.constraints
    ensures d in ds && GivesValue(d, key, v.constraints[key])
  {
    hide Visible;
    var i :| 0 <= i < |ds| && Visible(ds)[i] == v;
    VisibleKeeps(ds, i, key);
    d := ds[i];
  }

  /** A constraint a composed group hands on, under an ordinary key, is one of its decisions'. */
  lemma HandedOn(group: seq<Decided>, key: string) returns (d: Decided)
    requires key != PROTO && key in Combine(TypeScriptSame, Visible(group)).constraints
    ensures d in group && key in d.constraints
    ensures d.constraints[key] == Combine(TypeScriptSame, Visible(group)).constraints[key]
  {
    hide Combine, Visible, TypeScriptSame, Equivalence;
    BothAreEquivalences();
    var v := GroupGives(TypeScriptSame, Visible(group), key);
    d := OriginOf(group, v, key);
  }

  /** A group that does not deny hands on, under an ordinary key, a value all its decisions agree with. */
  lemma HandsOn(group: seq<Decided>, d: Decided, key: string)
    requires key != PROTO && d in group && key in d.constraints && !SomeDisagreement(TypeScriptSame, Visible(group))
    ensures var c := Combine(TypeScriptSame, Visible(group)).constraints;
            key in c && TypeScriptSame(c[key], d.constraints[key])
  {
    hide Combine, Visible, TypeScriptSame, Equivalence, SomeDisagreement;
    BothAreEquivalences();
    var v := VisibleOf(group, d, key);
    GroupValues(TypeScriptSame, Visible(group), v, key);
  }

  lemma PlainFromGroups(groups: seq<seq<Decided>>, d: Decided, e: Decided, key: string)
    requires d in Composed(groups) && e in Composed(groups) && key != PROTO && Differ(TypeScriptSame, d, e, key)
    ensures PlainConflict(Flatten(groups))
  {
    hide Combine, Visible, TypeScriptSame, Composed, Flatten;
    var cs := Composed(groups);
    FlattenIs(groups);
    var i :| 0 <= i < |cs| && cs[i] == d;
    var j :| 0 <= j < |cs| && cs[j] == e;
    var x := HandedOn(groups[i], key);
    var y := HandedOn(groups[j], key);
    assert x in Flatten(groups) && y in Flatten(groups) && Differ(TypeScriptSame, x, y, key);
  }

  ghost predicate NoGroupConflicts(groups: seq<seq<Decided>>) {
    forall i | 0 <= i < |groups| :: !SomeDisagreement(TypeScriptSame, Visible(groups[i]))
  }

  lemma PlainToGroups(groups: seq<seq<Decided>>, d: Decided, e: Decided, key: string)
    requires NoGroupConflicts(groups)
    requires d in Flatten(groups) && e in Flatten(groups) && key != PROTO && Differ(TypeScriptSame, d, e, key)
    ensures PlainConflict(Composed(groups))
  {
    hide Combine, Visible, TypeScriptSame, SomeDisagreement, Composed, Flatten;
    var cs := Composed(groups);
    FlattenIs(groups);
    BothAreEquivalences();
    var i :| 0 <= i < |groups| && d in groups[i];
    var j :| 0 <= j < |groups| && e in groups[j];
    HandsOn(groups[i], d, key);
    HandsOn(groups[j], e, key);
    assert cs[i] in cs && cs[j] in cs && Differ(TypeScriptSame, cs[i], cs[j], key);
  }

  lemma PlainAcross(groups: seq<seq<Decided>>)
    requires NoGroupConflicts(groups)
    ensures PlainConflict(Composed(groups)) <==> PlainConflict(Flatten(groups))
  {
    hide Visible, SomeDisagreement, Composed, Flatten, Differ;
    var cs, flat := Composed(groups), Flatten(groups);
    if d, e, key :| d in cs && e in cs && key != PROTO && Differ(TypeScriptSame, d, e, key) {
      PlainFromGroups(groups, d, e, key);
    }
    if d, e, key :| d in flat && e in flat && key != PROTO && Differ(TypeScriptSame, d, e, key) {
      PlainToGroups(groups, d, e, key);
    }
  }

  lemma LateIn(before: seq<Decided>, group: seq<Decided>, after: seq<Decided>)
    requires LateConflict(group)
    ensures LateConflict(before + group + after)
  {
    hide SetsNull, TypeScriptSame;
    var i: nat, j: nat, k: nat :| LateAt(group, i, j, k);
    var all, n := before + group + after, |before|;
    assert all[n + i] == group[i] && all[n + j] == group[j] && all[n + k] == group[k];
    assert LateAt(all, n + i, n + j, n + k);
  }

  lemma {:induction false} LateInFlatten(groups: seq<seq<Decided>>, i: nat)
    requires i < |groups| && LateConflict(groups[i])
    ensures LateConflict(Flatten(groups))
    decreases |groups|
  {
    hide LateConflict;
    var n := |groups| - 1;
    var before := Flatten(groups[..n]);
    if i == n {
      LateIn(before, groups[n], []);
      assert before + groups[n] + [] == Flatten(groups);
    } else {
      LateInFlatten(groups[..n], i);
      LateIn([], before, groups[n]);
      assert [] + before + groups[n] == Flatten(groups);
    }
  }

  /** Some group denies on its own, or two composed groups conflict over an ordinary key, exactly when the
      decisions themselves do, or some group has a late conflict within. */
  lemma DenialsAcross(groups: seq<seq<Decided>>)
    requires Grouped(groups)
    ensures SomeDeny(Composed(groups)) || PlainConflict(Composed(groups)) <==>
              || SomeDeny(Flatten(groups)) || PlainConflict(Flatten(groups))
              || exists i :: 0 <= i < |groups| && LateConflict(groups[i])
  {
    hide Combine, Visible, TypeScriptSame, SomeDisagreement, Flatten, PlainConflict, LateConflict, Composed, Strictest;
    var cs, flat := Composed(groups), Flatten(groups);
    FlattenIs(groups);
    DenyByMembers(flat);
    forall i | 0 <= i < |groups|
      ensures cs[i].outcome == Deny <==> SomeDeny(groups[i]) || PlainConflict(groups[i]) || LateConflict(groups[i])
      ensures SomeDisagreement(TypeScriptSame, Visible(groups[i])) ==> cs[i].outcome == Deny
      ensures SomeDeny(groups[i]) ==> SomeDeny(flat)
      ensures PlainConflict(groups[i]) ==> PlainConflict(flat)
    {
      OutcomesAre(groups[i]);
      ConflictsAre(groups[i]);
      DenyByMembers(groups[i]);
      if PlainConflict(groups[i]) { MorePlainConflicts(groups[i], flat); }
    }
    if SomeDeny(flat) {
      var d :| d in flat && d.outcome == Deny;
      var i :| 0 <= i < |groups| && d in groups[i];
      DenyByMembers(groups[i]);
      assert cs[i].outcome == Deny;
    }
    if !SomeDeny(cs) { PlainAcross(groups); }
  }

  /** With the null set before it in the group, this decision's value under `__proto__` reaches the record. */
  predicate HandedAt(group: seq<Decided>, n: nat) {
    n < |group| && PROTO in group[n].constraints && Bare(group[..n])
  }

  predicate NullAt(group: seq<Decided>, n: nat) {
    HandedAt(group, n) && SetsNull(group[n].constraints)
  }

  /** After a decision that sets null under `__proto__`, a later one of the group gives null there as well. */
  ghost predicate HandsOnNull(group: seq<Decided>) {
    exists n :: NullAt(group, n)
  }

  ghost predicate ApartAt(a: seq<Decided>, b: seq<Decided>, m: nat, n: nat) {
    HandedAt(a, m) && HandedAt(b, n) && Differ(TypeScriptSame, a[m], b[n], PROTO)
  }

  /** The two groups hand on differing values under `__proto__`. */
  ghost predicate HandOnApart(a: seq<Decided>, b: seq<Decided>) {
    exists m, n :: ApartAt(a, b, m, n)
  }

  ghost predicate CarriedBy(groups: seq<seq<Decided>>, f: nat, g: nat, h: nat) {
    && f < g < |groups| && f < h < |groups|
    && HandsOnNull(groups[f]) && HandOnApart(groups[g], groups[h])
  }

  /** A group that hands on null comes before two groups that hand on differing values. */
  ghost predicate CarriedConflict(groups: seq<seq<Decided>>) {
    exists f, g, h :: CarriedBy(groups, f, g, h)
  }

  /** What a composed group has under `__proto__` is a value one of its decisions hands on. */
  lemma HandedFrom(group: seq<Decided>) returns (n: nat)
    requires PROTO in Combine(TypeScriptSame, Visible(group)).constraints
    ensures HandedAt(group, n)
    ensures GivesValue(group[n], PROTO, Combine(TypeScriptSame, Visible(group)).constraints[PROTO])
  {
    hide Combine, Visible, TypeScriptSame, Equivalence, Bare;
    BothAreEquivalences();
    var v := GroupGives(TypeScriptSame, Visible(group), PROTO);
    n :| 0 <= n < |group| && Visible(group)[n] == v;
  }

  /** A group without a conflict has under `__proto__` what each decision that hands on a value agrees with. */
  lemma HandedTo(group: seq<Decided>, n: nat)
    requires HandedAt(group, n) && !SomeDisagreement(TypeScriptSame, Visible(group))
    ensures var c := Combine(TypeScriptSame, Visible(group)).constraints;
            PROTO in c && TypeScriptSame(c[PROTO], group[n].constraints[PROTO])
  {
    hide Combine, Visible, TypeScriptSame, Equivalence, SomeDisagreement, Bare;
    BothAreEquivalences();
    GroupValues(TypeScriptSame, Visible(group), Visible(group)[n], PROTO);
  }

  lemma OnlyNullIsNull(c: Constraint)
    ensures TypeScriptSame(c, Absent) <==> c.Absent?
    ensures TypeScriptSame(Absent, c) <==> c.Absent?
  {
  }

  lemma StillApart(a: Constraint, x: Constraint, b: Constraint, y: Constraint)
    requires TypeScriptSame(a, x) && TypeScriptSame(b, y) && !TypeScriptSame(x, y)
    ensures !TypeScriptSame(a, b)
  {
    hide AsDouble;
  }

  lemma LateIsCarried(groups: seq<seq<Decided>>, f: nat, g: nat, h: nat)
    requires LateAt(Composed(groups), f, g, h)
    ensures CarriedBy(groups, f, g, h)
  {
    hide Combine, Visible, TypeScriptSame, Composed, HandedAt;
    var l := HandedFrom(groups[f]);
    assert NullAt(groups[f], l);
    var m := HandedFrom(groups[g]);
    var n := HandedFrom(groups[h]);
    assert ApartAt(groups[g], groups[h], m, n);
  }

  lemma CarriedIsLate(groups: seq<seq<Decided>>, f: nat, g: nat, h: nat)
    requires NoGroupConflicts(groups)
    requires CarriedBy(groups, f, g, h)
    ensures LateAt(Composed(groups), f, g, h)
  {
    hide Combine, Visible, TypeScriptSame, Composed, Bare, SomeDisagreement;
    var l: nat :| NullAt(groups[f], l);
    var m: nat, n: nat :| ApartAt(groups[g], groups[h], m, n);
    HandedTo(groups[f], l);
    HandedTo(groups[g], m);
    HandedTo(groups[h], n);
    var cs := Composed(groups);
    OnlyNullIsNull(cs[f].constraints[PROTO]);
    StillApart(cs[g].constraints[PROTO], groups[g][m].constraints[PROTO],
               cs[h].constraints[PROTO], groups[h][n].constraints[PROTO]);
  }

  /** Where a group starts among all decisions. */
  function Offset(groups: seq<seq<Decided>>, g: nat): nat
    requires g <= |groups|
  {
    |Flatten(groups[..g])|
  }

  lemma NextOffset(groups: seq<seq<Decided>>, g: nat)
    requires g < |groups|
    ensures Flatten(groups[..g + 1]) == Flatten(groups[..g]) + groups[g]
    ensures Offset(groups, g + 1) == Offset(groups, g) + |groups[g]|
  {
    assert groups[..g + 1][..g] == groups[..g];
  }

  lemma {:induction false} StartsWith(groups: seq<seq<Decided>>, g: nat, h: nat)
    requires g <= h <= |groups|
    ensures Flatten(groups[..g]) <= Flatten(groups[..h])
    decreases h
  {
    if g < h {
      StartsWith(groups, g, h - 1);
      NextOffset(groups, h - 1);
    }
  }

  lemma AtOffset(groups: seq<seq<Decided>>, g: nat, n: nat)
    requires g < |groups| && n < |groups[g]|
    ensures Offset(groups, g) + n < |Flatten(groups)| && Flatten(groups)[Offset(groups, g) + n] == groups[g][n]
    ensures forall h | g < h <= |groups| :: Offset(groups, g) + n < Offset(groups, h)
  {
    hide Flatten;
    NextOffset(groups, g);
    StartsWith(groups, g + 1, |groups|);
    assert groups[..|groups|] == groups;
    forall h | g < h <= |groups| ensures Offset(groups, g) + n < Offset(groups, h) { StartsWith(groups, g + 1, h); }
  }

  /** What the composed groups conflict over, the decisions conflict over. */
  lemma CarriedInFlatten(groups: seq<seq<Decided>>)
    requires CarriedConflict(groups)
    ensures LateConflict(Flatten(groups))
  {
    hide Flatten, TypeScriptSame, SetsNull, Bare, Offset;
    var f: nat, g: nat, h: nat :| CarriedBy(groups, f, g, h);
    var l: nat :| NullAt(groups[f], l);
    var m: nat, n: nat :| ApartAt(groups[g], groups[h], m, n);
    AtOffset(groups, f, l);
    AtOffset(groups, g, m);
    AtOffset(groups, h, n);
    assert LateAt(Flatten(groups), Offset(groups, f) + l, Offset(groups, g) + m, Offset(groups, h) + n);
  }

  lemma CarriedOnly(groups: seq<seq<Decided>>)
    ensures LateConflict(Composed(groups)) ==> CarriedConflict(groups)
    ensures CarriedConflict(groups) && NoGroupConflicts(groups) ==> LateConflict(Composed(groups))
  {
    hide LateAt, CarriedBy, Composed, NoGroupConflicts;
    if f, g, h :| LateAt(Composed(groups), f, g, h) { LateIsCarried(groups, f, g, h); }
    if f, g, h :| CarriedBy(groups, f, g, h) && NoGroupConflicts(groups) { CarriedIsLate(groups, f, g, h); }
  }

  /** Composing groups and then their results gives TypeScript another outcome than composing everything at once
      exactly when no decision denies, no ordinary key conflicts, no group has a late conflict within, the
      decisions together have one, and no group that hands on null is followed by two that hand on differing
      values. */
  lemma TypeScriptGroupingMattersWhen(groups: seq<seq<Decided>>)
    requires Grouped(groups)
    ensures TypeScriptOutcome(Composed(groups)) != TypeScriptOutcome(Flatten(groups)) <==>
              && !SomeDeny(Flatten(groups)) && !PlainConflict(Flatten(groups))
              && (forall i | 0 <= i < |groups| :: !LateConflict(groups[i]))
              && LateConflict(Flatten(groups)) && !CarriedConflict(groups)
  {
    hide TypeScriptOutcome, SomeDeny, PlainConflict, LateConflict, Strictest, Flatten, Composed, Combine, Visible,
         SomeDisagreement, CarriedConflict;
    var cs, flat := Composed(groups), Flatten(groups);
    FlattenIs(groups);
    assert groups[0][0] in flat;
    DenialsAcross(groups);
    TypeScriptOutcomeIs(cs);
    TypeScriptOutcomeIs(flat);
    CarriedOnly(groups);
    if CarriedConflict(groups) { CarriedInFlatten(groups); }
    forall i | 0 <= i < |groups|
      ensures LateConflict(groups[i]) ==> LateConflict(flat)
      ensures SomeDisagreement(TypeScriptSame, Visible(groups[i])) ==> PlainConflict(flat) || LateConflict(groups[i])
    {
      ConflictsAre(groups[i]);
      if LateConflict(groups[i]) { LateInFlatten(groups, i); }
      if PlainConflict(groups[i]) { MorePlainConflicts(groups[i], flat); }
    }
    if TypeScriptOutcome(cs) != Deny && TypeScriptOutcome(flat) != Deny { MildestAlike(groups); }
  }

  /** Where the grouping matters, it loses a denial: it never makes the outcome stricter. */
  lemma GroupingOnlyWeakens(groups: seq<seq<Decided>>)
    requires Grouped(groups)
    ensures Rank(TypeScriptOutcome(Composed(groups))) <= Rank(TypeScriptOutcome(Flatten(groups)))
    ensures TypeScriptOutcome(Composed(groups)) == TypeScriptOutcome(Flatten(groups)) ||
            TypeScriptOutcome(Flatten(groups)) == Deny
  {
    hide TypeScriptOutcome, SomeDeny, PlainConflict, LateConflict, Strictest, Flatten, Composed, CarriedConflict;
    TypeScriptGroupingMattersWhen(groups);
    FlattenIs(groups);
    assert groups[0][0] in Flatten(groups);
    TypeScriptOutcomeIs(Flatten(groups));
  }

  lemma MildestAlike(groups: seq<seq<Decided>>)
    requires Grouped(groups) && !SomeDeny(Composed(groups))
    ensures Strictest(Composed(groups)) == Strictest(Flatten(groups))
  {
    hide Combine, Visible, Strictest, Flatten, Composed, SomeDisagreement;
    var cs, flat := Composed(groups), Flatten(groups);
    FlattenIs(groups);
    assert groups[0][0] in flat;
    StrictestIs(cs);
    StrictestIs(flat);
    var i :| 0 <= i < |cs| && cs[i].outcome == Strictest(cs);
    OutcomesAre(groups[i]);
    StrictestIs(groups[i]);
    var j :| 0 <= j < |groups[i]| && groups[i][j].outcome == Strictest(groups[i]);
    assert groups[i][j] in flat;
    var k :| 0 <= k < |flat| && flat[k].outcome == Strictest(flat);
    assert flat[k] in flat;
    var m :| 0 <= m < |groups| && flat[k] in groups[m];
    OutcomesAre(groups[m]);
    StrictestIs(groups[m]);
    SameRank(Strictest(cs), Strictest(flat));
  }

  // ---------------------------------------------------------------- for example

  /** Null, 1 and 2, all under `__proto__`. */
  function NullOneTwo(): (Decided, Decided, Decided) {
    (Give(PROTO, Absent), Give(PROTO, Number(1)), Give(PROTO, Number(2)))
  }

  lemma OneAndTwo()
    ensures !TypeScriptSame(Number(1), Number(2))
  {
    SafeNumbersAreExact(1);
    SafeNumbersAreExact(2);
  }

  lemma NullFirstDenies()
    ensures var (x, y, z) := NullOneTwo(); TypeScriptOutcome([x, y, z]) == Deny
  {
    hide TypeScriptOutcome, PlainConflict, TypeScriptSame, Strictest;
    var (x, y, z) := NullOneTwo();
    OneAndTwo();
    assert LateAt([x, y, z], 0, 1, 2);
    TypeScriptOutcomeIs([x, y, z]);
  }

  lemma NullLastAllows()
    ensures var (x, y, z) := NullOneTwo(); TypeScriptOutcome([y, z, x]) == Allow
  {
    hide TypeScriptOutcome, PlainConflict, TypeScriptSame, Strictest;
    var (x, y, z) := NullOneTwo();
    OnlyProto([y, z, x]);
    NoDenials([y, z, x]);
    TypeScriptOutcomeIs([y, z, x]);
  }

  /** The order matters to TypeScript. */
  lemma OrderExample()
    ensures var (x, y, z) := NullOneTwo();
            TypeScriptOutcome([x, y, z]) == Deny && TypeScriptOutcome([y, z, x]) == Allow
  {
    hide TypeScriptOutcome;
    NullFirstDenies();
    NullLastAllows();
  }

  lemma TwoNeverLate(ds: seq<Decided>)
    requires |ds| <= 2
    ensures !LateConflict(ds)
  {
    hide SetsNull, TypeScriptSame;
    BothAreEquivalences();
  }

  lemma FlattenTwo<V>(a: seq<Decision<V>>, b: seq<Decision<V>>)
    ensures Flatten([a, b]) == a + b
  {
    assert [a, b][..1] == [a] && [a][..0] == [];
    assert Flatten([a]) == Flatten<V>([]) + a;
  }

  /** So does the grouping: a null alone in its group is lost on the groups after it. */
  lemma GroupingExample()
    ensures var (x, y, z) := NullOneTwo();
            && TypeScriptOutcome(Composed([[x], [y, z]])) == Allow
            && TypeScriptOutcome(Flatten([[x], [y, z]])) == Deny
  {
    hide TypeScriptOutcome, Combine, PlainConflict, LateConflict, Composed, Strictest, SomeDeny;
    var (x, y, z) := NullOneTwo();
    var groups := [[x], [y, z]];
    assert Flatten(groups) == [x, y, z] by { FlattenTwo([x], [y, z]); }
    hide Flatten;
    NullFirstDenies();
    OnlyProto([x, y, z]);
    NoDenials([x, y, z]);
    TwoNeverLate([x]);
    TwoNeverLate([y, z]);
    DenialsAcross(groups);
    TwoNeverLate(Composed(groups));
    TypeScriptOutcomeIs(Composed(groups));
    MildestAlike(groups);
  }
}
