/** Policy composition is order-free, never weakens and composes over groups, whichever way constraint values are
    compared; and the Python loop computes it. */
module PolicyProofs {
  import opened Common
  import opened Text
  import opened PolicySemantics

  // ---------------------------------------------------------------- what a composition decides

  ghost predicate Equivalence<V(!new)>(same: Same<V>) {
    && (forall v :: same(v, v))
    && (forall v, w :: same(v, w) ==> same(w, v))
    && (forall u, v, w :: same(u, v) && same(v, w) ==> same(u, w))
  }

  ghost predicate DisagreeOn<V>(same: Same<V>, ds: seq<Decision<V>>, key: string) {
    exists i, j | 0 <= i < |ds| && 0 <= j < |ds| ::
      key in ds[i].constraints && key in ds[j].constraints && !same(ds[i].constraints[key], ds[j].constraints[key])
  }

  ghost predicate SomeDeny<V>(ds: seq<Decision<V>>) {
    exists i | 0 <= i < |ds| :: ds[i].outcome == Deny
  }

  ghost predicate SomeDisagreement<V>(same: Same<V>, ds: seq<Decision<V>>) {
    exists key :: DisagreeOn(same, ds, key)
  }

  ghost predicate Gives<V>(ds: seq<Decision<V>>, key: string, v: V) {
    exists i | 0 <= i < |ds| :: key in ds[i].constraints && ds[i].constraints[key] == v
  }

  ghost predicate AgreesWith<V>(same: Same<V>, ds: seq<Decision<V>>, key: string, v: V) {
    forall i | 0 <= i < |ds| :: key in ds[i].constraints ==> same(v, ds[i].constraints[key])
  }

  /** The merged value of a key is some decision's, a conflict is a key decisions disagree on, and on any
      other key all decisions agree with the merged value. */
  ghost predicate MergedAt<V>(same: Same<V>, ds: seq<Decision<V>>, m: Merged<V>, k: string) {
    && (k in m.values ==> Gives(ds, k, m.values[k]))
    && (forall i | 0 <= i < |ds| :: k in ds[i].constraints ==> k in m.values)
    && (k in m.conflicts <==> DisagreeOn(same, ds, k))
    && (k in m.values && k !in m.conflicts ==> AgreesWith(same, ds, k, m.values[k]))
  }

  lemma DisagreeGrows<V(!new)>(same: Same<V>, ds: seq<Decision<V>>, d: Decision<V>, key: string)
    requires Equivalence(same)
    ensures DisagreeOn(same, ds + [d], key) <==>
              DisagreeOn(same, ds, key)
              || exists i | 0 <= i < |ds| ::
                   key in ds[i].constraints && key in d.constraints && !same(ds[i].constraints[key], d.constraints[key])
  {
    var more := ds + [d];
    assert more[|ds|] == d;
    if DisagreeOn(same, ds, key) {
      var i, j :| 0 <= i < |ds| && 0 <= j < |ds| && key in ds[i].constraints && key in ds[j].constraints
                  && !same(ds[i].constraints[key], ds[j].constraints[key]);
      assert more[i] == ds[i] && more[j] == ds[j];
    }
    if i :| 0 <= i < |ds| && key in ds[i].constraints && key in d.constraints
            && !same(ds[i].constraints[key], d.constraints[key]) {
      assert more[i] == ds[i];
    }
  }

  lemma GivesGrows<V>(ds: seq<Decision<V>>, d: Decision<V>, key: string, v: V)
    ensures Gives(ds + [d], key, v) <==> Gives(ds, key, v) || (key in d.constraints && d.constraints[key] == v)
  {
    var more := ds + [d];
    assert more[|ds|] == d;
    if i :| 0 <= i < |ds| && key in ds[i].constraints && ds[i].constraints[key] == v { assert more[i] == ds[i]; }
  }

  lemma AgreesGrows<V>(same: Same<V>, ds: seq<Decision<V>>, d: Decision<V>, key: string, v: V)
    ensures AgreesWith(same, ds + [d], key, v) <==>
              AgreesWith(same, ds, key, v) && (key in d.constraints ==> same(v, d.constraints[key]))
  {
    var more := ds + [d];
    assert more[|ds|] == d && forall i | 0 <= i < |ds| :: more[i] == ds[i];
  }

  /** Only one representative of the agreeing values matters. */
  lemma AgreesWithEqual<V(!new)>(same: Same<V>, ds: seq<Decision<V>>, key: string, v: V, w: V)
    requires Equivalence(same) && same(v, w) && AgreesWith(same, ds, key, v)
    ensures AgreesWith(same, ds, key, w)
  {
  }

  /** Against decisions that agree with `v`, a value disagrees with some of them exactly when it disagrees with `v`. */
  lemma ClashIsDisagreement<V(!new)>(same: Same<V>, ds: seq<Decision<V>>, d: Decision<V>, key: string, v: V)
    requires Equivalence(same) && Gives(ds, key, v) && AgreesWith(same, ds, key, v) && key in d.constraints
    ensures !same(v, d.constraints[key]) <==>
              exists i | 0 <= i < |ds| :: key in ds[i].constraints && key in d.constraints
                  && !same(ds[i].constraints[key], d.constraints[key])
  {
    var i :| 0 <= i < |ds| && key in ds[i].constraints && ds[i].constraints[key] == v;
  }

  lemma MergeStepAt<V(!new)>(same: Same<V>, ds: seq<Decision<V>>, m: Merged<V>, d: Decision<V>, k: string)
    requires Equivalence(same) && MergedAt(same, ds, m, k)
    ensures MergedAt(same, ds + [d], Merge(same, m, d.constraints), k)
  {
    hide Equivalence, DisagreeOn, Gives, AgreesWith;
    var next, c := Merge(same, m, d.constraints), d.constraints;
    DisagreeGrows(same, ds, d, k);
    forall v ensures Gives(ds + [d], k, v) <==> Gives(ds, k, v) || (k in c && c[k] == v) { GivesGrows(ds, d, k, v); }
    forall v ensures AgreesWith(same, ds + [d], k, v) <==> AgreesWith(same, ds, k, v) && (k in c ==> same(v, c[k])) {
      AgreesGrows(same, ds, d, k, v);
    }
    if k in c {
      assert same(c[k], c[k]) by { Reflexive(same, c[k]); }
      if k in m.values {
        if k !in m.conflicts {
          ClashIsDisagreement(same, ds, d, k, m.values[k]);
          if same(m.values[k], c[k]) { AgreesWithEqual(same, ds, k, m.values[k], c[k]); }
        }
      } else {
        assert AgreesWith(same, ds, k, c[k]) by { NoOneToAgree(same, ds, k, c[k]); }
      }
    }
  }

  lemma Reflexive<V(!new)>(same: Same<V>, v: V)
    requires Equivalence(same)
    ensures same(v, v)
  {
  }

  lemma NoOneToAgree<V>(same: Same<V>, ds: seq<Decision<V>>, key: string, v: V)
    requires forall i | 0 <= i < |ds| :: key !in ds[i].constraints
    ensures AgreesWith(same, ds, key, v)
  {
  }

  lemma {:induction false} MergeAllIs<V(!new)>(same: Same<V>, ds: seq<Decision<V>>, k: string)
    requires Equivalence(same)
    ensures MergedAt(same, ds, MergeAll(same, ds), k)
  {
    if ds != [] {
      var rest, last := ds[..|ds| - 1], ds[|ds| - 1];
      MergeAllIs(same, rest, k);
      MergeStepAt(same, rest, MergeAll(same, rest), last, k);
      assert ds == rest + [last];
    }
  }

  lemma {:induction false} StrictestIs<V>(ds: seq<Decision<V>>)
    ensures forall i | 0 <= i < |ds| :: Rank(ds[i].outcome) <= Rank(Strictest(ds))
    ensures ds != [] ==> exists i | 0 <= i < |ds| :: ds[i].outcome == Strictest(ds)
  {
    if ds != [] {
      var rest, last := ds[..|ds| - 1], ds[|ds| - 1];
      assert ds == rest + [last];
      StrictestIs(rest);
      assert ds[|ds| - 1].outcome == last.outcome;
      assert rest == [] ==> Strictest(ds) == last.outcome;
      if Strictest(ds) != last.outcome {
        var i :| 0 <= i < |rest| && rest[i].outcome == Strictest(rest);
        assert ds[i].outcome == Strictest(ds);
      }
    }
  }

  // ---------------------------------------------------------------- the outcome and the roles

  /** Two decisions of the list give the key different values. */
  ghost predicate Differ<V>(same: Same<V>, d: Decision<V>, e: Decision<V>, key: string) {
    key in d.constraints && key in e.constraints && !same(d.constraints[key], e.constraints[key])
  }

  lemma DisagreeIn<V>(same: Same<V>, ds: seq<Decision<V>>, key: string)
    ensures DisagreeOn(same, ds, key) <==> exists d, e :: d in ds && e in ds && Differ(same, d, e, key)
  {
    if DisagreeOn(same, ds, key) {
      var i, j :| 0 <= i < |ds| && 0 <= j < |ds| && key in ds[i].constraints && key in ds[j].constraints
                  && !same(ds[i].constraints[key], ds[j].constraints[key]);
      assert Differ(same, ds[i], ds[j], key);
    }
    if d, e :| d in ds && e in ds && Differ(same, d, e, key) {
      var i :| 0 <= i < |ds| && ds[i] == d;
      var j :| 0 <= j < |ds| && ds[j] == e;
    }
  }

  /** The outcome is a denial exactly when some decision denies or two disagree on a constraint; otherwise
      it is the strictest outcome among them. */
  lemma OutcomeIs<V(!new)>(same: Same<V>, ds: seq<Decision<V>>)
    requires Equivalence(same) && ds != []
    ensures Combine(same, ds).outcome == Deny <==> SomeDeny(ds) || SomeDisagreement(same, ds)
    ensures forall d | d in ds :: Rank(d.outcome) <= Rank(Combine(same, ds).outcome)
    ensures Combine(same, ds).outcome != Deny ==> exists d :: d in ds && d.outcome == Combine(same, ds).outcome
  {
    hide DisagreeOn, MergeAll, Strictest;
    var m := MergeAll(same, ds);
    StrictestIs(ds);
    forall k ensures k in m.conflicts <==> DisagreeOn(same, ds, k) { MergeAllIs(same, ds, k); }
    if m.conflicts != {} {
      var k :| k in m.conflicts;
      assert DisagreeOn(same, ds, k);
    }
    var i :| 0 <= i < |ds| && ds[i].outcome == Strictest(ds);
    assert ds[i] in ds;
  }

  ghost predicate RequiresRole<V>(ds: seq<Decision<V>>, role: string) {
    exists d :: d in ds && role in d.roles
  }

  lemma {:induction false} AllRolesAre<V>(ds: seq<Decision<V>>)
    ensures forall r :: r in AllRoles(ds) <==> RequiresRole(ds, r)
  {
    if ds != [] {
      var rest, last := ds[..|ds| - 1], ds[|ds| - 1];
      assert ds == rest + [last];
      AllRolesAre(rest);
    }
  }

  /** The roles are the ordered union of what the decisions require. */
  lemma RolesAre<V>(same: Same<V>, ds: seq<Decision<V>>)
    ensures Ascending(Combine(same, ds).roles)
    ensures forall r :: r in Combine(same, ds).roles <==> RequiresRole(ds, r)
  {
    hide MergeAll, Strictest, AllReasons;
    AllRolesAre(ds);
    SortedUniqueIs(AllRoles(ds));
  }

  /** The reason is one that a decision gives, under its engine's name. */
  ghost predicate GivesReason<V>(ds: seq<Decision<V>>, x: string) {
    exists i, j | 0 <= i < |ds| && 0 <= j < |ds[i].reasons| :: x == ds[i].engine + ":" + ds[i].reasons[j]
  }

  lemma {:induction false} AllReasonsAre<V>(ds: seq<Decision<V>>)
    ensures forall x :: x in AllReasons(ds) <==> GivesReason(ds, x)
  {
    if ds != [] {
      var rest, last := ds[..|ds| - 1], ds[|ds| - 1];
      AllReasonsAre(rest);
      forall x ensures x in AllReasons(ds) <==> GivesReason(ds, x) {
        if x in Prefixed(last.engine, last.reasons) {
          var j :| 0 <= j < |last.reasons| && Prefixed(last.engine, last.reasons)[j] == x;
          assert ds[|ds| - 1] == last && x == ds[|ds| - 1].engine + ":" + ds[|ds| - 1].reasons[j];
        }
        if GivesReason(rest, x) {
          var i, j :| 0 <= i < |rest| && 0 <= j < |rest[i].reasons| && x == rest[i].engine + ":" + rest[i].reasons[j];
          assert rest[i] == ds[i];
        }
        if i, j :| 0 <= i < |ds| && 0 <= j < |ds[i].reasons| && x == ds[i].engine + ":" + ds[i].reasons[j] {
          if i < |rest| { assert rest[i] == ds[i]; }
          else { assert x == Prefixed(last.engine, last.reasons)[j]; }
        }
      }
    }
  }

  ghost predicate NamesConflict<V>(same: Same<V>, ds: seq<Decision<V>>, x: string) {
    exists key :: DisagreeOn(same, ds, key) && x == "constraint_conflict:" + key
  }

  /** The reasons are those of the decisions, each under its engine's name, and one for each key they disagree on;
      where there is neither, a reason that says so. */
  lemma ReasonsAre<V(!new)>(same: Same<V>, ds: seq<Decision<V>>)
    requires Equivalence(same)
    ensures forall x :: GivesReason(ds, x) || NamesConflict(same, ds, x) ==> x in Combine(same, ds).reasons
    ensures forall x | x in Combine(same, ds).reasons ::
              || GivesReason(ds, x) || NamesConflict(same, ds, x)
              || (x == "all_policy_engines_returned_no_reason"
                  && forall y :: !GivesReason(ds, y) && !NamesConflict(same, ds, y))
  {
    hide DisagreeOn, MergeAll, Strictest, GivesReason, AllRoles, SortedUnique;
    AllReasonsAre(ds);
    var m := MergeAll(same, ds);
    forall k ensures k in m.conflicts <==> DisagreeOn(same, ds, k) { MergeAllIs(same, ds, k); }
    var named := ConflictReasons(Sorted(m.conflicts));
    forall x ensures x in named <==> NamesConflict(same, ds, x) {
      if x in named {
        var i :| 0 <= i < |named| && named[i] == x;
        assert Sorted(m.conflicts)[i] in m.conflicts;
      }
      if key :| DisagreeOn(same, ds, key) && x == "constraint_conflict:" + key {
        var i :| 0 <= i < |Sorted(m.conflicts)| && Sorted(m.conflicts)[i] == key;
        assert named[i] == x;
      }
    }
    if AllReasons(ds) + named == [] {
      forall y ensures !GivesReason(ds, y) && !NamesConflict(same, ds, y) {
        assert y !in AllReasons(ds) && y !in named;
      }
    }
  }

  predicate Includes<V(==)>(es: seq<Decision<V>>, ds: seq<Decision<V>>) {
    forall d | d in ds :: d in es
  }

  /** More decisions never give a milder outcome, wherever they are put in, and never drop a role. */
  lemma MoreNeverWeakens<V(!new)>(same: Same<V>, ds: seq<Decision<V>>, es: seq<Decision<V>>)
    requires Equivalence(same) && ds != [] && es != [] && Includes(es, ds)
    ensures Rank(Combine(same, ds).outcome) <= Rank(Combine(same, es).outcome)
    ensures forall r | r in Combine(same, ds).roles :: r in Combine(same, es).roles
  {
    hide Combine, DisagreeOn;
    OutcomeIs(same, ds);
    OutcomeIs(same, es);
    RolesAre(same, ds);
    RolesAre(same, es);
    if SomeDisagreement(same, ds) {
      var key :| DisagreeOn(same, ds, key);
      DisagreeIn(same, ds, key);
      DisagreeIn(same, es, key);
    }
    if SomeDeny(ds) {
      var i :| 0 <= i < |ds| && ds[i].outcome == Deny;
      assert ds[i] in es;
    }
  }

  /** Outcome and roles depend on which decisions there are, not on their order or repetition. */
  lemma OrderIsIrrelevant<V(!new)>(same: Same<V>, ds: seq<Decision<V>>, es: seq<Decision<V>>)
    requires Equivalence(same) && ds != [] && es != [] && Includes(es, ds) && Includes(ds, es)
    ensures Combine(same, ds).outcome == Combine(same, es).outcome
    ensures Combine(same, ds).roles == Combine(same, es).roles
  {
    hide Combine;
    MoreNeverWeakens(same, ds, es);
    MoreNeverWeakens(same, es, ds);
    RolesAre(same, ds);
    RolesAre(same, es);
    AscendingIsUnique(Combine(same, ds).roles, Combine(same, es).roles);
  }

  lemma PermutationIsIrrelevant<V(!new)>(same: Same<V>, ds: seq<Decision<V>>, es: seq<Decision<V>>)
    requires Equivalence(same) && ds != [] && multiset(ds) == multiset(es)
    ensures Combine(same, ds).outcome == Combine(same, es).outcome && Combine(same, ds).roles == Combine(same, es).roles
  {
    hide Combine;
    assert forall d :: d in ds <==> d in multiset(ds);
    assert forall d :: d in es <==> d in multiset(es);
    assert ds[0] in es;
    OrderIsIrrelevant(same, ds, es);
  }

  // ---------------------------------------------------------------- grouping

  function Flatten<V>(groups: seq<seq<Decision<V>>>): seq<Decision<V>> {
    if groups == [] then [] else Flatten(groups[..|groups| - 1]) + groups[|groups| - 1]
  }

  /** A composed result, put in as one engine's decision. */
  function AsDecision<V>(r: Result<V>): Decision<V> {
    Decision("composite", r.outcome, r.reasons, r.roles, r.constraints)
  }

  ghost function Composites<V>(same: Same<V>, groups: seq<seq<Decision<V>>>): (ds: seq<Decision<V>>)
    ensures |ds| == |groups| && forall i | 0 <= i < |groups| :: ds[i] == AsDecision(Combine(same, groups[i]))
  {
    seq(|groups|, i requires 0 <= i < |groups| => AsDecision(Combine(same, groups[i])))
  }

  lemma {:induction false} FlattenIs<V>(groups: seq<seq<Decision<V>>>)
    ensures forall d :: d in Flatten(groups) <==> exists i | 0 <= i < |groups| :: d in groups[i]
  {
    if groups != [] {
      var rest, last := groups[..|groups| - 1], groups[|groups| - 1];
      assert groups == rest + [last];
      FlattenIs(rest);
      forall d ensures d in Flatten(groups) <==> exists i | 0 <= i < |groups| :: d in groups[i] {
        if d in last { assert d in groups[|groups| - 1]; }
        if i :| 0 <= i < |rest| && d in rest[i] { assert d in groups[i]; }
      }
    }
  }

  /** A group that does not deny hands on, for each key its decisions constrain, a value they all agree with. */
  lemma GroupValues<V(!new)>(same: Same<V>, group: seq<Decision<V>>, d: Decision<V>, key: string)
    requires Equivalence(same) && d in group && key in d.constraints && !SomeDisagreement(same, group)
    ensures key in Combine(same, group).constraints && same(Combine(same, group).constraints[key], d.constraints[key])
  {
    hide DisagreeOn, MergeAll;
    MergeAllIs(same, group, key);
    var i :| 0 <= i < |group| && group[i] == d;
  }

  /** A value a group hands on is one of its decisions' own. */
  lemma GroupGives<V(!new)>(same: Same<V>, group: seq<Decision<V>>, key: string) returns (d: Decision<V>)
    requires Equivalence(same) && key in Combine(same, group).constraints
    ensures d in group && key in d.constraints && d.constraints[key] == Combine(same, group).constraints[key]
  {
    hide DisagreeOn, MergeAll;
    MergeAllIs(same, group, key);
    var i :| 0 <= i < |group| && key in group[i].constraints
        && group[i].constraints[key] == MergeAll(same, group).values[key];
    d := group[i];
  }

  ghost predicate Grouped<V>(groups: seq<seq<Decision<V>>>) {
    groups != [] && forall i | 0 <= i < |groups| :: groups[i] != []
  }

  /** Denials among the parts are denials of the composite, and the other way round. */
  lemma PartDenies<V(!new)>(same: Same<V>, groups: seq<seq<Decision<V>>>, i: nat)
    requires Equivalence(same) && Grouped(groups) && i < |groups|
    requires Combine(same, groups[i]).outcome == Deny
    ensures Combine(same, Composites(same, groups)).outcome == Deny && Combine(same, Flatten(groups)).outcome == Deny
  {
    hide Combine, DisagreeOn, Flatten;
    var flat := Flatten(groups);
    FlattenIs(groups);
    assert Includes(flat, groups[i]) && groups[i][0] in flat;
    MoreNeverWeakens(same, groups[i], flat);
    OutcomeIs(same, Composites(same, groups));
    assert Composites(same, groups)[i].outcome == Deny;
  }

  lemma CompositesDiffer<V(!new)>(same: Same<V>, groups: seq<seq<Decision<V>>>, key: string)
    requires Equivalence(same) && Grouped(groups) && DisagreeOn(same, Composites(same, groups), key)
    ensures SomeDisagreement(same, Flatten(groups))
  {
    hide Combine, Flatten;
    var cs := Composites(same, groups);
    var i, j :| 0 <= i < |cs| && 0 <= j < |cs| && key in cs[i].constraints && key in cs[j].constraints
                && !same(cs[i].constraints[key], cs[j].constraints[key]);
    var d := GroupGives(same, groups[i], key);
    var e := GroupGives(same, groups[j], key);
    FlattenIs(groups);
    assert Differ(same, d, e, key);
    DisagreeIn(same, Flatten(groups), key);
  }

  /** Decisions of two groups that do not themselves deny differ only if the groups' results do. */
  lemma PartsDiffer<V(!new)>(same: Same<V>, groups: seq<seq<Decision<V>>>, key: string)
    requires Equivalence(same) && Grouped(groups) && DisagreeOn(same, Flatten(groups), key)
    requires forall i | 0 <= i < |groups| :: !SomeDisagreement(same, groups[i])
    ensures DisagreeOn(same, Composites(same, groups), key)
  {
    hide Combine, Flatten, SomeDisagreement, DisagreeOn;
    var cs := Composites(same, groups);
    DisagreeIn(same, Flatten(groups), key);
    var d, e :| d in Flatten(groups) && e in Flatten(groups) && Differ(same, d, e, key);
    FlattenIs(groups);
    var i :| 0 <= i < |groups| && d in groups[i];
    var j :| 0 <= j < |groups| && e in groups[j];
    GroupValues(same, groups[i], d, key);
    GroupValues(same, groups[j], e, key);
    assert Differ(same, cs[i], cs[j], key);
    DisagreeIn(same, cs, key);
  }

  /** Composing groups and then the results gives the outcome of composing everything at once. */
  lemma GroupingIsIrrelevant<V(!new)>(same: Same<V>, groups: seq<seq<Decision<V>>>)
    requires Equivalence(same) && Grouped(groups)
    ensures Flatten(groups) != []
    ensures Combine(same, Composites(same, groups)).outcome == Combine(same, Flatten(groups)).outcome
    ensures forall r ::
              r in Combine(same, Composites(same, groups)).roles <==> r in Combine(same, Flatten(groups)).roles
  {
    hide Combine, DisagreeOn, Flatten;
    var cs, flat := Composites(same, groups), Flatten(groups);
    FlattenIs(groups);
    assert groups[0][0] in groups[0] && groups[0][0] in flat;
    GroupedRoles(same, groups);
    if i :| 0 <= i < |groups| && Combine(same, groups[i]).outcome == Deny {
      PartDenies(same, groups, i);
    } else {
      GroupedOutcome(same, groups);
    }
  }

  lemma GroupedRoles<V(!new)>(same: Same<V>, groups: seq<seq<Decision<V>>>)
    requires Grouped(groups)
    ensures forall r ::
              r in Combine(same, Composites(same, groups)).roles <==> r in Combine(same, Flatten(groups)).roles
  {
    hide Combine, Flatten;
    var cs, flat := Composites(same, groups), Flatten(groups);
    FlattenIs(groups);
    RolesAre(same, cs);
    RolesAre(same, flat);
    forall r ensures RequiresRole(cs, r) <==> RequiresRole(flat, r) {
      if d :| d in cs && r in d.roles {
        var i :| 0 <= i < |cs| && cs[i] == d;
        RolesAre(same, groups[i]);
        var e :| e in groups[i] && r in e.roles;
        assert e in flat;
      }
      if d :| d in flat && r in d.roles {
        var i :| 0 <= i < |groups| && d in groups[i];
        RolesAre(same, groups[i]);
        assert cs[i] in cs && r in cs[i].roles;
      }
    }
  }

  /** Every decision is covered by its group's result. */
  lemma CoveredBy<V(!new)>(same: Same<V>, groups: seq<seq<Decision<V>>>, d: Decision<V>) returns (c: Decision<V>)
    requires Equivalence(same) && Grouped(groups) && d in Flatten(groups)
    ensures c in Composites(same, groups) && Rank(d.outcome) <= Rank(c.outcome)
  {
    hide Combine, Flatten, SomeDeny, SomeDisagreement, Equivalence;
    FlattenIs(groups);
    var i :| 0 <= i < |groups| && d in groups[i];
    OutcomeIs(same, groups[i]);
    c := Composites(same, groups)[i];
  }

  /** A group's result that does not deny has the outcome of one of the decisions. */
  lemma ComesFrom<V(!new)>(same: Same<V>, groups: seq<seq<Decision<V>>>, c: Decision<V>) returns (d: Decision<V>)
    requires Equivalence(same) && Grouped(groups) && c in Composites(same, groups) && c.outcome != Deny
    ensures d in Flatten(groups) && d.outcome == c.outcome
  {
    hide Combine, Flatten, SomeDeny, SomeDisagreement, Equivalence;
    FlattenIs(groups);
    var i :| 0 <= i < |groups| && Composites(same, groups)[i] == c;
    OutcomeIs(same, groups[i]);
    d :| d in groups[i] && d.outcome == c.outcome;
  }

  lemma GroupedDisagreement<V(!new)>(same: Same<V>, groups: seq<seq<Decision<V>>>)
    requires Equivalence(same) && Grouped(groups)
    requires forall i | 0 <= i < |groups| :: Combine(same, groups[i]).outcome != Deny
    ensures SomeDisagreement(same, Composites(same, groups)) <==> SomeDisagreement(same, Flatten(groups))
  {
    hide Combine, DisagreeOn, Flatten, SomeDeny, Equivalence;
    var cs, flat := Composites(same, groups), Flatten(groups);
    forall i | 0 <= i < |groups| ensures !SomeDisagreement(same, groups[i]) {
      OutcomeIs(same, groups[i]);
    }
    if SomeDisagreement(same, cs) {
      var key :| DisagreeOn(same, cs, key);
      CompositesDiffer(same, groups, key);
    }
    if SomeDisagreement(same, flat) {
      var key :| DisagreeOn(same, flat, key);
      PartsDiffer(same, groups, key);
    }
  }

  /** If no group denies, neither a group's result nor a decision does. */
  lemma NoDenial<V(!new)>(same: Same<V>, groups: seq<seq<Decision<V>>>)
    requires Equivalence(same) && Grouped(groups)
    requires forall i | 0 <= i < |groups| :: Combine(same, groups[i]).outcome != Deny
    ensures !SomeDeny(Composites(same, groups)) && !SomeDeny(Flatten(groups))
  {
    hide Combine, Flatten, Equivalence, Grouped;
    var flat := Flatten(groups);
    if i :| 0 <= i < |flat| && flat[i].outcome == Deny {
      var c := CoveredBy(same, groups, flat[i]);
    }
  }

  lemma GroupedOutcome<V(!new)>(same: Same<V>, groups: seq<seq<Decision<V>>>)
    requires Equivalence(same) && Grouped(groups) && Flatten(groups) != []
    requires forall i | 0 <= i < |groups| :: Combine(same, groups[i]).outcome != Deny
    ensures Combine(same, Composites(same, groups)).outcome == Combine(same, Flatten(groups)).outcome
  {
    hide Combine, Flatten, SomeDeny, SomeDisagreement, Equivalence, Grouped;
    var cs, flat := Composites(same, groups), Flatten(groups);
    assert cs != [] by { GroupedIsNotEmpty(groups); }
    OutcomeIs(same, cs);
    OutcomeIs(same, flat);
    NoDenial(same, groups);
    GroupedDisagreement(same, groups);
    if !SomeDisagreement(same, flat) {
      var c :| c in cs && c.outcome == Combine(same, cs).outcome;
      var d :| d in flat && d.outcome == Combine(same, flat).outcome;
      var below := ComesFrom(same, groups, c);
      var above := CoveredBy(same, groups, d);
      SameRank(Combine(same, cs).outcome, Combine(same, flat).outcome);
    }
  }

  lemma SameRank(a: Outcome, b: Outcome)
    ensures Rank(a) <= Rank(b) && Rank(b) <= Rank(a) ==> a == b
  {
  }

  lemma GroupedIsNotEmpty<V>(groups: seq<seq<Decision<V>>>)
    requires Grouped(groups)
    ensures groups != []
  {
  }

  // ---------------------------------------------------------------- the Python loop

  /** The items of a dictionary whose keys are not in `left`. */
  function Part<V>(c: map<string, V>, left: set<string>): map<string, V> {
    map k | k in c && k !in left :: c[k]
  }

  lemma MergeOneMore<V>(same: Same<V>, m: Merged<V>, c: map<string, V>, left: set<string>, key: string)
    requires key in left && left <= c.Keys
    ensures var so := Merge(same, m, Part(c, left));
            var next := Merge(same, m, Part(c, left - {key}));
            if key in so.values && !same(so.values[key], c[key])
            then next == Merged(so.values, so.conflicts + {key})
                else next == Merged(so.values[key := c[key]], so.conflicts)
  {
    var so, next := Merge(same, m, Part(c, left)), Merge(same, m, Part(c, left - {key}));
    assert Part(c, left - {key}) == Part(c, left)[key := c[key]];
    assert key in so.values <==> key in m.values;
    assert key in m.values ==> so.values[key] == m.values[key];
    if Clashes(same, m.values, key, c[key]) {
      assert next.conflicts == so.conflicts + {key};
      assert next.values == so.values;
    } else {
      assert next.conflicts == so.conflicts;
      assert next.values == so.values[key := c[key]];
    }
  }

  lemma MergeNone<V>(same: Same<V>, m: Merged<V>, c: map<string, V>)
    ensures Merge(same, m, Part(c, c.Keys)) == m && Part(c, {}) == c
  {
    assert Part(c, c.Keys) == map[];
    assert Merge(same, m, map[]).values == m.values && Merge(same, m, map[]).conflicts == m.conflicts;
  }

  /** Merge one dictionary, item by item, in whatever order it lists its keys. */
  method MergeItems<V>(same: Same<V>, values: map<string, V>, conflicts: set<string>, c: map<string, V>)
    returns (newValues: map<string, V>, newConflicts: set<string>)
    ensures Merged(newValues, newConflicts) == Merge(same, Merged(values, conflicts), c)
  {
    hide Merge, Part;
    newValues, newConflicts := values, conflicts;
    var left := c.Keys;
    MergeNone(same, Merged(values, conflicts), c);
    while left != {}
      invariant left <= c.Keys
      invariant Merged(newValues, newConflicts) == Merge(same, Merged(values, conflicts), Part(c, left))
      decreases |left|
    {
      var key :| key in left;
      var value := c[key];
      MergeOneMore(same, Merged(values, conflicts), c, left, key);
      if key in newValues && !same(newValues[key], value) {
        newConflicts := newConflicts + {key};
      } else {
        newValues := newValues[key := value];
      }
      left := left - {key};
    }
  }

  /** `sorted` on a set of names. */
  method SortNames(names: set<string>) returns (sorted: seq<string>)
    ensures Ascending(sorted) && forall n :: n in sorted <==> n in names
    ensures names == {} ==> sorted == []
  {
    sorted := [];
    var left := names;
    while left != {}
      invariant left <= names && Ascending(sorted) && (left == names ==> sorted == [])
      invariant forall n :: n in sorted <==> n in names && n !in left
      decreases |left|
    {
      var n :| n in left;
      InsertNameIs(n, sorted);
      sorted := InsertName(n, sorted);
      left := left - {n};
    }
  }

  /** `combine_policy_semantics`: comprehensions for outcome, reasons and roles, a loop for the constraints. */
  method CombinePython<V>(same: Same<V>, ds: seq<Decision<V>>) returns (r: Option<Result<V>>)
    ensures r.None? <==> ds == []
    ensures r.Some? ==> r.value == Combine(same, ds)
  {
    hide Merge;
    if ds == [] {
      return None;
    }
    var outcome, reasons, roles := Strictest(ds), AllReasons(ds), SortedUnique(AllRoles(ds));
    var constraints: map<string, V>, conflicts: set<string> := map[], {};
    for i := 0 to |ds|
      invariant Merged(constraints, conflicts) == MergeAll(same, ds[..i])
    {
      assert ds[..i + 1][..i] == ds[..i];
      constraints, conflicts := MergeItems(same, constraints, conflicts, ds[i].constraints);
    }
    assert ds[..|ds|] == ds;
    var sorted := SortNames(conflicts);
    AscendingIsUnique(sorted, Sorted(conflicts));
    if conflicts != {} {
      outcome := Deny;
      reasons := reasons + ConflictReasons(sorted);
    } else {
      assert reasons + ConflictReasons(sorted) == reasons;
    }
    return Some(Result(outcome, if reasons == [] then ["all_policy_engines_returned_no_reason"] else reasons, roles,
        constraints));
  }
}
