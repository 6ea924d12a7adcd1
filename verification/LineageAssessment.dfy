/** The production lineage policy: what a complete assessment implies, and why it stays complete. */
module LineageAssessment {
  import opened Common
  import opened Lineage

  datatype Requirement =
    | NeedObservation | NeedDeployment | NeedAction | NeedAuthorization | NeedBuild | NeedSourceTree | NeedGeneration
    | NeedVerification | NeedSpecification | NeedDecisions | NeedReconciliation

  datatype Assessment = Assessment(complete: bool, satisfied: seq<Requirement>, missing: seq<Requirement>,
      path: seq<Node>)

  // ---------------------------------------------------------------- candidates

  /** The relation leads to `node` from a node of `kind`, by `relation`. */
  predicate LeadsTo(g: Graph, r: Relation, relation: RelationType, node: Node, kind: Kind) {
    && r.relation == relation && r.target == node.AsRef()
    && r.subject.nodeId in g.nodes && g.nodes[r.subject.nodeId].kind == kind
  }

  predicate LeadsFrom(g: Graph, r: Relation, relation: RelationType, node: Node, kind: Kind) {
    && r.relation == relation && r.subject == node.AsRef()
    && r.target.nodeId in g.nodes && g.nodes[r.target.nodeId].kind == kind
  }

  /** Candidates in the order of the relations. */
  function Subjects(g: Graph, relations: seq<Relation>, relation: RelationType, node: Node, kind: Kind): seq<Node> {
    if relations == [] then []
    else
      var last := relations[|relations| - 1];
      Subjects(g, relations[..|relations| - 1], relation, node, kind)
      + if LeadsTo(g, last, relation, node, kind) then [g.nodes[last.subject.nodeId]] else []
  }

  function Targets(g: Graph, relations: seq<Relation>, relation: RelationType, node: Node, kind: Kind): seq<Node> {
    if relations == [] then []
    else
      var last := relations[|relations| - 1];
      Targets(g, relations[..|relations| - 1], relation, node, kind)
      + if LeadsFrom(g, last, relation, node, kind) then [g.nodes[last.target.nodeId]] else []
  }

  /** The first candidate that satisfies its own verdict, or else the first. */
  function FirstOk(candidates: seq<Node>): Option<Node> {
    if candidates == [] then None
    else if candidates[0].ok then Some(candidates[0])
    else FirstOk(candidates[1..])
  }

  function Choose(candidates: seq<Node>, judged: bool): Option<Node> {
    if judged && FirstOk(candidates).Some? then FirstOk(candidates)
    else if candidates == [] then None
    else Some(candidates[0])
  }

  /** `_subject` and `_object`. */
  function SubjectOf(g: Graph, relation: RelationType, node: Option<Node>, kind: Kind, judged: bool): Option<Node> {
    if node.None? then None else Choose(Subjects(g, g.relations, relation, node.value, kind), judged)
  }

  function TargetOf(g: Graph, relation: RelationType, node: Option<Node>, kind: Kind, judged: bool): Option<Node> {
    if node.None? then None else Choose(Targets(g, g.relations, relation, node.value, kind), judged)
  }

  method FindSubject(g: Graph, relation: RelationType, node: Option<Node>, kind: Kind, judged: bool)
    returns (found: Option<Node>)
    requires forall i | 0 <= i < |g.relations| :: g.relations[i].subject.nodeId in g.nodes
    ensures found == SubjectOf(g, relation, node, kind, judged)
  {
    hide FirstOk, Subjects, Choose;
    if node.None? {
      return None;
    }
    var candidates: seq<Node> := [];
    assert g.relations[..0] == [] && Subjects(g, [], relation, node.value, kind) == [] by {
      NoSubjects(g, relation, node.value, kind);
    }
    for i := 0 to |g.relations|
      invariant candidates == Subjects(g, g.relations[..i], relation, node.value, kind)
    {
      var r := g.relations[i];
      assert g.relations[..i + 1] == g.relations[..i] + [r];
      SubjectsAppend(g, g.relations[..i], r, relation, node.value, kind);
      if r.relation == relation && r.target == node.value.AsRef() {
        var candidate := g.nodes[r.subject.nodeId];
        if candidate.kind == kind {
          candidates := candidates + [candidate];
        }
      }
    }
    assert g.relations[..|g.relations|] == g.relations;
    ChooseIs(candidates, judged);
    if judged {
      var first := FirstOk(candidates);
      if first.Some? {
        return first;
      }
    }
    return if candidates == [] then None else Some(candidates[0]);
  }

  lemma ChooseIs(candidates: seq<Node>, judged: bool)
    ensures Choose(candidates, judged)
         == if judged && FirstOk(candidates).Some? then FirstOk(candidates)
            else if candidates == [] then None else Some(candidates[0])
  {
  }

  lemma NoSubjects(g: Graph, relation: RelationType, node: Node, kind: Kind)
    ensures Subjects(g, [], relation, node, kind) == []
  {
  }

  lemma NoTargets(g: Graph, relation: RelationType, node: Node, kind: Kind)
    ensures Targets(g, [], relation, node, kind) == []
  {
  }

  lemma SubjectsAppend(g: Graph, relations: seq<Relation>, r: Relation, relation: RelationType, node: Node, kind: Kind)
    ensures Subjects(g, relations + [r], relation, node, kind)
         == Subjects(g, relations, relation, node, kind)
             + (if LeadsTo(g, r, relation, node, kind) then [g.nodes[r.subject.nodeId]] else [])
  {
    assert (relations + [r])[..|relations|] == relations;
  }

  method FindTarget(g: Graph, relation: RelationType, node: Option<Node>, kind: Kind, judged: bool)
    returns (found: Option<Node>)
    requires forall i | 0 <= i < |g.relations| :: g.relations[i].target.nodeId in g.nodes
    ensures found == TargetOf(g, relation, node, kind, judged)
  {
    hide FirstOk, Targets, Choose;
    if node.None? {
      return None;
    }
    var candidates: seq<Node> := [];
    assert g.relations[..0] == [] && Targets(g, [], relation, node.value, kind) == [] by {
      NoTargets(g, relation, node.value, kind);
    }
    for i := 0 to |g.relations|
      invariant candidates == Targets(g, g.relations[..i], relation, node.value, kind)
    {
      var r := g.relations[i];
      assert g.relations[..i + 1] == g.relations[..i] + [r];
      TargetsAppend(g, g.relations[..i], r, relation, node.value, kind);
      if r.relation == relation && r.subject == node.value.AsRef() {
        var candidate := g.nodes[r.target.nodeId];
        if candidate.kind == kind {
          candidates := candidates + [candidate];
        }
      }
    }
    assert g.relations[..|g.relations|] == g.relations;
    ChooseIs(candidates, judged);
    if judged {
      var first := FirstOk(candidates);
      if first.Some? {
        return first;
      }
    }
    return if candidates == [] then None else Some(candidates[0]);
  }

  lemma TargetsAppend(g: Graph, relations: seq<Relation>, r: Relation, relation: RelationType, node: Node, kind: Kind)
    ensures Targets(g, relations + [r], relation, node, kind)
         == Targets(g, relations, relation, node, kind)
             + (if LeadsFrom(g, r, relation, node, kind) then [g.nodes[r.target.nodeId]] else [])
  {
    assert (relations + [r])[..|relations|] == relations;
  }

  // ---------------------------------------------------------------- the assessment

  /** The nodes the search picks, backwards from the observation. */
  datatype Chain = Chain(
    specification: Option<Node>, decisions: Option<Node>, generator: Option<Node>, tree: Option<Node>,
    verification: Option<Node>, build: Option<Node>, authorization: Option<Node>, action: Option<Node>,
    deployment: Option<Node>, observed: Node, reconciliation: Option<Node>)

  function Search(g: Graph, observed: Node): Chain {
    var deployment := SubjectOf(g, ObservedAs, Some(observed), Deployment, true);
    var action := SubjectOf(g, DeployedAs, deployment, AgentAction, true);
    var authorization := SubjectOf(g, AuthorizedAction, action, Authorization, true);
    var build := SubjectOf(g, AuthorizedBy, authorization, BuildArtifact, true);
    var tree := SubjectOf(g, BuiltAs, build, SourceTree, false);
    var generator := SubjectOf(g, Produced, tree, Generator, true);
    var verification := TargetOf(g, VerifiedBy, tree, Verification, true);
    var specification := TargetOf(g, GeneratedFrom, generator, Specification, false);
    var decisions := TargetOf(g, GeneratedFrom, generator, DecisionSet, false);
    var reconciliation := TargetOf(g, ComparedBy, Some(observed), Reconciliation, true);
    Chain(specification, decisions, generator, tree, verification, build, authorization, action, deployment, observed,
          reconciliation)
  }

  predicate Passes(node: Option<Node>) { node.Some? && node.value.ok }

  /** Each requirement with whether the chain meets it, in the order they are marked. */
  function Marks(c: Chain): seq<(Requirement, bool)> {
    [(NeedObservation, true), (NeedDeployment, Passes(c.deployment)), (NeedAction, Passes(c.action)),
     (NeedAuthorization, Passes(c.authorization)), (NeedBuild, Passes(c.build)), (NeedSourceTree, c.tree.Some?),
     (NeedGeneration, Passes(c.generator)), (NeedVerification, Passes(c.verification)),
     (NeedSpecification, c.specification.Some?), (NeedDecisions, c.decisions.Some?),
     (NeedReconciliation, Passes(c.reconciliation))]
  }

  function Marked(marks: seq<(Requirement, bool)>, met: bool): seq<Requirement> {
    if marks == [] then [] else (if marks[0].1 == met then [marks[0].0] else []) + Marked(marks[1..], met)
  }

  function Present(nodes: seq<Option<Node>>): seq<Node> {
    if nodes == [] then [] else (if nodes[0].Some? then [nodes[0].value] else []) + Present(nodes[1..])
  }

  function PathOf(c: Chain): seq<Node> {
    Present([c.specification, c.decisions, c.generator, c.tree, c.verification, c.build, c.authorization, c.action,
             c.deployment, Some(c.observed), c.reconciliation])
  }

  /** `assess`; `None` when there is no such observation. */
  function Assess(g: Graph, observationId: nat): Option<Assessment> {
    if observationId !in g.nodes || g.nodes[observationId].kind != Observation then None
    else
      var c := Search(g, g.nodes[observationId]);
      var missing := Marked(Marks(c), false);
      Some(Assessment(missing == [], Marked(Marks(c), true), missing, PathOf(c)))
  }

  lemma EndpointsExist(g: Graph)
    requires RelationsOk(g)
    ensures forall i | 0 <= i < |g.relations| ::
              g.relations[i].subject.nodeId in g.nodes && g.relations[i].target.nodeId in g.nodes
  {
    forall i | 0 <= i < |g.relations| ensures RelationOk(g.nodes, g.relations[i]) {
    }
  }

  /** `assess` on a valid graph. */
  method AssessObservation(g: Graph, observationId: nat) returns (assessment: Option<Assessment>)
    requires RelationsOk(g)
    ensures assessment == Assess(g, observationId)
  {
    hide SubjectOf, TargetOf, Marked, Present, RelationsOk;
    if observationId !in g.nodes || g.nodes[observationId].kind != Observation {
      return None;
    }
    EndpointsExist(g);
    var observed := g.nodes[observationId];
    var deployment := FindSubject(g, ObservedAs, Some(observed), Deployment, true);
    var action := FindSubject(g, DeployedAs, deployment, AgentAction, true);
    var authorization := FindSubject(g, AuthorizedAction, action, Authorization, true);
    var build := FindSubject(g, AuthorizedBy, authorization, BuildArtifact, true);
    var tree := FindSubject(g, BuiltAs, build, SourceTree, false);
    var generator := FindSubject(g, Produced, tree, Generator, true);
    var verification := FindTarget(g, VerifiedBy, tree, Verification, true);
    var specification := FindTarget(g, GeneratedFrom, generator, Specification, false);
    var decisions := FindTarget(g, GeneratedFrom, generator, DecisionSet, false);
    var reconciliation := FindTarget(g, ComparedBy, Some(observed), Reconciliation, true);
    var chain := Chain(specification, decisions, generator, tree, verification, build, authorization, action,
                       deployment, observed, reconciliation);
    var missing := Marked(Marks(chain), false);
    return Some(Assessment(missing == [], Marked(Marks(chain), true), missing, PathOf(chain)));
  }

  // ---------------------------------------------------------------- what candidates are

  lemma {:induction false} SubjectsAre(g: Graph, relations: seq<Relation>, relation: RelationType, node: Node,
                                       kind: Kind, c: Node)
    requires c in Subjects(g, relations, relation, node, kind)
    ensures exists r :: r in relations && LeadsTo(g, r, relation, node, kind) && g.nodes[r.subject.nodeId] == c
    decreases |relations|
  {
    var last, rest := relations[|relations| - 1], relations[..|relations| - 1];
    if c in Subjects(g, rest, relation, node, kind) {
      SubjectsAre(g, rest, relation, node, kind, c);
      var r :| r in rest && LeadsTo(g, r, relation, node, kind) && g.nodes[r.subject.nodeId] == c;
      assert r in relations;
    } else {
      assert last in relations;
    }
  }

  lemma {:induction false} TargetsAre(g: Graph, relations: seq<Relation>, relation: RelationType, node: Node,
                                      kind: Kind, c: Node)
    requires c in Targets(g, relations, relation, node, kind)
    ensures exists r :: r in relations && LeadsFrom(g, r, relation, node, kind) && g.nodes[r.target.nodeId] == c
    decreases |relations|
  {
    var last, rest := relations[|relations| - 1], relations[..|relations| - 1];
    if c in Targets(g, rest, relation, node, kind) {
      TargetsAre(g, rest, relation, node, kind, c);
      var r :| r in rest && LeadsFrom(g, r, relation, node, kind) && g.nodes[r.target.nodeId] == c;
      assert r in relations;
    } else {
      assert last in relations;
    }
  }

  lemma {:induction false} FirstOkIs(candidates: seq<Node>)
    ensures FirstOk(candidates).Some? ==> FirstOk(candidates).value in candidates && FirstOk(candidates).value.ok
    ensures FirstOk(candidates).None? <==> forall i | 0 <= i < |candidates| :: !candidates[i].ok
  {
    if candidates != [] { FirstOkIs(candidates[1..]); }
  }

  /** More candidates after these do not change a choice that passed. */
  lemma {:induction false} ChoiceStays(candidates: seq<Node>, more: seq<Node>, judged: bool)
    requires Choose(candidates, judged).Some? && (judged ==> Choose(candidates, judged).value.ok)
    ensures Choose(candidates + more, judged) == Choose(candidates, judged)
  {
    FirstOkIs(candidates);
    if judged {
      FirstOkStays(candidates, more);
    }
  }

  lemma {:induction false} FirstOkStays(candidates: seq<Node>, more: seq<Node>)
    requires FirstOk(candidates).Some?
    ensures FirstOk(candidates + more) == FirstOk(candidates)
  {
    if !candidates[0].ok {
      FirstOkStays(candidates[1..], more);
      assert (candidates + more)[1..] == candidates[1..] + more;
    }
  }

  // ---------------------------------------------------------------- a complete assessment is sound

  /** The graph records the relation between the two nodes. */
  ghost predicate Linked(g: Graph, relation: RelationType, a: Node, b: Node) {
    exists r :: r in g.relations && r.relation == relation && r.subject == a.AsRef() && r.target == b.AsRef()
  }

  predicate InGraphAs(g: Graph, node: Node, kind: Kind) {
    node.nodeId in g.nodes && g.nodes[node.nodeId] == node && node.kind == kind
  }

  lemma SubjectIsLinked(g: Graph, tenantId: string, runId: nat, relation: RelationType, node: Node, kind: Kind,
                        judged: bool)
    requires NodesOk(g.nodes, tenantId, runId) && RelationsOk(g)
    ensures var c := SubjectOf(g, relation, Some(node), kind, judged);
            c.Some? ==> InGraphAs(g, c.value, kind) && Linked(g, relation, c.value, node)
  {
    var candidates := Subjects(g, g.relations, relation, node, kind);
    FirstOkIs(candidates);
    var c := Choose(candidates, judged);
    if c.Some? {
      SubjectsAre(g, g.relations, relation, node, kind, c.value);
      var r :| r in g.relations && LeadsTo(g, r, relation, node, kind) && g.nodes[r.subject.nodeId] == c.value;
      InGraph(g, r);
    }
  }

  lemma TargetIsLinked(g: Graph, tenantId: string, runId: nat, relation: RelationType, node: Node, kind: Kind,
                       judged: bool)
    requires NodesOk(g.nodes, tenantId, runId) && RelationsOk(g)
    ensures var c := TargetOf(g, relation, Some(node), kind, judged);
            c.Some? ==> InGraphAs(g, c.value, kind) && Linked(g, relation, node, c.value)
  {
    var candidates := Targets(g, g.relations, relation, node, kind);
    FirstOkIs(candidates);
    var c := Choose(candidates, judged);
    if c.Some? {
      TargetsAre(g, g.relations, relation, node, kind, c.value);
      var r :| r in g.relations && LeadsFrom(g, r, relation, node, kind) && g.nodes[r.target.nodeId] == c.value;
      InGraph(g, r);
    }
  }

  predicate AllMet(c: Chain) {
    && c.specification.Some? && c.decisions.Some? && Passes(c.generator) && c.tree.Some? && Passes(c.verification)
    && Passes(c.build) && Passes(c.authorization) && Passes(c.action) && Passes(c.deployment)
        && Passes(c.reconciliation)
  }

  lemma {:induction false} MarkedNone(marks: seq<(Requirement, bool)>)
    ensures Marked(marks, false) == [] <==> forall i | 0 <= i < |marks| :: marks[i].1
  {
    if marks != [] { MarkedNone(marks[1..]); }
  }

  lemma CompleteWhen(c: Chain)
    ensures Marked(Marks(c), false) == [] <==> AllMet(c)
  {
    var marks := Marks(c);
    MarkedNone(marks);
    assert marks[1].1 == Passes(c.deployment) && marks[2].1 == Passes(c.action)
        && marks[3].1 == Passes(c.authorization);
    assert marks[4].1 == Passes(c.build) && marks[5].1 == c.tree.Some? && marks[6].1 == Passes(c.generator);
    assert marks[7].1 == Passes(c.verification) && marks[8].1 == c.specification.Some?
        && marks[9].1 == c.decisions.Some?;
    assert marks[10].1 == Passes(c.reconciliation);
  }

  /** A full delivery chain: every node of its kind, positive where its kind has a verdict, each linked to the next. */
  ghost predicate FullChain(g: Graph, p: seq<Node>) {
    && |p| == 11
    && InGraphAs(g, p[0], Specification) && InGraphAs(g, p[1], DecisionSet) && InGraphAs(g, p[2], Generator)
    && InGraphAs(g, p[3], SourceTree) && InGraphAs(g, p[4], Verification) && InGraphAs(g, p[5], BuildArtifact)
    && InGraphAs(g, p[6], Authorization) && InGraphAs(g, p[7], AgentAction) && InGraphAs(g, p[8], Deployment)
    && InGraphAs(g, p[9], Observation) && InGraphAs(g, p[10], Reconciliation)
    && p[2].ok && p[4].ok && p[5].ok && p[6].ok && p[7].ok && p[8].ok && p[10].ok
    && Linked(g, GeneratedFrom, p[2], p[0]) && Linked(g, GeneratedFrom, p[2], p[1]) && Linked(g, Produced, p[2], p[3])
    && Linked(g, VerifiedBy, p[3], p[4]) && Linked(g, BuiltAs, p[3], p[5]) && Linked(g, AuthorizedBy, p[5], p[6])
    && Linked(g, AuthorizedAction, p[6], p[7]) && Linked(g, DeployedAs, p[7], p[8]) && Linked(g, ObservedAs, p[8], p[9])
    && Linked(g, ComparedBy, p[9], p[10])
  }

  /** The path of an assessment whose chain is whole lists the chain. */
  lemma WholePath(c: Chain)
    requires AllMet(c)
    ensures PathOf(c)
            == [c.specification.value, c.decisions.value, c.generator.value, c.tree.value, c.verification.value,
                          c.build.value, c.authorization.value, c.action.value, c.deployment.value, c.observed,
                          c.reconciliation.value]
  {
    var n := [c.specification, c.decisions, c.generator, c.tree, c.verification, c.build, c.authorization, c.action,
              c.deployment, Some(c.observed), c.reconciliation];
    PresentAll(n);
    var p := PathOf(c);
    assert p[0] == n[0].value && p[1] == n[1].value && p[2] == n[2].value && p[3] == n[3].value && p[4] == n[4].value;
    assert p[5] == n[5].value && p[6] == n[6].value && p[7] == n[7].value && p[8] == n[8].value && p[9] == n[9].value;
    assert p[10] == n[10].value;
  }

  lemma {:induction false} PresentAll(nodes: seq<Option<Node>>)
    requires forall i | 0 <= i < |nodes| :: nodes[i].Some?
    ensures |Present(nodes)| == |nodes| && forall i | 0 <= i < |nodes| :: Present(nodes)[i] == nodes[i].value
  {
    if nodes != [] { PresentAll(nodes[1..]); }
  }

  lemma ChainIsLinked(g: Graph, tenantId: string, runId: nat, observed: Node)
    requires NodesOk(g.nodes, tenantId, runId) && RelationsOk(g) && InGraphAs(g, observed, Observation)
    requires AllMet(Search(g, observed))
    ensures FullChain(g, PathOf(Search(g, observed)))
  {
    hide SubjectOf, TargetOf, NodesOk, RelationsOk, Linked, InGraphAs, PathOf;
    var c := Search(g, observed);
    WholePath(c);
    SubjectIsLinked(g, tenantId, runId, ObservedAs, observed, Deployment, true);
    SubjectIsLinked(g, tenantId, runId, DeployedAs, c.deployment.value, AgentAction, true);
    SubjectIsLinked(g, tenantId, runId, AuthorizedAction, c.action.value, Authorization, true);
    SubjectIsLinked(g, tenantId, runId, AuthorizedBy, c.authorization.value, BuildArtifact, true);
    SubjectIsLinked(g, tenantId, runId, BuiltAs, c.build.value, SourceTree, false);
    SubjectIsLinked(g, tenantId, runId, Produced, c.tree.value, Generator, true);
    TargetIsLinked(g, tenantId, runId, VerifiedBy, c.tree.value, Verification, true);
    TargetIsLinked(g, tenantId, runId, GeneratedFrom, c.generator.value, Specification, false);
    TargetIsLinked(g, tenantId, runId, GeneratedFrom, c.generator.value, DecisionSet, false);
    TargetIsLinked(g, tenantId, runId, ComparedBy, observed, Reconciliation, true);
  }

  /** `complete` means a full chain, from specification and decisions to a matched reconciliation, with the
      observation in its place. */
  lemma CompleteIsSound(g: Graph, tenantId: string, runId: nat, observationId: nat)
    requires NodesOk(g.nodes, tenantId, runId) && RelationsOk(g)
    requires Assess(g, observationId).Some? && Assess(g, observationId).value.complete
    ensures var a := Assess(g, observationId).value;
            FullChain(g, a.path) && a.path[9] == g.nodes[observationId] && a.missing == []
  {
    hide Search, FullChain, Marked, Marks, PathOf, NodesOk, RelationsOk;
    var observed := g.nodes[observationId];
    assert observed.nodeId == observationId by { OwnId(g, tenantId, runId, observationId); }
    CompleteWhen(Search(g, observed));
    ChainIsLinked(g, tenantId, runId, observed);
    WholePath(Search(g, observed));
    assert Search(g, observed).observed == observed by { SearchKeeps(g, observed); }
  }

  lemma OwnId(g: Graph, tenantId: string, runId: nat, id: nat)
    requires NodesOk(g.nodes, tenantId, runId) && id in g.nodes
    ensures g.nodes[id].nodeId == id
  {
  }

  lemma SearchKeeps(g: Graph, observed: Node)
    ensures Search(g, observed).observed == observed
  {
  }

  // ---------------------------------------------------------------- and it stays complete

  lemma {:induction false} SubjectsInExtension(g: Graph, h: Graph, relations: seq<Relation>, relation: RelationType,
                                               node: Node, kind: Kind)
    requires (forall id | id in g.nodes :: id in h.nodes && h.nodes[id] == g.nodes[id])
    requires forall i | 0 <= i < |relations| :: relations[i].subject.nodeId in g.nodes
    ensures Subjects(h, relations, relation, node, kind) == Subjects(g, relations, relation, node, kind)
    decreases |relations|
  {
    if relations != [] {
      SubjectsInExtension(g, h, relations[..|relations| - 1], relation, node, kind);
    }
  }

  lemma {:induction false} SubjectsPrefix(h: Graph, relations: seq<Relation>, rest: seq<Relation>,
                                          relation: RelationType, node: Node, kind: Kind)
    ensures Subjects(h, relations, relation, node, kind) <= Subjects(h, relations + rest, relation, node, kind)
    decreases |rest|
  {
    if rest == [] {
      assert relations + rest == relations;
    } else {
      var last := rest[|rest| - 1];
      SubjectsPrefix(h, relations, rest[..|rest| - 1], relation, node, kind);
      SubjectsAppend(h, relations + rest[..|rest| - 1], last, relation, node, kind);
      assert relations + rest == relations + rest[..|rest| - 1] + [last];
    }
  }

  lemma {:induction false} TargetsInExtension(g: Graph, h: Graph, relations: seq<Relation>, relation: RelationType,
                                              node: Node, kind: Kind)
    requires (forall id | id in g.nodes :: id in h.nodes && h.nodes[id] == g.nodes[id])
    requires forall i | 0 <= i < |relations| :: relations[i].target.nodeId in g.nodes
    ensures Targets(h, relations, relation, node, kind) == Targets(g, relations, relation, node, kind)
    decreases |relations|
  {
    if relations != [] {
      TargetsInExtension(g, h, relations[..|relations| - 1], relation, node, kind);
    }
  }

  lemma {:induction false} TargetsPrefix(h: Graph, relations: seq<Relation>, rest: seq<Relation>,
                                         relation: RelationType, node: Node, kind: Kind)
    ensures Targets(h, relations, relation, node, kind) <= Targets(h, relations + rest, relation, node, kind)
    decreases |rest|
  {
    if rest == [] {
      assert relations + rest == relations;
    } else {
      var last := rest[|rest| - 1];
      TargetsPrefix(h, relations, rest[..|rest| - 1], relation, node, kind);
      TargetsAppend(h, relations + rest[..|rest| - 1], last, relation, node, kind);
      assert relations + rest == relations + rest[..|rest| - 1] + [last];
    }
  }

  /** A choice that passed in `g` is the choice in every extension of `g`. */
  lemma SubjectStays(g: Graph, h: Graph, relation: RelationType, node: Option<Node>, kind: Kind, judged: bool)
    requires Extends(g, h) && RelationsOk(g)
    requires SubjectOf(g, relation, node, kind, judged).Some?
    requires judged ==> SubjectOf(g, relation, node, kind, judged).value.ok
    ensures SubjectOf(h, relation, node, kind, judged) == SubjectOf(g, relation, node, kind, judged)
  {
    hide Choose, Subjects;
    EndpointsExist(g);
    SubjectsInExtension(g, h, g.relations, relation, node.value, kind);
    SubjectsPrefix(h, g.relations, h.relations[|g.relations|..], relation, node.value, kind);
    assert h.relations == g.relations + h.relations[|g.relations|..];
    var few, more := Subjects(g, g.relations, relation, node.value, kind),
        Subjects(h, h.relations, relation, node.value, kind);
    assert more == few + more[|few|..];
    ChoiceStays(few, more[|few|..], judged);
  }

  lemma TargetStays(g: Graph, h: Graph, relation: RelationType, node: Option<Node>, kind: Kind, judged: bool)
    requires Extends(g, h) && RelationsOk(g)
    requires TargetOf(g, relation, node, kind, judged).Some?
    requires judged ==> TargetOf(g, relation, node, kind, judged).value.ok
    ensures TargetOf(h, relation, node, kind, judged) == TargetOf(g, relation, node, kind, judged)
  {
    hide Choose, Targets;
    EndpointsExist(g);
    TargetsInExtension(g, h, g.relations, relation, node.value, kind);
    TargetsPrefix(h, g.relations, h.relations[|g.relations|..], relation, node.value, kind);
    assert h.relations == g.relations + h.relations[|g.relations|..];
    var few, more := Targets(g, g.relations, relation, node.value, kind),
        Targets(h, h.relations, relation, node.value, kind);
    assert more == few + more[|few|..];
    ChoiceStays(few, more[|few|..], judged);
  }

  lemma SearchStays(g: Graph, h: Graph, observed: Node)
    requires Extends(g, h) && RelationsOk(g) && AllMet(Search(g, observed))
    ensures Search(h, observed) == Search(g, observed)
  {
    hide SubjectOf, TargetOf, Extends, RelationsOk;
    var c := Search(g, observed);
    SubjectStays(g, h, ObservedAs, Some(observed), Deployment, true);
    SubjectStays(g, h, DeployedAs, c.deployment, AgentAction, true);
    SubjectStays(g, h, AuthorizedAction, c.action, Authorization, true);
    SubjectStays(g, h, AuthorizedBy, c.authorization, BuildArtifact, true);
    SubjectStays(g, h, BuiltAs, c.build, SourceTree, false);
    SubjectStays(g, h, Produced, c.tree, Generator, true);
    TargetStays(g, h, VerifiedBy, c.tree, Verification, true);
    TargetStays(g, h, GeneratedFrom, c.generator, Specification, false);
    TargetStays(g, h, GeneratedFrom, c.generator, DecisionSet, false);
    TargetStays(g, h, ComparedBy, Some(observed), Reconciliation, true);
  }

  /** Whatever is recorded afterwards, in this run or another, a complete assessment stays complete with
      the same path. */
  lemma CompleteIsStable(s: Store, run: seq<Op>, key: RunKey, observationId: nat)
    requires StoreOk(s)
    requires Assess(GraphOf(s, key), observationId).Some? && Assess(GraphOf(s, key), observationId).value.complete
    ensures Assess(GraphOf(After(s, run), key), observationId) == Assess(GraphOf(s, key), observationId)
  {
    hide Search, Marked, Marks, PathOf, RelationsOk, NodesOk;
    var g, h := GraphOf(s, key), GraphOf(After(s, run), key);
    AfterGrows(s, run);
    assert RelationsOk(g) && Extends(g, h);
    CompleteWhen(Search(g, g.nodes[observationId]));
    SearchStays(g, h, g.nodes[observationId]);
  }
}
