/** Exactly when an observation is assessed as complete: the search takes the first recorded candidate at each step and
    does not go back. Where no step has a choice, that is whenever a full chain is recorded. */
module LineageCompleteness {
  import opened Common
  import opened Lineage
  import opened LineageAssessment

  // ---------------------------------------------------------------- candidates, by the relations that offer them

  /** One step of the search: from a node back to what a relation comes from, or on to what it leads to. */
  datatype Hop = Hop(relation: RelationType, onward: bool, kind: Kind, judged: bool)

  function Near(r: Relation, hop: Hop): Ref { if hop.onward then r.subject else r.target }

  function Far(r: Relation, hop: Hop): Ref { if hop.onward then r.target else r.subject }

  /** Relation `i` offers `c` as the other end of the hop from `node`. */
  predicate Offers(g: Graph, i: nat, hop: Hop, node: Node, c: Node) {
    && i < |g.relations| && g.relations[i].relation == hop.relation && Near(g.relations[i], hop) == node.AsRef()
    && Far(g.relations[i], hop).nodeId in g.nodes && g.nodes[Far(g.relations[i], hop).nodeId] == c
    && c.kind == hop.kind && (hop.judged ==> c.ok)
  }

  /** It is the first that offers anything. */
  ghost predicate OffersFirst(g: Graph, i: nat, hop: Hop, node: Node, c: Node) {
    Offers(g, i, hop, node, c) && forall j: nat, d | j < i :: !Offers(g, j, hop, node, d)
  }

  /** `c` is the first recorded candidate that passes. */
  ghost predicate First(g: Graph, hop: Hop, node: Node, c: Node) {
    exists i :: OffersFirst(g, i, hop, node, c)
  }

  /** The first of the candidates that passes. */
  function Picked(candidates: seq<Node>, judged: bool): Option<Node> {
    if judged then FirstOk(candidates) else if candidates == [] then None else Some(candidates[0])
  }

  lemma {:induction false} FirstOkOneMore(candidates: seq<Node>, c: Node)
    ensures FirstOk(candidates + [c])
         == if FirstOk(candidates).Some? then FirstOk(candidates) else if c.ok then Some(c) else None
  {
    if candidates == [] {
      assert [c][1..] == [] && candidates + [c] == [c];
    } else {
      assert (candidates + [c])[1..] == candidates[1..] + [c];
      FirstOkOneMore(candidates[1..], c);
    }
  }

  lemma PickedOneMore(candidates: seq<Node>, c: Node, judged: bool)
    ensures Picked(candidates + [c], judged) ==
            if Picked(candidates, judged).Some? then Picked(candidates, judged)
            else if judged && !c.ok then None else Some(c)
  {
    FirstOkOneMore(candidates, c);
  }

  /** A choice that passes is the first that passes. */
  lemma ChoosePicks(candidates: seq<Node>, judged: bool, c: Node)
    ensures Choose(candidates, judged) == Some(c) && (judged ==> c.ok) <==> Picked(candidates, judged) == Some(c)
  {
    FirstOkIs(candidates);
  }

  function Candidates(g: Graph, relations: seq<Relation>, hop: Hop, node: Node): seq<Node> {
    if hop.onward then Targets(g, relations, hop.relation, node, hop.kind)
    else Subjects(g, relations, hop.relation, node, hop.kind)
  }

  /** What relation `i` adds to the candidates. */
  function Extra(g: Graph, i: nat, hop: Hop, node: Node): seq<Node>
    requires i < |g.relations|
  {
    var r := g.relations[i];
    if r.relation == hop.relation && Near(r, hop) == node.AsRef() && Far(r, hop).nodeId in g.nodes
       && g.nodes[Far(r, hop).nodeId].kind == hop.kind
    then [g.nodes[Far(r, hop).nodeId]] else []
  }

  lemma CandidatesGrow(g: Graph, i: nat, hop: Hop, node: Node)
    requires i < |g.relations|
    ensures Candidates(g, g.relations[..i + 1], hop, node)
         == Candidates(g, g.relations[..i], hop, node) + Extra(g, i, hop, node)
    ensures forall c :: Offers(g, i, hop, node, c) <==> Extra(g, i, hop, node) == [c] && (hop.judged ==> c.ok)
  {
    var r := g.relations[i];
    assert g.relations[..i + 1] == g.relations[..i] + [r];
    if hop.onward { TargetsAppend(g, g.relations[..i], r, hop.relation, node, hop.kind); }
    else { SubjectsAppend(g, g.relations[..i], r, hop.relation, node, hop.kind); }
  }

  /** Among the first `n` relations. */
  ghost predicate FirstOf(g: Graph, n: nat, hop: Hop, node: Node, c: Node) {
    exists i: nat :: OffersFirst(g, i, hop, node, c) && i < n
  }

  ghost predicate NoneOf(g: Graph, n: nat, hop: Hop, node: Node) {
    forall j: nat, d | j < n :: !Offers(g, j, hop, node, d)
  }

  lemma {:induction false} PickedIsFirst(g: Graph, n: nat, hop: Hop, node: Node)
    requires n <= |g.relations|
    ensures match Picked(Candidates(g, g.relations[..n], hop, node), hop.judged)
            case None => NoneOf(g, n, hop, node)
            case Some(c) => FirstOf(g, n, hop, node, c)
  {
    if n == 0 {
      assert g.relations[..0] == [];
    } else {
      hide Candidates, Picked, Offers, Extra;
      PickedIsFirst(g, n - 1, hop, node);
      CandidatesGrow(g, n - 1, hop, node);
      var before := Candidates(g, g.relations[..n - 1], hop, node);
      var after := Candidates(g, g.relations[..n], hop, node);
      var extra := Extra(g, n - 1, hop, node);
      if extra == [] {
        assert after == before;
      } else {
        var c := extra[0];
        assert extra == [c];
        PickedOneMore(before, c, hop.judged);
        if Picked(before, hop.judged).None? && !(hop.judged && !c.ok) { assert OffersFirst(g, n - 1, hop, node, c); }
      }
    }
  }

  function Chosen(g: Graph, hop: Hop, node: Node): Option<Node> {
    if hop.onward then TargetOf(g, hop.relation, Some(node), hop.kind, hop.judged)
    else SubjectOf(g, hop.relation, Some(node), hop.kind, hop.judged)
  }

  lemma OneFirst(g: Graph, hop: Hop, node: Node, c: Node, d: Node)
    requires First(g, hop, node, c) && First(g, hop, node, d)
    ensures c == d
  {
    var i: nat :| OffersFirst(g, i, hop, node, c);
    var j: nat :| OffersFirst(g, j, hop, node, d);
    assert i == j;
  }

  /** The search takes a candidate that passes exactly when it is the first recorded. */
  lemma ChosenExactlyFirst(g: Graph, hop: Hop, node: Node, c: Node)
    ensures Chosen(g, hop, node) == Some(c) && (hop.judged ==> c.ok) <==> First(g, hop, node, c)
  {
    hide Offers, Choose, Picked;
    var candidates := Candidates(g, g.relations, hop, node);
    var n := |g.relations|;
    assert g.relations[..n] == g.relations;
    PickedIsFirst(g, n, hop, node);
    ChoosePicks(candidates, hop.judged, c);
    assert Chosen(g, hop, node) == Choose(candidates, hop.judged);
    if i: nat :| OffersFirst(g, i, hop, node, c) {
      InRange(g, i, hop, node, c);
      var d := Picked(candidates, hop.judged);
      assert d.Some?;
      assert First(g, hop, node, d.value);
      OneFirst(g, hop, node, c, d.value);
    }
    if Picked(candidates, hop.judged) == Some(c) {
      var i: nat :| OffersFirst(g, i, hop, node, c) && i < n;
    }
  }

  lemma InRange(g: Graph, i: nat, hop: Hop, node: Node, c: Node)
    requires Offers(g, i, hop, node, c)
    ensures i < |g.relations|
  {
  }

  // ---------------------------------------------------------------- complete assessments

  const TO_DEPLOYMENT := Hop(ObservedAs, false, Deployment, true)
  const TO_ACTION := Hop(DeployedAs, false, AgentAction, true)
  const TO_AUTHORIZATION := Hop(AuthorizedAction, false, Authorization, true)
  const TO_BUILD := Hop(AuthorizedBy, false, BuildArtifact, true)
  const TO_TREE := Hop(BuiltAs, false, SourceTree, false)
  const TO_GENERATOR := Hop(Produced, false, Generator, true)
  const TO_VERIFICATION := Hop(VerifiedBy, true, Verification, true)
  const TO_SPECIFICATION := Hop(GeneratedFrom, true, Specification, false)
  const TO_DECISIONS := Hop(GeneratedFrom, true, DecisionSet, false)
  const TO_RECONCILIATION := Hop(ComparedBy, true, Reconciliation, true)

  /** In the order of the path of an assessment, each node is the first recorded candidate of its place. */
  ghost predicate FirstChain(g: Graph, p: seq<Node>) {
    && |p| == 11
    && First(g, TO_DEPLOYMENT, p[9], p[8]) && First(g, TO_ACTION, p[8], p[7]) && First(g, TO_AUTHORIZATION, p[7], p[6])
    && First(g, TO_BUILD, p[6], p[5]) && First(g, TO_TREE, p[5], p[3]) && First(g, TO_GENERATOR, p[3], p[2])
    && First(g, TO_VERIFICATION, p[3], p[4]) && First(g, TO_SPECIFICATION, p[2], p[0])
    && First(g, TO_DECISIONS, p[2], p[1]) && First(g, TO_RECONCILIATION, p[9], p[10])
  }

  lemma SearchIsFirst(g: Graph, observed: Node)
    requires AllMet(Search(g, observed))
    ensures FirstChain(g, PathOf(Search(g, observed))) && PathOf(Search(g, observed))[9] == observed
  {
    hide First, SubjectOf, TargetOf, PathOf;
    var c := Search(g, observed);
    WholePath(c);
    ChosenExactlyFirst(g, TO_DEPLOYMENT, observed, c.deployment.value);
    ChosenExactlyFirst(g, TO_ACTION, c.deployment.value, c.action.value);
    ChosenExactlyFirst(g, TO_AUTHORIZATION, c.action.value, c.authorization.value);
    ChosenExactlyFirst(g, TO_BUILD, c.authorization.value, c.build.value);
    ChosenExactlyFirst(g, TO_TREE, c.build.value, c.tree.value);
    ChosenExactlyFirst(g, TO_GENERATOR, c.tree.value, c.generator.value);
    ChosenExactlyFirst(g, TO_VERIFICATION, c.tree.value, c.verification.value);
    ChosenExactlyFirst(g, TO_SPECIFICATION, c.generator.value, c.specification.value);
    ChosenExactlyFirst(g, TO_DECISIONS, c.generator.value, c.decisions.value);
    ChosenExactlyFirst(g, TO_RECONCILIATION, observed, c.reconciliation.value);
  }

  lemma FirstIsSearched(g: Graph, p: seq<Node>)
    requires FirstChain(g, p)
    ensures AllMet(Search(g, p[9])) && PathOf(Search(g, p[9])) == p
  {
    hide First, SubjectOf, TargetOf, PathOf;
    ChosenExactlyFirst(g, TO_DEPLOYMENT, p[9], p[8]);
    ChosenExactlyFirst(g, TO_ACTION, p[8], p[7]);
    ChosenExactlyFirst(g, TO_AUTHORIZATION, p[7], p[6]);
    ChosenExactlyFirst(g, TO_BUILD, p[6], p[5]);
    ChosenExactlyFirst(g, TO_TREE, p[5], p[3]);
    ChosenExactlyFirst(g, TO_GENERATOR, p[3], p[2]);
    ChosenExactlyFirst(g, TO_VERIFICATION, p[3], p[4]);
    ChosenExactlyFirst(g, TO_SPECIFICATION, p[2], p[0]);
    ChosenExactlyFirst(g, TO_DECISIONS, p[2], p[1]);
    ChosenExactlyFirst(g, TO_RECONCILIATION, p[9], p[10]);
    WholePath(Search(g, p[9]));
  }

  /** An observation is assessed as complete exactly when the first candidates make a chain, which is then its path. */
  lemma CompleteExactlyWhen(g: Graph, observationId: nat)
    requires observationId in g.nodes && g.nodes[observationId].kind == Observation
    ensures var a := Assess(g, observationId);
            && a.Some?
            && (a.value.complete <==> exists p :: FirstChain(g, p) && p[9] == g.nodes[observationId])
            && (a.value.complete ==> FirstChain(g, a.value.path) && a.value.path[9] == g.nodes[observationId])
  {
    hide Search, Marked, Marks, PathOf, First;
    var observed := g.nodes[observationId];
    CompleteWhen(Search(g, observed));
    if AllMet(Search(g, observed)) { SearchIsFirst(g, observed); }
    if p :| FirstChain(g, p) && p[9] == observed { FirstIsSearched(g, p); }
  }

  // ---------------------------------------------------------------- where there is no choice

  /** No hop of the search has two candidates. */
  ghost predicate Unambiguous(g: Graph) {
    forall hop, node, i: nat, j: nat, c, d | Offers(g, i, hop, node, c) && Offers(g, j, hop, node, d) :: c == d
  }

  lemma LinkOffers(g: Graph, hop: Hop, node: Node, c: Node)
    requires if hop.onward then Linked(g, hop.relation, node, c) else Linked(g, hop.relation, c, node)
    requires InGraphAs(g, c, hop.kind) && (hop.judged ==> c.ok)
    ensures exists i: nat :: Offers(g, i, hop, node, c)
  {
    var r :| r in g.relations && r.relation == hop.relation && Near(r, hop) == node.AsRef() && Far(r, hop) == c.AsRef();
    var i: nat :| i < |g.relations| && g.relations[i] == r;
    assert Offers(g, i, hop, node, c);
  }

  /** The first relation that offers something. */
  lemma {:induction false} Earliest(g: Graph, i: nat, hop: Hop, node: Node, c: Node) returns (d: Node)
    requires Offers(g, i, hop, node, c)
    ensures First(g, hop, node, d)
    decreases i
  {
    hide Offers;
    if j: nat, e :| j < i && Offers(g, j, hop, node, e) {
      d := Earliest(g, j, hop, node, e);
    } else {
      d := c;
      assert OffersFirst(g, i, hop, node, c);
    }
  }

  lemma OnlyIsFirst(g: Graph, hop: Hop, node: Node, c: Node)
    requires Unambiguous(g)
    requires if hop.onward then Linked(g, hop.relation, node, c) else Linked(g, hop.relation, c, node)
    requires InGraphAs(g, c, hop.kind) && (hop.judged ==> c.ok)
    ensures First(g, hop, node, c)
  {
    hide Offers, Linked, InGraphAs;
    LinkOffers(g, hop, node, c);
    var i: nat :| Offers(g, i, hop, node, c);
    var d := Earliest(g, i, hop, node, c);
    var j: nat :| OffersFirst(g, j, hop, node, d);
    assert c == d;
  }

  /** Where the records leave no choice, the assessment is complete exactly when a full chain to the observation is
      recorded. */
  lemma CompleteWhenUnambiguous(g: Graph, tenantId: string, runId: nat, observationId: nat)
    requires NodesOk(g.nodes, tenantId, runId) && RelationsOk(g) && Unambiguous(g)
    requires observationId in g.nodes && g.nodes[observationId].kind == Observation
    ensures var a := Assess(g, observationId);
            a.Some? && (a.value.complete <==> exists p :: FullChain(g, p) && p[9] == g.nodes[observationId])
  {
    hide Assess, First, FirstChain, Unambiguous, NodesOk, RelationsOk, Linked, InGraphAs;
    CompleteExactlyWhen(g, observationId);
    if Assess(g, observationId).value.complete { CompleteIsSound(g, tenantId, runId, observationId); }
    if p :| FullChain(g, p) && p[9] == g.nodes[observationId] { FullIsFirst(g, p); }
  }

  lemma FullIsFirst(g: Graph, p: seq<Node>)
    requires Unambiguous(g) && FullChain(g, p)
    ensures FirstChain(g, p)
  {
    hide First, Unambiguous, Linked, InGraphAs;
    OnlyIsFirst(g, TO_DEPLOYMENT, p[9], p[8]);
    OnlyIsFirst(g, TO_ACTION, p[8], p[7]);
    OnlyIsFirst(g, TO_AUTHORIZATION, p[7], p[6]);
    OnlyIsFirst(g, TO_BUILD, p[6], p[5]);
    OnlyIsFirst(g, TO_TREE, p[5], p[3]);
    OnlyIsFirst(g, TO_GENERATOR, p[3], p[2]);
    OnlyIsFirst(g, TO_VERIFICATION, p[3], p[4]);
    OnlyIsFirst(g, TO_SPECIFICATION, p[2], p[0]);
    OnlyIsFirst(g, TO_DECISIONS, p[2], p[1]);
    OnlyIsFirst(g, TO_RECONCILIATION, p[9], p[10]);
  }

  /** With a choice, a recorded chain can be missed: an earlier deployment that succeeded, but that no action led to,
      hides the chain through a later one. */
  lemma ChainCanBeMissed(g: Graph, p: seq<Node>, earlier: Node)
    requires FullChain(g, p) && InGraphAs(g, earlier, Deployment) && earlier.ok
    requires g.relations != [] && g.relations[0].relation == ObservedAs
    requires g.relations[0].subject == earlier.AsRef() && g.relations[0].target == p[9].AsRef()
    requires forall r | r in g.relations :: r.relation == DeployedAs ==> r.target != earlier.AsRef()
    ensures Assess(g, p[9].nodeId).Some? && !Assess(g, p[9].nodeId).value.complete
  {
    InPlace(g, p);
    hide Assess, FullChain, Linked, InGraphAs, First, Offers;
    assert p[9].nodeId in g.nodes && g.nodes[p[9].nodeId] == p[9] && p[9].kind == Observation by {
      assert InGraphAs(g, p[9], Observation);
    }
    CompleteExactlyWhen(g, p[9].nodeId);
    ComesFirst(g, p[9], earlier);
    LeadsNowhere(g, earlier);
    forall c | First(g, TO_DEPLOYMENT, p[9], c) ensures c == earlier {
      OneFirst(g, TO_DEPLOYMENT, p[9], c, earlier);
    }
  }

  lemma ComesFirst(g: Graph, observed: Node, earlier: Node)
    requires InGraphAs(g, earlier, Deployment) && earlier.ok
    requires g.relations != [] && g.relations[0].relation == ObservedAs
    requires g.relations[0].subject == earlier.AsRef() && g.relations[0].target == observed.AsRef()
    ensures First(g, TO_DEPLOYMENT, observed, earlier)
  {
    assert OffersFirst(g, 0, TO_DEPLOYMENT, observed, earlier);
  }

  lemma LeadsNowhere(g: Graph, earlier: Node)
    requires forall r | r in g.relations :: r.relation == DeployedAs ==> r.target != earlier.AsRef()
    ensures forall c :: !First(g, TO_ACTION, earlier, c)
  {
    forall i: nat, c ensures !Offers(g, i, TO_ACTION, earlier, c) {
      if i < |g.relations| { assert g.relations[i] in g.relations; }
    }
  }

  lemma InPlace(g: Graph, p: seq<Node>)
    requires FullChain(g, p)
    ensures |p| == 11 && InGraphAs(g, p[9], Observation)
  {
  }

  function Plain(kind: Kind, id: nat): Node { Node(kind, id, 1, "t", "d", true, "") }

  function Link(relation: RelationType, a: Node, b: Node): Relation { Relation(relation, a.AsRef(), b.AsRef(), 0) }

  const KINDS := [Specification, DecisionSet, Generator, SourceTree, Verification, BuildArtifact, Authorization,
                  AgentAction, Deployment, Observation, Reconciliation, Deployment]

  const NODES: Nodes := map id: nat | id < 12 :: Plain(KINDS[id], id)

  function At(id: nat): Node
    requires id < 12
  {
    Plain(KINDS[id], id)
  }

  function Path(): (p: seq<Node>)
    ensures |p| == 11 && forall i | 0 <= i < 11 :: p[i] == At(i)
  {
    seq(11, i requires 0 <= i < 11 => At(i))
  }

  function Links(): seq<Relation> {
    [Link(ObservedAs, At(11), At(9)), Link(GeneratedFrom, At(2), At(0)), Link(GeneratedFrom, At(2), At(1)),
     Link(Produced, At(2), At(3)), Link(VerifiedBy, At(3), At(4)), Link(BuiltAs, At(3), At(5)),
     Link(AuthorizedBy, At(5), At(6)), Link(AuthorizedAction, At(6), At(7)), Link(DeployedAs, At(7), At(8)),
     Link(ObservedAs, At(8), At(9)), Link(ComparedBy, At(9), At(10))]
  }

  function Missed(): Graph { Graph(NODES, Links()) }

  /** Such a graph: a full chain, and one deployment more, recorded first. */
  lemma MissedExample()
    ensures NodesOk(Missed().nodes, "t", 1) && RelationsOk(Missed()) && FullChain(Missed(), Path())
    ensures Assess(Missed(), 9).Some? && !Assess(Missed(), 9).value.complete
  {
    hide Assess, RelationsOk, FullChain, Links;
    MissedIsOk();
    ChainRecorded();
    hide Missed;
    EarlierRecorded();
    ChainCanBeMissed(Missed(), Path(), At(11));
  }

  lemma MissedIsOk()
    ensures NodesOk(Missed().nodes, "t", 1) && RelationsOk(Missed())
  {
    assert |Links()| == 11;
    RelationsFit();
    LinksDiffer();
    hide Links;
    var g := Missed();
    forall i | 0 <= i < |g.relations| ensures RelationOk(g.nodes, g.relations[i]) {
      assert g.relations[i] == Links()[i];
    }
  }

  lemma ChainRecorded()
    ensures FullChain(Missed(), Path())
  {
    hide FullChain, RelationsOk;
    var p := Path();
    assert Links()[1..] == [
        Link(GeneratedFrom, p[2], p[0]), Link(GeneratedFrom, p[2], p[1]), Link(Produced, p[2], p[3]),
        Link(VerifiedBy, p[3], p[4]), Link(BuiltAs, p[3], p[5]), Link(AuthorizedBy, p[5], p[6]),
        Link(AuthorizedAction, p[6], p[7]), Link(DeployedAs, p[7], p[8]), Link(ObservedAs, p[8], p[9]),
        Link(ComparedBy, p[9], p[10])];
    AllLinked(Missed(), p);
  }

  lemma EarlierRecorded()
    ensures var g, earlier := Missed(), At(11);
            && InGraphAs(g, earlier, Deployment) && earlier.ok
            && g.relations != [] && g.relations[0].relation == ObservedAs
            && g.relations[0].subject == earlier.AsRef() && g.relations[0].target == Path()[9].AsRef()
            && forall r | r in g.relations :: r.relation == DeployedAs ==> r.target != earlier.AsRef()
  {
    OnlyOneDeployed();
  }

  lemma RelationsFit()
    ensures forall i | 0 <= i < 11 :: RelationOk(NODES, Links()[i])
  {
  }

  lemma LinksDiffer()
    ensures forall i, j | 0 <= i < j < 11 :: !SameLink(Links()[i], Links()[j])
  {
    var links, targets := Links(), [9, 0, 1, 3, 4, 5, 6, 7, 8, 9, 10];
    assert forall i | 0 <= i < 11 :: links[i].target.nodeId == targets[i];
    assert forall i, j | 0 <= i < j < 11 :: targets[i] == targets[j] ==> i == 0 && j == 9;
    assert links[0].subject.nodeId == 11 && links[9].subject.nodeId == 8;
  }

  lemma OnlyOneDeployed()
    ensures forall r | r in Links() :: r.relation == DeployedAs ==> r.target != At(11).AsRef()
  {
  }

  /** Links of the graph, in some order. */
  lemma AllLinked(g: Graph, p: seq<Node>)
    requires |p| == 11 && |g.relations| == 11
    requires forall i | 0 <= i < 11 :: i in g.nodes && g.nodes[i] == p[i] && p[i].nodeId == i && p[i].ok
    requires p[0].kind == Specification && p[1].kind == DecisionSet && p[2].kind == Generator && p[3].kind == SourceTree
    requires p[4].kind == Verification && p[5].kind == BuildArtifact && p[6].kind == Authorization
    requires p[7].kind == AgentAction && p[8].kind == Deployment && p[9].kind == Observation
    requires p[10].kind == Reconciliation
    requires g.relations[1..] == [
      Link(GeneratedFrom, p[2], p[0]), Link(GeneratedFrom, p[2], p[1]), Link(Produced, p[2], p[3]),
      Link(VerifiedBy, p[3], p[4]), Link(BuiltAs, p[3], p[5]), Link(AuthorizedBy, p[5], p[6]),
      Link(AuthorizedAction, p[6], p[7]), Link(DeployedAs, p[7], p[8]), Link(ObservedAs, p[8], p[9]),
      Link(ComparedBy, p[9], p[10])]
    ensures FullChain(g, p)
  {
    hide Linked;
    var links := g.relations[1..];
    forall k | 0 <= k < 10 ensures links[k] in g.relations { assert links[k] == g.relations[k + 1]; }
    LinkIs(g, links[0], p[2], p[0]);
    LinkIs(g, links[1], p[2], p[1]);
    LinkIs(g, links[2], p[2], p[3]);
    LinkIs(g, links[3], p[3], p[4]);
    LinkIs(g, links[4], p[3], p[5]);
    LinkIs(g, links[5], p[5], p[6]);
    LinkIs(g, links[6], p[6], p[7]);
    LinkIs(g, links[7], p[7], p[8]);
    LinkIs(g, links[8], p[8], p[9]);
    LinkIs(g, links[9], p[9], p[10]);
  }

  lemma LinkIs(g: Graph, r: Relation, a: Node, b: Node)
    requires r in g.relations && r.subject == a.AsRef() && r.target == b.AsRef()
    ensures Linked(g, r.relation, a, b)
  {
  }
}
