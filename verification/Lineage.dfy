/** Delivery lineage: the typed graph of a run, kept append-only, and the assessment that accepts an observed
    production state. */
module Lineage {
  import opened Common

  datatype Kind =
    | Specification | DecisionSet | Generator | SourceTree | Verification | BuildArtifact | Authorization
    | AgentAction | Deployment | Observation | Reconciliation

  datatype Ref = Ref(kind: Kind, nodeId: nat, digest: string)

  /** `ok` is the node's own verdict, where its kind has one: succeeded, authorized, passed or matched. */
  datatype Node = Node(kind: Kind, nodeId: nat, runId: nat, tenantId: string, digest: string, ok: bool, details: string)
  {
    function AsRef(): Ref { Ref(kind, nodeId, digest) }
  }

  datatype RelationType =
    | GeneratedFrom | Produced | VerifiedBy | BuiltAs | AuthorizedBy | AuthorizedAction | DeployedAs | ObservedAs
    | ComparedBy

  datatype Relation = Relation(relation: RelationType, subject: Ref, target: Ref, recordedAt: int)

  type Nodes = map<nat, Node>

  datatype Graph = Graph(nodes: Nodes, relations: seq<Relation>)

  /** `_ALLOWED_RELATIONS`. */
  predicate Allowed(relation: RelationType, subject: Kind, target: Kind) {
    match relation
    case GeneratedFrom => subject == Generator && (target == Specification || target == DecisionSet)
    case Produced => subject == Generator && target == SourceTree
    case VerifiedBy => subject == SourceTree && target == Verification
    case BuiltAs => subject == SourceTree && target == BuildArtifact
    case AuthorizedBy => subject == BuildArtifact && target == Authorization
    case AuthorizedAction => subject == Authorization && target == AgentAction
    case DeployedAs => subject == AgentAction && target == Deployment
    case ObservedAs => subject == Deployment && target == Observation
    case ComparedBy => subject == Observation && target == Reconciliation
  }

  /** One relation against the nodes: endpoints exist as referenced, and may be linked. */
  predicate RelationOk(nodes: Nodes, r: Relation) {
    && r.subject.nodeId in nodes && r.target.nodeId in nodes
    && nodes[r.subject.nodeId].AsRef() == r.subject && nodes[r.target.nodeId].AsRef() == r.target
    && Allowed(r.relation, r.subject.kind, r.target.kind)
  }

  predicate SameLink(a: Relation, b: Relation) {
    a.relation == b.relation && a.subject.nodeId == b.subject.nodeId && a.target.nodeId == b.target.nodeId
  }

  ghost predicate NodesOk(nodes: Nodes, tenantId: string, runId: nat) {
    forall id | id in nodes :: nodes[id].nodeId == id && nodes[id].tenantId == tenantId && nodes[id].runId == runId
  }

  ghost predicate RelationsOk(g: Graph) {
    && (forall i | 0 <= i < |g.relations| :: RelationOk(g.nodes, g.relations[i]))
    && (forall i, j | 0 <= i < j < |g.relations| :: !SameLink(g.relations[i], g.relations[j]))
  }

  // ---------------------------------------------------------------- no cycle is possible

  /** Every allowed relation goes up this scale. */
  function Rank(k: Kind): nat {
    match k
    case Generator => 0
    case Specification => 1
    case DecisionSet => 1
    case SourceTree => 1
    case Verification => 2
    case BuildArtifact => 2
    case Authorization => 3
    case AgentAction => 4
    case Deployment => 5
    case Observation => 6
    case Reconciliation => 7
  }

  /** A walk along relations: each step starts where the one before ended. */
  ghost predicate Walk(g: Graph, walk: seq<Relation>) {
    && (forall i | 0 <= i < |walk| :: walk[i] in g.relations)
    && (forall i | 0 <= i < |walk| - 1 :: walk[i].target.nodeId == walk[i + 1].subject.nodeId)
  }

  lemma {:induction false} WalkClimbs(g: Graph, walk: seq<Relation>)
    requires RelationsOk(g) && Walk(g, walk) && walk != []
    ensures Rank(walk[0].subject.kind) < Rank(walk[|walk| - 1].target.kind)
    decreases |walk|
  {
    InGraph(g, walk[|walk| - 1]);
    if |walk| > 1 {
      var n := |walk| - 1;
      InGraph(g, walk[n - 1]);
      WalkClimbs(g, walk[..n]);
      assert walk[..n][n - 1] == walk[n - 1];
      assert walk[n - 1].target.nodeId == walk[n].subject.nodeId;
    }
  }

  lemma InGraph(g: Graph, r: Relation)
    requires RelationsOk(g) && r in g.relations
    ensures RelationOk(g.nodes, r) && Rank(r.subject.kind) < Rank(r.target.kind)
  {
    var i :| 0 <= i < |g.relations| && g.relations[i] == r;
  }

  /** The acyclicity check of `LineageGraph` cannot fire once the typed checks have passed. */
  lemma NoCycle(g: Graph, walk: seq<Relation>)
    requires RelationsOk(g) && Walk(g, walk) && walk != []
    ensures walk[0].subject.nodeId != walk[|walk| - 1].target.nodeId
  {
    WalkClimbs(g, walk);
    InGraph(g, walk[0]);
    InGraph(g, walk[|walk| - 1]);
  }

  // ---------------------------------------------------------------- the store

  datatype RunKey = RunKey(tenantId: string, runId: nat)

  datatype Store = Store(nodes: map<RunKey, Nodes>, relations: map<RunKey, seq<Relation>>)

  function NodesOf(s: Store, key: RunKey): Nodes {
    if key in s.nodes then s.nodes[key] else map[]
  }

  function GraphOf(s: Store, key: RunKey): Graph {
    Graph(NodesOf(s, key), if key in s.relations then s.relations[key] else [])
  }

  predicate CrossesTenants(nodes: map<RunKey, Nodes>, node: Node) {
    exists key | key in nodes :: key.runId == node.runId && key.tenantId != node.tenantId && nodes[key] != map[]
  }

  /** `record_node`; `false` when it raises. */
  function RecordNode(s: Store, node: Node): (Store, bool) {
    var key := RunKey(node.tenantId, node.runId);
    var own := NodesOf(s, key);
    if CrossesTenants(s.nodes, node) || (node.nodeId in own && own[node.nodeId] != node) then (s, false)
    else (s.(nodes := s.nodes[key := own[node.nodeId := node]]), true)
  }

  predicate SameRelation(a: Relation, b: Relation) {
    a.relation == b.relation && a.subject == b.subject && a.target == b.target
  }

  /** The recorded relation with the same type and endpoints, if any. */
  function Recorded(relations: seq<Relation>, r: Relation): Option<Relation> {
    if relations == [] then None
    else if SameRelation(relations[0], r) then Some(relations[0])
    else Recorded(relations[1..], r)
  }

  /** `record_relation`; `false` when it raises. */
  function RecordRelation(s: Store, key: RunKey, r: Relation): (Store, bool) {
    var g := GraphOf(s, key);
    match Recorded(g.relations, r)
    case Some(existing) => (s, existing == r)
    case None =>
      if g.nodes == map[] || !RelationOk(g.nodes, r) then (s, false)
      else (s.(relations := s.relations[key := g.relations + [r]]), true)
  }

  /** Every run holds a valid graph of its own tenant and run. */
  ghost predicate StoreOk(s: Store) {
    forall key: RunKey :: NodesOk(NodesOf(s, key), key.tenantId, key.runId) && RelationsOk(GraphOf(s, key))
  }

  /** `h` has every node and relation of `g`, the relations first and in their order. */
  ghost predicate Extends(g: Graph, h: Graph) {
    && (forall id | id in g.nodes :: id in h.nodes && h.nodes[id] == g.nodes[id])
    && g.relations <= h.relations
  }

  ghost predicate Grows(s: Store, t: Store) {
    forall key: RunKey :: Extends(GraphOf(s, key), GraphOf(t, key))
  }

  lemma {:induction false} RecordedIs(relations: seq<Relation>, r: Relation)
    ensures match Recorded(relations, r)
            case None => forall i | 0 <= i < |relations| :: !SameRelation(relations[i], r)
            case Some(existing) => existing in relations && SameRelation(existing, r)
  {
    if relations != [] { RecordedIs(relations[1..], r); }
  }

  lemma MoreNodes(g: Graph, h: Graph)
    requires RelationsOk(g) && Extends(g, h) && h.relations == g.relations
    ensures RelationsOk(h)
  {
    forall i | 0 <= i < |h.relations| ensures RelationOk(h.nodes, h.relations[i]) {
      assert RelationOk(g.nodes, g.relations[i]);
    }
  }

  /** Recording a node keeps every graph valid, rewrites no node, and never puts one run under two tenants. */
  lemma RecordNodeKeeps(s: Store, node: Node)
    requires StoreOk(s)
    ensures StoreOk(RecordNode(s, node).0) && Grows(s, RecordNode(s, node).0)
  {
    hide RelationsOk;
    var next := RecordNode(s, node).0;
    forall key: RunKey
      ensures NodesOk(NodesOf(next, key), key.tenantId, key.runId) && RelationsOk(GraphOf(next, key))
      ensures Extends(GraphOf(s, key), GraphOf(next, key))
    {
      assert RelationsOk(GraphOf(s, key));
      MoreNodes(GraphOf(s, key), GraphOf(next, key));
    }
  }

  /** Two relations between the same nodes refer to them alike. */
  lemma SameLinkMeans(g: Graph, a: Relation, b: Relation)
    requires RelationOk(g.nodes, a) && RelationOk(g.nodes, b)
    ensures SameLink(a, b) <==> SameRelation(a, b)
  {
  }

  lemma OneMore(g: Graph, r: Relation)
    requires RelationsOk(g) && RelationOk(g.nodes, r) && Recorded(g.relations, r).None?
    ensures RelationsOk(g.(relations := g.relations + [r]))
  {
    RecordedIs(g.relations, r);
    forall i | 0 <= i < |g.relations| ensures !SameLink(g.relations[i], r) {
      SameLinkMeans(g, g.relations[i], r);
    }
  }

  lemma RecordRelationKeeps(s: Store, key: RunKey, r: Relation)
    requires StoreOk(s)
    ensures StoreOk(RecordRelation(s, key, r).0) && Grows(s, RecordRelation(s, key, r).0)
  {
    hide RelationsOk, RelationOk, Recorded;
    var g, next := GraphOf(s, key), RecordRelation(s, key, r).0;
    assert RelationsOk(g);
    if next != s { OneMore(g, r); }
    forall k: RunKey
      ensures NodesOk(NodesOf(next, k), k.tenantId, k.runId) && RelationsOk(GraphOf(next, k))
      ensures Extends(GraphOf(s, k), GraphOf(next, k))
    {
      assert NodesOk(NodesOf(s, k), k.tenantId, k.runId) && RelationsOk(GraphOf(s, k));
    }
  }

  /** A relation is accepted exactly when it is recorded already, or fits the nodes and links no two nodes
      that are linked that way. */
  lemma RelationAcceptedWhen(s: Store, key: RunKey, r: Relation)
    requires StoreOk(s)
    ensures var g := GraphOf(s, key);
            RecordRelation(s, key, r).1 <==>
              r in g.relations || (RelationOk(g.nodes, r) && forall i | 0 <= i < |g.relations| ::
                  !SameLink(g.relations[i], r))
  {
    hide RelationOk, SameLink;
    var g := GraphOf(s, key);
    assert RelationsOk(g);
    RecordedIs(g.relations, r);
    forall i | 0 <= i < |g.relations| && RelationOk(g.nodes, r)
      ensures SameLink(g.relations[i], r) <==> SameRelation(g.relations[i], r) {
      SameLinkMeans(g, g.relations[i], r);
    }
    if r in g.relations { OnlyCopy(g, r); }
    assert RelationOk(g.nodes, r) ==> g.nodes != map[] by { HasNodes(g, r); }
    if Recorded(g.relations, r).Some? {
      OnlyCopy(g, Recorded(g.relations, r).value);
      RefersAlike(g, Recorded(g.relations, r).value, r);
    }
  }

  lemma HasNodes(g: Graph, r: Relation)
    ensures RelationOk(g.nodes, r) ==> g.nodes != map[]
  {
  }

  lemma RefersAlike(g: Graph, a: Relation, b: Relation)
    requires RelationOk(g.nodes, a) && SameRelation(a, b)
    ensures RelationOk(g.nodes, b)
  {
  }

  /** A recorded relation fits, and is the one `Recorded` finds. */
  lemma OnlyCopy(g: Graph, r: Relation)
    requires RelationsOk(g) && r in g.relations
    ensures RelationOk(g.nodes, r) && Recorded(g.relations, r) == Some(r)
  {
    RecordedIs(g.relations, r);
    var i :| 0 <= i < |g.relations| && g.relations[i] == r;
    if Recorded(g.relations, r).Some? {
      var j :| 0 <= j < |g.relations| && g.relations[j] == Recorded(g.relations, r).value;
      assert SameLink(g.relations[i], g.relations[j]) && SameLink(g.relations[j], g.relations[i]);
    }
  }

  /** A node is accepted, and recorded, exactly when its run has no node of another tenant and its id none of another
      content. */
  lemma NodeAcceptedWhen(s: Store, node: Node)
    ensures var (next, ok) := RecordNode(s, node); var own := RunKey(node.tenantId, node.runId);
            && (ok <==> && (forall key: RunKey, id | id in NodesOf(s, key) && key.runId == node.runId ::
                              key.tenantId == node.tenantId)
                        && (node.nodeId in NodesOf(s, own) ==> NodesOf(s, own)[node.nodeId] == node))
            && (ok ==> NodesOf(next, own) == NodesOf(s, own)[node.nodeId := node])
            && (!ok ==> next == s)
  {
    var (next, ok) := RecordNode(s, node);
    if key: RunKey, id :| id in NodesOf(s, key) && key.runId == node.runId && key.tenantId != node.tenantId {
      assert s.nodes[key] != map[];
    }
    if CrossesTenants(s.nodes, node) {
      var key :| key in s.nodes && key.runId == node.runId && key.tenantId != node.tenantId && s.nodes[key] != map[];
      var id :| id in s.nodes[key];
      assert id in NodesOf(s, key);
    }
  }

  /** An accepted relation is recorded, after those before it; a refused one changes nothing. */
  lemma AcceptedIsRecorded(s: Store, key: RunKey, r: Relation)
    ensures var (next, ok) := RecordRelation(s, key, r); var before := GraphOf(s, key).relations;
            && (ok ==> GraphOf(next, key).relations == if r in before then before else before + [r])
            && (!ok ==> next == s)
  {
    hide RelationOk;
    RecordedIs(GraphOf(s, key).relations, r);
  }

  datatype Op = AddNode(node: Node) | AddRelation(key: RunKey, relation: Relation)

  function Step(s: Store, op: Op): Store {
    match op
    case AddNode(node) => RecordNode(s, node).0
    case AddRelation(key, r) => RecordRelation(s, key, r).0
  }

  function After(s: Store, run: seq<Op>): Store
    decreases |run|
  {
    if run == [] then s else After(Step(s, run[0]), run[1..])
  }

  lemma GrowsOn(s: Store, t: Store, u: Store)
    requires Grows(s, t) && Grows(t, u)
    ensures Grows(s, u)
  {
    forall key: RunKey ensures Extends(GraphOf(s, key), GraphOf(u, key)) {
      assert Extends(GraphOf(s, key), GraphOf(t, key)) && Extends(GraphOf(t, key), GraphOf(u, key));
    }
  }

  lemma GrowsFrom(s: Store)
    ensures Grows(s, s)
  {
  }

  /** Whatever is recorded, graphs stay valid and only grow. */
  lemma {:induction false} AfterGrows(s: Store, run: seq<Op>)
    requires StoreOk(s)
    ensures StoreOk(After(s, run)) && Grows(s, After(s, run))
    decreases |run|
  {
    hide StoreOk, Grows, RecordNode, RecordRelation;
    if run == [] { GrowsFrom(s); }
    else {
      match run[0] {
        case AddNode(node) => RecordNodeKeeps(s, node);
        case AddRelation(key, r) => RecordRelationKeeps(s, key, r);
      }
      AfterGrows(Step(s, run[0]), run[1..]);
      GrowsOn(s, Step(s, run[0]), After(s, run));
    }
  }

  /** No run id has nodes under two tenants. */
  ghost predicate OneTenant(s: Store) {
    forall a: RunKey, b: RunKey | a.runId == b.runId && NodesOf(s, a) != map[] && NodesOf(s, b) != map[] :: a == b
  }

  lemma {:induction false} AfterOneTenant(s: Store, run: seq<Op>)
    requires OneTenant(s)
    ensures OneTenant(After(s, run))
    decreases |run|
  {
    hide RecordRelation;
    if run != [] {
      StepOneTenant(s, run[0]);
      AfterOneTenant(Step(s, run[0]), run[1..]);
    }
  }

  lemma StepOneTenant(s: Store, op: Op)
    requires OneTenant(s)
    ensures OneTenant(Step(s, op))
  {
    hide Recorded, RelationOk;
    var t := Step(s, op);
    forall a: RunKey, b: RunKey | a.runId == b.runId && NodesOf(t, a) != map[] && NodesOf(t, b) != map[]
      ensures a == b {
      if op.AddNode? && t != s {
        var key := RunKey(op.node.tenantId, op.node.runId);
        assert forall k: RunKey | k != key :: NodesOf(t, k) == NodesOf(s, k);
      } else {
        assert NodesOf(t, a) == NodesOf(s, a) && NodesOf(t, b) == NodesOf(s, b);
      }
    }
  }

  class InMemoryLineageStore {
    var nodes: map<RunKey, Nodes>
    var relations: map<RunKey, seq<Relation>>

    ghost function Contents(): Store
      reads this
    {
      Store(nodes, relations)
    }

    ghost predicate Valid()
      reads this
    {
      StoreOk(Contents())
    }

    constructor ()
      ensures Valid() && Contents() == Store(map[], map[])
    {
      nodes, relations := map[], map[];
    }

    method Record(node: Node) returns (ok: bool)
      requires Valid()
      modifies this
      ensures Valid()
      ensures (Contents(), ok) == RecordNode(old(Contents()), node)
    {
      hide StoreOk;
      RecordNodeKeeps(Contents(), node);
      var key := RunKey(node.tenantId, node.runId);
      if exists k | k in nodes :: k.runId == node.runId && k.tenantId != node.tenantId && nodes[k] != map[] {
        return false;
      }
      var own: Nodes := if key in nodes then nodes[key] else map[];
      if node.nodeId in own && own[node.nodeId] != node {
        return false;
      }
      nodes := nodes[key := own[node.nodeId := node]];
      return true;
    }

    method Relate(key: RunKey, r: Relation) returns (ok: bool)
      requires Valid()
      modifies this
      ensures Valid()
      ensures (Contents(), ok) == RecordRelation(old(Contents()), key, r)
    {
      hide StoreOk, RelationOk;
      RecordRelationKeeps(Contents(), key, r);
      var own: Nodes := if key in nodes then nodes[key] else map[];
      var listed := if key in relations then relations[key] else [];
      for i := 0 to |listed|
        invariant Recorded(listed, r) == Recorded(listed[i..], r)
      {
        var existing := listed[i];
        if existing.relation == r.relation && existing.subject == r.subject && existing.target == r.target {
          return existing == r;
        }
      }
      if own == map[] || !RelationOk(own, r) {
        return false;
      }
      relations := relations[key := listed + [r]];
      return true;
    }
  }
}
