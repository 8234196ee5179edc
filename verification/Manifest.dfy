/** Typed graph manifests and the declarative meaning of the static check. */
module Manifest {
  import opened GraphSchema
  import opened Paths
  import opened Text
  import opened Tarjan

  datatype NodeType =
    | Task | Action | Principal | Approval | Capability | Operation | Executor | Snapshot
    | Artifact | Evaluator | Receipt | Criterion | Decision | Memory | Context | JoinNode

  datatype EdgeType =
    | DependsOn | AuthorisedBy | DerivedFrom | Requires | DispatchedTo
    | Produced | VerifiedBy | Satisfies | Reconciles | EscalatesTo

  datatype Effect = ReadOnly | SideEffect | Terminal

  datatype Condition = Unconditional | ExecutionSuccess | OutcomeUnknownOrFailed | GuardPass

  /** Identity of a server-owned schema: the digest of its name, taken to be injective. */
  datatype SchemaDigest = SchemaDigest(schemaId: string)

  datatype Port = Port(name: string, schema: SchemaDigest)

  datatype Node = Node(
    node_id: string, node_type: NodeType, effect: Effect, authority: string,
    budget: Option<int>, timeout: Option<int>, required_guards: seq<string>,
    inputs: seq<Port>, outputs: seq<Port>, metadata: map<string, string>)
  {
    function Meta(key: string): string {
      if key in metadata then metadata[key] else ""
    }

    /** What the constructor insists on. */
    ghost predicate WellFormed() {
      && !Blank(node_id)
      && (effect.SideEffect? ==> !Blank(authority))
      && (budget.Some? ==> budget.value >= 1) && (timeout.Some? ==> timeout.value >= 1)
      && var ports := inputs + outputs;
         && (forall p :: p in ports ==> !Blank(p.name))
         && (forall i, j :: 0 <= i < j < |ports| ==> ports[i].name != ports[j].name)
    }
  }

  datatype Edge = Edge(
    source: string, target: string, edge_type: EdgeType, condition: Condition,
    source_port: string, target_port: string, pred: Predicate)
  {
    predicate WellFormed() {
      && !Blank(source) && !Blank(target)
      && (source_port == "" <==> target_port == "")
      && pred.WellFormed()
    }
  }

  datatype Manifest = Manifest(
    contract_digest: string, profile_digest: string,
    nodes: seq<Node>, edges: seq<Edge>, joins: seq<Join>)

  /** The ends each kind of edge may join; the other kinds are unrestricted. */
  predicate PairIsValid(source: NodeType, edge: EdgeType, target: NodeType) {
    match edge
    case AuthorisedBy =>
      || (target.Approval? && (source.Action? || source.Capability?))
      || (target.Capability? && (source.Principal? || source.Approval?))
      || (target.Operation? && source.Capability?)
    case DispatchedTo => source.Operation? && target.Executor?
    case Produced =>
      || (source.Executor? && (target.Executor? || target.Artifact?))
      || (source.Evaluator? && target.Receipt?)
    case VerifiedBy => (source.Artifact? && target.Evaluator?) || (source.Receipt? && target.Criterion?)
    case Satisfies =>
      || (target.JoinNode? && (source.Action? || source.Approval? || source.Capability? || source.Criterion?))
      || (source.JoinNode? && (target.Capability? || target.Decision?))
    case Reconciles => source.Executor? && target.Operation?
    case Requires => source.Snapshot? && target.Evaluator?
    case _ => true
  }

  // ---- lookups shared by the check and the monitor ----

  function Ids(m: Manifest): set<string> {
    set n | n in m.nodes :: n.node_id
  }

  /** The node with an identity; the last one declared wins. */
  function ById(nodes: seq<Node>): map<string, Node> {
    if nodes == [] then map[] else ById(nodes[..|nodes| - 1])[nodes[|nodes| - 1].node_id := nodes[|nodes| - 1]]
  }

  lemma {:induction false} ByIdNodes(nodes: seq<Node>)
    ensures ById(nodes).Keys == set n | n in nodes :: n.node_id
    ensures forall id :: id in ById(nodes) ==> ById(nodes)[id] in nodes && ById(nodes)[id].node_id == id
    ensures (forall i, j :: 0 <= i < j < |nodes| ==> nodes[i].node_id != nodes[j].node_id)
            ==> forall n :: n in nodes ==> ById(nodes)[n.node_id] == n
  {
    if nodes != [] {
      var k := |nodes| - 1;
      ByIdNodes(nodes[..k]);
      assert nodes == nodes[..k] + [nodes[k]];
      assert forall n :: n in nodes <==> n in nodes[..k] || n == nodes[k];
    }
  }

  predicate Known(m: Manifest, e: Edge) {
    e.source in Ids(m) && e.target in Ids(m)
  }

  /** Edges into a node, in declaration order. */
  function Incoming(m: Manifest, edges: seq<Edge>, id: string): seq<Edge> {
    if edges == [] then []
    else
      var rest, e := Incoming(m, edges[..|edges| - 1], id), edges[|edges| - 1];
      if Known(m, e) && e.target == id then rest + [e] else rest
  }

  function Outgoing(m: Manifest, edges: seq<Edge>, id: string): seq<Edge> {
    if edges == [] then []
    else
      var rest, e := Outgoing(m, edges[..|edges| - 1], id), edges[|edges| - 1];
      if Known(m, e) && e.source == id then rest + [e] else rest
  }

  lemma {:induction false} IncomingEdges(m: Manifest, edges: seq<Edge>, id: string)
    ensures forall e :: e in Incoming(m, edges, id) <==> e in edges && Known(m, e) && e.target == id
  {
    if edges != [] {
      IncomingEdges(m, edges[..|edges| - 1], id);
      assert edges == edges[..|edges| - 1] + [edges[|edges| - 1]];
    }
  }

  lemma {:induction false} OutgoingEdges(m: Manifest, edges: seq<Edge>, id: string)
    ensures forall e :: e in Outgoing(m, edges, id) <==> e in edges && Known(m, e) && e.source == id
  {
    if edges != [] {
      OutgoingEdges(m, edges[..|edges| - 1], id);
      assert edges == edges[..|edges| - 1] + [edges[|edges| - 1]];
    }
  }

  function Targets(edges: seq<Edge>): (r: seq<string>)
    ensures forall n :: n in r <==> exists e :: e in edges && e.target == n
  {
    if edges == [] then [] else
      var r := Targets(edges[..|edges| - 1]) + [edges[|edges| - 1].target];
      assert edges == edges[..|edges| - 1] + [edges[|edges| - 1]];
      r
  }

  /** Sources of the edges of the given kinds. */
  function Sources(edges: seq<Edge>, kinds: set<EdgeType>): (r: seq<string>)
    ensures forall n :: n in r <==> exists e :: e in edges && e.edge_type in kinds && e.source == n
  {
    if edges == [] then [] else
      var rest, e := Sources(edges[..|edges| - 1], kinds), edges[|edges| - 1];
      assert edges == edges[..|edges| - 1] + [e];
      if e.edge_type in kinds then rest + [e.source] else rest
  }

  /** The manifest as a graph, each node with the targets of its outgoing edges. */
  function Forward(m: Manifest): Graph {
    map id | id in Ids(m) :: Targets(Outgoing(m, m.edges, id))
  }

  /** The manifest walked backwards along edges of the given kinds. */
  function Backward(m: Manifest, kinds: set<EdgeType>): Graph {
    map id | id in Ids(m) :: Sources(Incoming(m, m.edges, id), kinds)
  }

  lemma ForwardEdges(m: Manifest)
    ensures Closed(Forward(m)) && Forward(m).Keys == Ids(m)
    ensures forall a, b :: HasEdge(Forward(m), a, b) <==> exists e :: e in m.edges && Known(m, e) && e.source == a && e.target == b
  {
    forall a, b ensures HasEdge(Forward(m), a, b) <==> exists e :: e in m.edges && Known(m, e) && e.source == a && e.target == b {
      OutgoingEdges(m, m.edges, a);
    }
  }

  lemma BackwardEdges(m: Manifest, kinds: set<EdgeType>)
    ensures Closed(Backward(m, kinds)) && Backward(m, kinds).Keys == Ids(m)
    ensures forall a, b :: HasEdge(Backward(m, kinds), a, b) <==>
              exists e :: e in m.edges && Known(m, e) && e.edge_type in kinds && e.source == b && e.target == a
  {
    forall a, b ensures HasEdge(Backward(m, kinds), a, b) <==>
              exists e :: e in m.edges && Known(m, e) && e.edge_type in kinds && e.source == b && e.target == a {
      IncomingEdges(m, m.edges, a);
    }
  }

  function Entries(m: Manifest): set<string> {
    set id | id in Ids(m) && Incoming(m, m.edges, id) == []
  }

  // ---- the conditions of the static check ----

  predicate UniqueIds(m: Manifest) {
    forall i, j :: 0 <= i < j < |m.nodes| ==> m.nodes[i].node_id != m.nodes[j].node_id
  }

  /** The last port with a name, as a dictionary built from the ports keeps it. */
  function PortNamed(ports: seq<Port>, name: string): Option<Port> {
    PortAmong(ports, |ports|, name)
  }

  function PortAmong(ports: seq<Port>, n: nat, name: string): Option<Port>
    requires n <= |ports|
  {
    if n == 0 then None
    else if ports[n - 1].name == name then Some(ports[n - 1])
    else PortAmong(ports, n - 1, name)
  }

  predicate EdgeOk(m: Manifest, e: Edge) {
    Known(m, e) && e.source in ById(m.nodes) && e.target in ById(m.nodes) &&
    var source, target := ById(m.nodes)[e.source], ById(m.nodes)[e.target];
    && PairIsValid(source.node_type, e.edge_type, target.node_type)
    && (e.source_port != "" ==>
          var s, t := PortNamed(source.outputs, e.source_port), PortNamed(target.inputs, e.target_port);
          s.Some? && t.Some? && s.value.schema == t.value.schema)
  }

  ghost predicate Reachable(m: Manifest, id: string) {
    exists s :: s in Entries(m) && Reach(Forward(m), s, id)
  }

  /** Every node is reachable, and a node without successors is declared an end. */
  ghost predicate NodeReachOk(m: Manifest, n: Node) {
    && Reachable(m, n.node_id)
    && (Outgoing(m, m.edges, n.node_id) == [] ==> !n.effect.ReadOnly? || n.Meta("terminal") == "true")
  }

  ghost predicate ReachesGoal(g: Graph, start: string, goal: set<string>) {
    exists id :: id in goal && Reach(g, start, id)
  }

  const AUTHORITY_EDGES: set<EdgeType> := {AuthorisedBy, DispatchedTo}

  function OfType(m: Manifest, t: NodeType, start: string): set<string> {
    set id | id in ById(m.nodes) && id != start && ById(m.nodes)[id].node_type == t
  }

  function Recoveries(m: Manifest): set<string> {
    set id | id in ById(m.nodes) && ById(m.nodes)[id].node_type == Operation && ById(m.nodes)[id].Meta("recovery") == "true"
  }

  function HumanExits(m: Manifest, start: string): set<string> {
    set id | id in OfType(m, Decision, start) && (EndsWith(id, "escalate") || EndsWith(id, "cancel"))
  }

  /** The edges that make a completion join the barrier of the accept decision. */
  function Barriers(m: Manifest, edges: seq<Edge>): seq<Edge> {
    if edges == [] then []
    else
      var rest, e := Barriers(m, edges[..|edges| - 1]), edges[|edges| - 1];
      if e.edge_type == Satisfies && e.source in ById(m.nodes) && ById(m.nodes)[e.source].node_type == JoinNode
      then rest + [e] else rest
  }

  lemma {:induction false} BarrierEdges(m: Manifest, edges: seq<Edge>)
    ensures forall e :: e in Barriers(m, edges) <==>
              e in edges && e.edge_type == Satisfies && e.source in ById(m.nodes) && ById(m.nodes)[e.source].node_type == JoinNode
  {
    if edges != [] {
      BarrierEdges(m, edges[..|edges| - 1]);
      assert edges == edges[..|edges| - 1] + [edges[|edges| - 1]];
    }
  }

  /** The first declared join with an identity. */
  function FirstJoin(joins: seq<Join>, id: string): Option<Join> {
    if joins == [] then None else if joins[0].node_id == id then Some(joins[0]) else FirstJoin(joins[1..], id)
  }

  const ACCEPT: string := "decision.accept"

  /** The accept decision has requirements and a single ALL barrier. */
  predicate BarrierOk(m: Manifest, n: Node) {
    && n.required_guards != []
    && var bs := Barriers(m, Incoming(m, m.edges, n.node_id));
       && |bs| == 1
       && var j := FirstJoin(m.joins, bs[0].source);
          j.Some? && j.value.policy.All?
  }

  function Barrier(m: Manifest, n: Node): Join
    requires BarrierOk(m, n)
  {
    FirstJoin(m.joins, Barriers(m, Incoming(m, m.edges, n.node_id))[0].source).value
  }

  /** Looking up a predecessor of the barrier that is no node raises instead of reporting. */
  predicate BarrierRaises(m: Manifest, n: Node) {
    BarrierOk(m, n) && exists p :: p in Barrier(m, n).predecessors && p !in ById(m.nodes)
  }

  ghost predicate AcceptOk(m: Manifest, n: Node) {
    && BarrierOk(m, n) && !BarrierRaises(m, n)
    && var guards := set p | p in Barrier(m, n).predecessors;
       && (forall r :: r in n.required_guards ==> exists p :: p in guards && ById(m.nodes)[p].Meta("guard") == r)
       && !(exists s :: s in Entries(m) && ReachAvoiding(Forward(m), s, n.node_id, guards))
  }

  predicate IsAccept(n: Node) {
    n.node_type == Decision && n.node_id == ACCEPT
  }

  /** Side effects are authorised and recoverable, and declared controls exist. */
  ghost predicate EffectsOk(m: Manifest, n: Node) {
    && (n.effect.SideEffect? ==>
          && (exists e :: e in Incoming(m, m.edges, n.node_id) && e.edge_type in AUTHORITY_EDGES)
          && ReachesGoal(Backward(m, AUTHORITY_EDGES), n.node_id, OfType(m, Capability, n.node_id))
          && ReachesGoal(Forward(m), n.node_id, Recoveries(m)))
    && (n.Meta("approval_required") == "true" ==>
          ReachesGoal(Backward(m, {AuthorisedBy}), n.node_id, OfType(m, Approval, n.node_id)))
    && (n.Meta("human_control") == "required" ==>
          ReachesGoal(Forward(m), n.node_id, HumanExits(m, n.node_id)))
  }

  ghost predicate NodeRolesOk(m: Manifest, n: Node) {
    EffectsOk(m, n) && (IsAccept(n) ==> AcceptOk(m, n))
  }

  /** A declared join names a join node and its predecessors are the sources of its edges. */
  predicate JoinOk(m: Manifest, j: Join) {
    && j.node_id in ById(m.nodes) && ById(m.nodes)[j.node_id].node_type == JoinNode
    && (set p | p in Sources(Incoming(m, m.edges, j.node_id), {Satisfies})) == (set p | p in j.predecessors)
  }

  /** A cycle is bounded by budgets and timeouts and can be left by an escalation edge. */
  ghost predicate CycleOk(m: Manifest, c: set<string>) {
    && (forall id :: id in c ==> id in ById(m.nodes) && ById(m.nodes)[id].budget.Some? && ById(m.nodes)[id].timeout.Some?)
    && exists e :: e in m.edges && Known(m, e) && e.source in c && e.edge_type == EscalatesTo && e.target !in c
  }

  ghost predicate TrustOk(m: Manifest, n: Node) {
    n.Meta("trust") == "untrusted" ==>
      && !ReachesGoal(Forward(m), n.node_id, OfType(m, Approval, n.node_id))
      && !ReachesGoal(Forward(m), n.node_id, OfType(m, Capability, n.node_id))
  }

  /** Authority of a memory node does not exceed that of any node it derives from;
      parse is the source's int(). */
  ghost predicate MemoryOk(m: Manifest, n: Node, parse: string -> Option<int>) {
    n.node_type == Memory && n.authority != "" ==>
      && (exists e :: e in Incoming(m, m.edges, n.node_id) && e.edge_type == DerivedFrom)
      && parse(n.authority).Some?
      && forall e :: e in Incoming(m, m.edges, n.node_id) && e.edge_type == DerivedFrom ==>
           && e.source in ById(m.nodes)
           && parse(ById(m.nodes)[e.source].authority).Some?
           && parse(n.authority).value <= parse(ById(m.nodes)[e.source].authority).value
  }

  /** The manifests the static check accepts. */
  ghost predicate Accepted(m: Manifest, parse: string -> Option<int>) {
    && UniqueIds(m)
    && (forall e :: e in m.edges ==> EdgeOk(m, e))
    && Entries(m) != {}
    && (forall n :: n in m.nodes ==> NodeReachOk(m, n))
    && (forall n :: n in m.nodes ==> NodeRolesOk(m, n))
    && (forall j :: j in m.joins ==> JoinOk(m, j))
    && (forall c :: IsCyclicComponent(Forward(m), c) ==> CycleOk(m, c))
    && (forall n :: n in m.nodes ==> TrustOk(m, n))
    && (forall n :: n in m.nodes ==> MemoryOk(m, n, parse))
  }
}
