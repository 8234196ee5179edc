/** The verdict of the static check written out over the ways through a manifest, and what follows from it. */
module StaticMeaning {
  import opened GraphSchema
  import opened Text
  import opened Paths
  import opened Tarjan
  import opened Manifest

  // ---- ways ----

  predicate Joined(m: Manifest, a: string, b: string, kinds: set<EdgeType>) {
    exists e :: e in m.edges && e.source == a && e.target == b && e.edge_type in kinds
  }

  /** A way between two nodes, each step along an edge of one of the kinds. */
  ghost predicate WayTo(m: Manifest, p: seq<string>, a: string, b: string, kinds: set<EdgeType>) {
    && p != [] && p[0] == a && p[|p| - 1] == b
    && forall i :: 0 <= i < |p| - 1 ==> Joined(m, p[i], p[i + 1], kinds)
  }

  const EVERY: set<EdgeType> :=
    {DependsOn, AuthorisedBy, DerivedFrom, Requires, DispatchedTo, Produced, VerifiedBy, Satisfies, Reconciles, EscalatesTo}

  ghost predicate Connected(m: Manifest, a: string, b: string, kinds: set<EdgeType>) {
    exists p :: WayTo(m, p, a, b, kinds)
  }

  /** Node identities are unique and edges join nodes. */
  ghost predicate Based(m: Manifest) {
    UniqueIds(m) && forall e :: e in m.edges ==> Known(m, e)
  }

  lemma EveryKind(k: EdgeType)
    ensures k in EVERY
  {}

  lemma JoinedForward(m: Manifest, a: string, b: string)
    requires Based(m)
    ensures Joined(m, a, b, EVERY) <==> HasEdge(Forward(m), a, b)
  {
    hide HasEdge, Forward;
    ForwardEdges(m);
    forall e: Edge ensures e.edge_type in EVERY { EveryKind(e.edge_type); }
  }

  lemma JoinedBackward(m: Manifest, a: string, b: string, kinds: set<EdgeType>)
    requires Based(m)
    ensures Joined(m, a, b, kinds) <==> HasEdge(Backward(m, kinds), b, a)
  {
    hide HasEdge, Backward;
    BackwardEdges(m, kinds);
  }

  lemma WayReaches(m: Manifest, a: string, b: string)
    requires Based(m)
    ensures Connected(m, a, b, EVERY) <==> Reach(Forward(m), a, b)
  {
    hide Based, HasEdge, Joined, Forward;
    forall x, y ensures Joined(m, x, y, EVERY) <==> HasEdge(Forward(m), x, y) { JoinedForward(m, x, y); }
    if p :| WayTo(m, p, a, b, EVERY) { assert PathFromTo(Forward(m), p, a, b); }
    if p :| PathFromTo(Forward(m), p, a, b) { assert WayTo(m, p, a, b, EVERY); }
  }

  function Reversed(p: seq<string>): (r: seq<string>)
    ensures |r| == |p| && forall i :: 0 <= i < |p| ==> r[i] == p[|p| - 1 - i]
  {
    seq(|p|, i requires 0 <= i < |p| => p[|p| - 1 - i])
  }

  lemma WayBack(m: Manifest, a: string, b: string, kinds: set<EdgeType>)
    requires Based(m)
    ensures Connected(m, a, b, kinds) <==> Reach(Backward(m, kinds), b, a)
  {
    hide Based, HasEdge, Joined, Backward;
    forall x, y ensures Joined(m, x, y, kinds) <==> HasEdge(Backward(m, kinds), y, x) { JoinedBackward(m, x, y, kinds); }
    if p :| WayTo(m, p, a, b, kinds) {
      var r := Reversed(p);
      forall i | 0 <= i < |r| - 1 ensures HasEdge(Backward(m, kinds), r[i], r[i + 1]) {
        assert Joined(m, p[|p| - 2 - i], p[|p| - 1 - i], kinds);
      }
      assert PathFromTo(Backward(m, kinds), r, b, a);
    }
    if p :| PathFromTo(Backward(m, kinds), p, b, a) {
      var r := Reversed(p);
      forall i | 0 <= i < |r| - 1 ensures Joined(m, r[i], r[i + 1], kinds) {
        assert HasEdge(Backward(m, kinds), p[|p| - 2 - i], p[|p| - 1 - i]);
      }
      assert WayTo(m, r, a, b, kinds);
    }
  }

  lemma NodesById(m: Manifest)
    requires UniqueIds(m)
    ensures forall id :: id in ById(m.nodes) <==> id in Ids(m)
    ensures forall id :: id in ById(m.nodes) ==> ById(m.nodes)[id] in m.nodes && ById(m.nodes)[id].node_id == id
    ensures forall n :: n in m.nodes ==> n.node_id in ById(m.nodes) && ById(m.nodes)[n.node_id] == n
  {
    ByIdNodes(m.nodes);
  }

  // ---- identities and edges ----

  function NodeIds(m: Manifest): seq<string> {
    seq(|m.nodes|, i requires 0 <= i < |m.nodes| => m.nodes[i].node_id)
  }

  lemma IdsCounted(m: Manifest)
    ensures UniqueIds(m) <==> |Ids(m)| == |m.nodes|
  {
    var ids := NodeIds(m);
    DistinctExactly(ids);
    forall id ensures id in Ids(m) <==> id in ids {
      if id in Ids(m) {
        var n :| n in m.nodes && n.node_id == id;
        var i :| 0 <= i < |m.nodes| && m.nodes[i] == n;
        assert ids[i] == id;
      }
    }
    assert Ids(m) == set id | id in ids;
    if forall i, j :: 0 <= i < j < |ids| ==> ids[i] != ids[j] {
      forall i, j | 0 <= i < j < |m.nodes| ensures m.nodes[i].node_id != m.nodes[j].node_id { assert ids[i] != ids[j]; }
    }
    if UniqueIds(m) {
      forall i, j | 0 <= i < j < |ids| ensures ids[i] != ids[j] { assert m.nodes[i].node_id != m.nodes[j].node_id; }
    }
  }

  /** The ends that each restricted kind of edge may join. */
  const PAIRS: set<(NodeType, EdgeType, NodeType)> :=
    {(Action, AuthorisedBy, Approval), (Capability, AuthorisedBy, Approval), (Principal, AuthorisedBy, Capability),
     (Approval, AuthorisedBy, Capability), (Capability, AuthorisedBy, Operation), (Operation, DispatchedTo, Executor),
     (Executor, Produced, Executor), (Executor, Produced, Artifact), (Evaluator, Produced, Receipt),
     (Artifact, VerifiedBy, Evaluator), (Receipt, VerifiedBy, Criterion),
     (Action, Satisfies, JoinNode), (Approval, Satisfies, JoinNode), (Capability, Satisfies, JoinNode),
     (Criterion, Satisfies, JoinNode), (JoinNode, Satisfies, Capability), (JoinNode, Satisfies, Decision),
     (Executor, Reconciles, Operation), (Snapshot, Requires, Evaluator)}

  predicate MayJoin(s: NodeType, k: EdgeType, t: NodeType) {
    k == DependsOn || k == DerivedFrom || k == EscalatesTo || (s, k, t) in PAIRS
  }

  lemma PairsListed(s: NodeType, k: EdgeType, t: NodeType)
    ensures PairIsValid(s, k, t) <==> MayJoin(s, k, t)
  {}

  /** The edge leaves by a port of its source and enters by one of its target, of one schema. */
  predicate PortsAgree(s: Node, t: Node, e: Edge) {
    exists o, i :: o in s.outputs && i in t.inputs && o.name == e.source_port && i.name == e.target_port && o.schema == i.schema
  }

  /** The edge joins nodes of the manifest of admissible types, and ports that carry one schema. */
  ghost predicate Fits(m: Manifest, e: Edge) {
    exists s, t :: s in m.nodes && t in m.nodes && s.node_id == e.source && t.node_id == e.target
      && MayJoin(s.node_type, e.edge_type, t.node_type) && (e.source_port == "" || PortsAgree(s, t, e))
  }

  lemma {:induction false} OnlyPort(ports: seq<Port>, n: nat, port: Port)
    requires n <= |ports| && forall i, j :: 0 <= i < j < |ports| ==> ports[i].name != ports[j].name
    ensures PortAmong(ports, n, port.name) == Some(port) <==> port in ports[..n]
    ensures PortAmong(ports, n, port.name).None? <==> forall p :: p in ports[..n] ==> p.name != port.name
  {
    if n > 0 {
      OnlyPort(ports, n - 1, port);
      assert ports[..n] == ports[..n - 1] + [ports[n - 1]];
    }
  }

  lemma PortsMeet(s: Node, t: Node, e: Edge)
    requires s.WellFormed() && t.WellFormed()
    ensures var (o, i) := (PortNamed(s.outputs, e.source_port), PortNamed(t.inputs, e.target_port));
            PortsAgree(s, t, e) <==> o.Some? && i.Some? && o.value.schema == i.value.schema
  {
    PortsDistinct(s);
    PortsDistinct(t);
    hide Node.WellFormed;
    forall p | p in s.outputs ensures PortNamed(s.outputs, p.name) == Some(p) {
      OnlyPort(s.outputs, |s.outputs|, p);
      assert s.outputs[..|s.outputs|] == s.outputs;
    }
    forall p | p in t.inputs ensures PortNamed(t.inputs, p.name) == Some(p) {
      OnlyPort(t.inputs, |t.inputs|, p);
      assert t.inputs[..|t.inputs|] == t.inputs;
    }
    LastPort(s.outputs, |s.outputs|, e.source_port);
    LastPort(t.inputs, |t.inputs|, e.target_port);
  }

  lemma PortsDistinct(n: Node)
    requires n.WellFormed()
    ensures forall i, j :: 0 <= i < j < |n.inputs| ==> n.inputs[i].name != n.inputs[j].name
    ensures forall i, j :: 0 <= i < j < |n.outputs| ==> n.outputs[i].name != n.outputs[j].name
  {
    var ports := n.inputs + n.outputs;
    assert forall i :: 0 <= i < |n.inputs| ==> ports[i] == n.inputs[i];
    forall i, j | 0 <= i < j < |n.outputs| ensures n.outputs[i].name != n.outputs[j].name {
      assert ports[|n.inputs| + i].name != ports[|n.inputs| + j].name;
    }
  }

  lemma {:induction false} LastPort(ports: seq<Port>, n: nat, name: string)
    requires n <= |ports|
    ensures PortAmong(ports, n, name).Some? ==> PortAmong(ports, n, name).value in ports && PortAmong(ports, n, name).value.name == name
  {
    if n > 0 { LastPort(ports, n - 1, name); }
  }

  lemma EdgeFits(m: Manifest, e: Edge)
    requires UniqueIds(m) && forall n :: n in m.nodes ==> n.WellFormed()
    ensures EdgeOk(m, e) <==> Fits(m, e)
  {
    hide PairIsValid, MayJoin, PortsAgree, PortAmong, Node.WellFormed;
    NodesById(m);
    if Known(m, e) {
      var s, t := ById(m.nodes)[e.source], ById(m.nodes)[e.target];
      PairsListed(s.node_type, e.edge_type, t.node_type);
      PortsMeet(s, t, e);
    }
  }

  // ---- entries and ends ----

  /** Nothing leads to the node. */
  predicate Initial(m: Manifest, n: Node) {
    n in m.nodes && forall e :: e in m.edges ==> e.target != n.node_id
  }

  /** The way leads from the one node to the other. */
  ghost predicate Leads(m: Manifest, p: seq<string>, kinds: set<EdgeType>, first: Node, last: Node) {
    first in m.nodes && last in m.nodes && WayTo(m, p, first.node_id, last.node_id, kinds)
  }

  predicate Tagged(n: Node, key: string, value: string) {
    key in n.metadata && n.metadata[key] == value
  }

  /** The node lies on a way from where nothing leads to; if it leads nowhere it is declared an end. */
  ghost predicate Entered(m: Manifest, n: Node) {
    && (exists s, p :: Initial(m, s) && Leads(m, p, EVERY, s, n))
    && (n.effect.ReadOnly? && (forall e :: e in m.edges ==> e.source != n.node_id) ==> Tagged(n, "terminal", "true"))
  }

  lemma NoIncoming(m: Manifest, id: string)
    requires Based(m)
    ensures Incoming(m, m.edges, id) == [] <==> forall e :: e in m.edges ==> e.target != id
    ensures Outgoing(m, m.edges, id) == [] <==> forall e :: e in m.edges ==> e.source != id
  {
    IncomingEdges(m, m.edges, id);
    OutgoingEdges(m, m.edges, id);
    var coming, going := Incoming(m, m.edges, id), Outgoing(m, m.edges, id);
    if coming != [] { assert coming[0] in coming; }
    if going != [] { assert going[0] in going; }
  }

  lemma EntriesInitial(m: Manifest, n: Node)
    requires Based(m) && n in m.nodes
    ensures n.node_id in Entries(m) <==> Initial(m, n)
  {
    NoIncoming(m, n.node_id);
  }

  lemma EntryExists(m: Manifest)
    requires Based(m)
    ensures Entries(m) != {} <==> exists n :: Initial(m, n)
  {
    hide Initial, Incoming;
    forall n | n in m.nodes ensures n.node_id in Entries(m) <==> Initial(m, n) { EntriesInitial(m, n); }
    if id :| id in Entries(m) {
      var n :| n in m.nodes && n.node_id == id;
      assert Initial(m, n);
    }
    if n :| Initial(m, n) { InitialNode(m, n); }
  }

  lemma InitialNode(m: Manifest, n: Node)
    requires Initial(m, n)
    ensures n in m.nodes
  {}

  lemma NodeEntered(m: Manifest, n: Node)
    requires Based(m) && n in m.nodes
    ensures NodeReachOk(m, n) <==> Entered(m, n)
  {
    hide Initial, Incoming, Outgoing, Forward, Reach, WayTo, Entries;
    NoIncoming(m, n.node_id);
    if s :| s in Entries(m) && Reach(Forward(m), s, n.node_id) {
      EntryNode(m, s);
      var k :| k in m.nodes && k.node_id == s;
      EntriesInitial(m, k);
      WayReaches(m, s, n.node_id);
      var p :| WayTo(m, p, s, n.node_id, EVERY);
      assert Initial(m, k) && Leads(m, p, EVERY, k, n);
    }
    if s, p :| Initial(m, s) && Leads(m, p, EVERY, s, n) {
      EntriesInitial(m, s);
      WayReaches(m, s.node_id, n.node_id);
    }
  }

  lemma EntryNode(m: Manifest, id: string)
    requires id in Entries(m)
    ensures exists n :: n in m.nodes && n.node_id == id
  {}

  // ---- effects, approvals and human exits ----

  /** Some node with the mark, other than the node itself, leads to it along edges of the kinds. */
  ghost predicate LedFrom(m: Manifest, n: Node, t: NodeType, kinds: set<EdgeType>) {
    exists k, p :: Leads(m, p, kinds, k, n) && k.node_type == t && k != n
  }

  ghost predicate Recovers(m: Manifest, n: Node) {
    exists k, p :: Leads(m, p, EVERY, n, k) && k.node_type == Operation && Tagged(k, "recovery", "true")
  }

  ghost predicate Exits(m: Manifest, n: Node) {
    exists k, p :: Leads(m, p, EVERY, n, k) && k.node_type == Decision && k != n
      && (EndsIn(k.node_id, "escalate") || EndsIn(k.node_id, "cancel"))
  }

  ghost predicate EndsIn(id: string, last: string) {
    exists name :: id == name + last
  }

  /** A side effect is led to by authority from a capability and leads to a recovering operation; what
      requires approval is led to by authority from an approval; what humans control leads to an exit. */
  ghost predicate Controlled(m: Manifest, n: Node) {
    && (n.effect.SideEffect? ==> LedFrom(m, n, Capability, {AuthorisedBy, DispatchedTo}) && Recovers(m, n))
    && (Tagged(n, "approval_required", "true") ==> LedFrom(m, n, Approval, {AuthorisedBy}))
    && (Tagged(n, "human_control", "required") ==> Exits(m, n))
  }

  lemma OfTypeIs(m: Manifest, t: NodeType, n: Node, k: Node)
    requires UniqueIds(m) && n in m.nodes && k in m.nodes
    ensures k.node_id in OfType(m, t, n.node_id) <==> k.node_type == t && k != n
  {
    NodesById(m);
  }

  lemma GoalLeads(m: Manifest, n: Node, t: NodeType, kinds: set<EdgeType>)
    requires Based(m) && n in m.nodes && ReachesGoal(Backward(m, kinds), n.node_id, OfType(m, t, n.node_id))
    ensures LedFrom(m, n, t, kinds)
  {
    hide Based, Backward, Reach, WayTo;
    BasedUnique(m);
    NodesById(m);
    var id :| id in OfType(m, t, n.node_id) && Reach(Backward(m, kinds), n.node_id, id);
    var k := ById(m.nodes)[id];
    OfTypeIs(m, t, n, k);
    WayBack(m, id, n.node_id, kinds);
    var p :| WayTo(m, p, id, n.node_id, kinds);
    assert Leads(m, p, kinds, k, n);
  }

  lemma LedFromGoal(m: Manifest, n: Node, t: NodeType, kinds: set<EdgeType>)
    requires Based(m) && n in m.nodes
    ensures ReachesGoal(Backward(m, kinds), n.node_id, OfType(m, t, n.node_id)) <==> LedFrom(m, n, t, kinds)
  {
    hide Based, Backward, Reach, WayTo, OfType;
    BasedUnique(m);
    if ReachesGoal(Backward(m, kinds), n.node_id, OfType(m, t, n.node_id)) { GoalLeads(m, n, t, kinds); }
    if k, p :| Leads(m, p, kinds, k, n) && k.node_type == t && k != n {
      WayBack(m, k.node_id, n.node_id, kinds);
      OfTypeIs(m, t, n, k);
    }
  }

  lemma RecoversGoal(m: Manifest, n: Node)
    requires Based(m) && n in m.nodes
    ensures ReachesGoal(Forward(m), n.node_id, Recoveries(m)) <==> Recovers(m, n)
  {
    hide Forward, Reach, WayTo;
    NodesById(m);
    if id :| id in Recoveries(m) && Reach(Forward(m), n.node_id, id) {
      WayReaches(m, n.node_id, id);
      var p :| WayTo(m, p, n.node_id, id, EVERY);
      assert Leads(m, p, EVERY, n, ById(m.nodes)[id]);
    }
    if k, p :| Leads(m, p, EVERY, n, k) && k.node_type == Operation && Tagged(k, "recovery", "true") {
      WayReaches(m, n.node_id, k.node_id);
      assert k.node_id in Recoveries(m);
    }
  }

  lemma EndsWithMeans(id: string, last: string)
    ensures EndsWith(id, last) <==> EndsIn(id, last)
  {
    if EndsWith(id, last) { assert id == id[..|id| - |last|] + last; }
  }

  lemma ExitsGoal(m: Manifest, n: Node)
    requires Based(m) && n in m.nodes
    ensures ReachesGoal(Forward(m), n.node_id, HumanExits(m, n.node_id)) <==> Exits(m, n)
  {
    hide Forward, Reach, WayTo, EndsWith, EndsIn;
    NodesById(m);
    forall id ensures EndsWith(id, "escalate") <==> EndsIn(id, "escalate") { EndsWithMeans(id, "escalate"); }
    forall id ensures EndsWith(id, "cancel") <==> EndsIn(id, "cancel") { EndsWithMeans(id, "cancel"); }
    if id :| id in HumanExits(m, n.node_id) && Reach(Forward(m), n.node_id, id) {
      WayReaches(m, n.node_id, id);
      var p :| WayTo(m, p, n.node_id, id, EVERY);
      assert Leads(m, p, EVERY, n, ById(m.nodes)[id]);
    }
    if k, p :| Leads(m, p, EVERY, n, k) && k.node_type == Decision && k != n && (EndsIn(k.node_id, "escalate") || EndsIn(k.node_id, "cancel")) {
      WayReaches(m, n.node_id, k.node_id);
      assert k.node_id in HumanExits(m, n.node_id);
    }
  }

  /** Whatever another node leads to has an edge of the kinds into it. */
  lemma LedHasEdge(m: Manifest, n: Node, t: NodeType, kinds: set<EdgeType>)
    requires Based(m) && LedFrom(m, n, t, kinds)
    ensures exists e :: e in Incoming(m, m.edges, n.node_id) && e.edge_type in kinds
  {
    var k, p :| Leads(m, p, kinds, k, n) && k.node_type == t && k != n;
    SameId(m, k, n);
    assert Joined(m, p[|p| - 2], p[|p| - 1], kinds);
    IncomingEdges(m, m.edges, n.node_id);
  }

  lemma SameId(m: Manifest, a: Node, b: Node)
    requires UniqueIds(m) && a in m.nodes && b in m.nodes && a != b
    ensures a.node_id != b.node_id
  {
    NodesById(m);
  }

  lemma NodeControlled(m: Manifest, n: Node)
    requires Based(m) && n in m.nodes
    ensures EffectsOk(m, n) <==> Controlled(m, n)
  {
    hide Based, Forward, Backward, ReachesGoal, LedFrom, Recovers, Exits, OfType, Recoveries, HumanExits, Incoming;
    LedFromGoal(m, n, Capability, AUTHORITY_EDGES);
    LedFromGoal(m, n, Approval, {AuthorisedBy});
    RecoversGoal(m, n);
    ExitsGoal(m, n);
    if LedFrom(m, n, Capability, AUTHORITY_EDGES) { LedHasEdge(m, n, Capability, AUTHORITY_EDGES); }
  }

  // ---- joins and acceptance ----

  predicate NamesJoin(m: Manifest, id: string) {
    exists n :: n in m.nodes && n.node_id == id && n.node_type == JoinNode
  }

  /** The join names a join node, and its predecessors are exactly the sources of what satisfies it. */
  ghost predicate JoinFits(m: Manifest, j: Join) {
    NamesJoin(m, j.node_id) && forall p :: p in j.predecessors <==> Joined(m, p, j.node_id, {Satisfies})
  }

  lemma NamesJoinById(m: Manifest, id: string)
    requires UniqueIds(m)
    ensures NamesJoin(m, id) <==> id in ById(m.nodes) && ById(m.nodes)[id].node_type == JoinNode
  {
    NodesById(m);
  }

  lemma JoinedSource(m: Manifest, id: string, p: string)
    requires Based(m)
    ensures p in Sources(Incoming(m, m.edges, id), {Satisfies}) <==> Joined(m, p, id, {Satisfies})
  {
    hide Incoming, Sources;
    IncomingEdges(m, m.edges, id);
  }

  lemma JoinDeclared(m: Manifest, j: Join)
    requires Based(m)
    ensures JoinOk(m, j) <==> JoinFits(m, j)
  {
    hide Based, Joined, Sources, Incoming, NamesJoin;
    BasedUnique(m);
    NamesJoinById(m, j.node_id);
    var sources, declared := set x | x in Sources(Incoming(m, m.edges, j.node_id), {Satisfies}), set x | x in j.predecessors;
    forall p ensures p in sources <==> Joined(m, p, j.node_id, {Satisfies}) { JoinedSource(m, j.node_id, p); }
    assert sources == declared <==> forall p :: p in declared <==> Joined(m, p, j.node_id, {Satisfies});
  }

  /** An edge by which a join satisfies the node. */
  predicate BarrierEdge(m: Manifest, e: Edge, id: string) {
    e.target == id && e.edge_type == Satisfies && NamesJoin(m, e.source)
  }

  predicate OnlyBarrier(m: Manifest, edges: seq<Edge>, id: string, i: nat) {
    i < |edges| && BarrierEdge(m, edges[i], id) && forall k :: 0 <= k < |edges| && BarrierEdge(m, edges[k], id) ==> k == i
  }

  predicate FirstFor(joins: seq<Join>, id: string, j: Join) {
    exists i :: 0 <= i < |joins| && joins[i] == j && j.node_id == id && forall k :: 0 <= k < i ==> joins[k].node_id != id
  }

  lemma {:induction false} FirstDeclared(joins: seq<Join>, id: string, j: Join)
    ensures FirstJoin(joins, id) == Some(j) <==> FirstFor(joins, id, j)
  {
    if joins != [] {
      FirstDeclared(joins[1..], id, j);
      if joins[0].node_id != id {
        if FirstFor(joins[1..], id, j) {
          var i :| 0 <= i < |joins[1..]| && joins[1..][i] == j && j.node_id == id && forall k :: 0 <= k < i ==> joins[1..][k].node_id != id;
          assert joins[i + 1] == j && forall k :: 0 < k < i + 1 ==> joins[k] == joins[1..][k - 1];
        }
        if FirstFor(joins, id, j) {
          var i :| 0 <= i < |joins| && joins[i] == j && j.node_id == id && forall k :: 0 <= k < i ==> joins[k].node_id != id;
          assert joins[1..][i - 1] == j && forall k :: 0 <= k < i - 1 ==> joins[1..][k] == joins[k + 1];
        }
      } else {
        assert FirstFor(joins, id, joins[0]);
      }
    }
  }

  /** The barrier edges of a node, in order. */
  function BarriersInto(m: Manifest, edges: seq<Edge>, id: string): seq<Edge> {
    Barriers(m, Incoming(m, edges, id))
  }

  lemma {:induction false} NoBarriers(m: Manifest, edges: seq<Edge>, id: string)
    requires Based(m) && forall e :: e in edges ==> Known(m, e)
    ensures BarriersInto(m, edges, id) == [] <==> forall k :: 0 <= k < |edges| ==> !BarrierEdge(m, edges[k], id)
  {
    hide Based, BarrierEdge, Known, BarriersInto;
    if edges != [] {
      var k := |edges| - 1;
      NoBarriers(m, edges[..k], id);
      BarriersNext(m, edges, id);
      assert forall i :: 0 <= i < k ==> edges[..k][i] == edges[i];
    } else {
      NothingInto(m, id);
    }
  }

  lemma NothingInto(m: Manifest, id: string)
    ensures BarriersInto(m, [], id) == []
  {}

  lemma {:induction false} OneBarrier(m: Manifest, edges: seq<Edge>, id: string, i: nat)
    requires Based(m) && (forall e :: e in edges ==> Known(m, e)) && OnlyBarrier(m, edges, id, i)
    ensures BarriersInto(m, edges, id) == [edges[i]]
  {
    hide Based, BarrierEdge, Known, BarriersInto;
    var k := |edges| - 1;
    var front := edges[..k];
    assert forall x :: 0 <= x < k ==> front[x] == edges[x];
    BarriersNext(m, edges, id);
    if i == k { NoBarriers(m, front, id); } else { OneBarrier(m, front, id, i); }
  }

  lemma {:induction false} SoleBarrier(m: Manifest, edges: seq<Edge>, id: string) returns (i: nat)
    requires Based(m) && (forall e :: e in edges ==> Known(m, e)) && |BarriersInto(m, edges, id)| == 1
    ensures OnlyBarrier(m, edges, id, i)
  {
    hide Based, BarrierEdge, Known, BarriersInto;
    if edges == [] { NothingInto(m, id); }
    var k := |edges| - 1;
    var front := edges[..k];
    assert forall x :: 0 <= x < k ==> front[x] == edges[x];
    BarriersNext(m, edges, id);
    if BarrierEdge(m, edges[k], id) {
      NoBarriers(m, front, id);
      i := k;
    } else {
      i := SoleBarrier(m, front, id);
    }
  }

  lemma BarriersNext(m: Manifest, edges: seq<Edge>, id: string)
    requires Based(m) && edges != [] && forall e :: e in edges ==> Known(m, e)
    ensures var e := edges[|edges| - 1];
            BarriersInto(m, edges, id) == BarriersInto(m, edges[..|edges| - 1], id) + if BarrierEdge(m, e, id) then [e] else []
  {
    hide NamesJoin;
    var e := edges[|edges| - 1];
    NamesJoinById(m, e.source);
    var rest := Incoming(m, edges[..|edges| - 1], id);
    if e.target == id { assert (rest + [e])[..|rest|] == rest; }
  }

  /** The node carries the guard; without one it carries the empty name. */
  predicate Carries(n: Node, guard: string) {
    guard == if "guard" in n.metadata then n.metadata["guard"] else ""
  }

  /** One of the named nodes carries the guard. */
  predicate Carried(m: Manifest, nodes: seq<string>, guard: string) {
    exists x :: x in m.nodes && x.node_id in nodes && Carries(x, guard)
  }

  predicate Crosses(p: seq<string>, nodes: seq<string>) {
    exists i :: 0 <= i < |p| && p[i] in nodes
  }

  /** The node is satisfied by one join, the first declared for it waits for all its predecessors, they
      are nodes that carry every demand, and every way into the node crosses one of them. */
  ghost predicate Guarded(m: Manifest, n: Node, j: Join) {
    && j.policy == All && n.required_guards != []
    && (forall p :: p in j.predecessors ==> p in Ids(m))
    && (forall g :: g in n.required_guards ==> Carried(m, j.predecessors, g))
    && (forall s, p :: Initial(m, s) && Leads(m, p, EVERY, s, n) ==> Crosses(p, j.predecessors))
  }

  ghost predicate AcceptFits(m: Manifest, n: Node) {
    n.node_type == Decision && n.node_id == "decision.accept" ==>
      exists i: nat, j :: OnlyBarrier(m, m.edges, n.node_id, i) && FirstFor(m.joins, m.edges[i].source, j) && Guarded(m, n, j)
  }

  lemma AvoidingWay(m: Manifest, n: Node, nodes: seq<string>)
    requires Based(m) && n in m.nodes
    ensures (exists s :: s in Entries(m) && ReachAvoiding(Forward(m), s, n.node_id, set x | x in nodes))
            <==> exists s, p :: Initial(m, s) && Leads(m, p, EVERY, s, n) && !Crosses(p, nodes)
  {
    hide Based, Forward, Initial, Entries, HasEdge, Joined;
    var g, guards := Forward(m), set x | x in nodes;
    forall x, y ensures Joined(m, x, y, EVERY) <==> HasEdge(g, x, y) { JoinedForward(m, x, y); }
    if s :| s in Entries(m) && ReachAvoiding(g, s, n.node_id, guards) {
      EntryNode(m, s);
      var k :| k in m.nodes && k.node_id == s;
      EntriesInitial(m, k);
      var p :| PathFromTo(g, p, s, n.node_id) && forall x :: x in p ==> x !in guards;
      assert WayTo(m, p, s, n.node_id, EVERY);
      assert forall i :: 0 <= i < |p| ==> p[i] in p;
      assert Initial(m, k) && Leads(m, p, EVERY, k, n) && !Crosses(p, nodes);
    }
    if s, p :| Initial(m, s) && Leads(m, p, EVERY, s, n) && !Crosses(p, nodes) {
      EntriesInitial(m, s);
      assert PathFromTo(g, p, s.node_id, n.node_id);
      forall x | x in p ensures x !in guards {
        var i :| 0 <= i < |p| && p[i] == x;
      }
      assert ReachAvoiding(g, s.node_id, n.node_id, guards);
    }
  }

  predicate CarriedAmong(m: Manifest, nodes: set<string>, guard: string)
    requires forall p :: p in nodes ==> p in ById(m.nodes)
  {
    exists p :: p in nodes && ById(m.nodes)[p].Meta("guard") == guard
  }

  lemma CarriedBy(m: Manifest, nodes: seq<string>, g: string)
    requires UniqueIds(m) && forall p :: p in nodes ==> p in ById(m.nodes)
    ensures CarriedAmong(m, (set x | x in nodes), g) <==> Carried(m, nodes, g)
  {
    NodesById(m);
    if p :| p in (set x | x in nodes) && ById(m.nodes)[p].Meta("guard") == g {
      var x := ById(m.nodes)[p];
      assert x in m.nodes && x.node_id in nodes && Carries(x, g);
    }
    if x :| x in m.nodes && x.node_id in nodes && Carries(x, g) {
      assert x.node_id in (set y | y in nodes) && ById(m.nodes)[x.node_id].Meta("guard") == g;
    }
  }

  lemma BasedUnique(m: Manifest)
    requires Based(m)
    ensures UniqueIds(m)
  {}

  lemma BarrierAll(m: Manifest, n: Node)
    requires BarrierOk(m, n)
    ensures Barrier(m, n).policy == All && n.required_guards != []
  {}

  /** The condition on the predecessors, given the barrier. */
  lemma GuardsMean(m: Manifest, n: Node)
    requires Based(m) && n in m.nodes && BarrierOk(m, n)
    ensures AcceptOk(m, n) <==> Guarded(m, n, Barrier(m, n))
  {
    hide Based, Forward, Initial, Entries, ReachAvoiding, BarrierOk, Barrier, Crosses, Leads, Carried, CarriedAmong;
    BasedUnique(m);
    NodesById(m);
    var j := Barrier(m, n);
    BarrierAll(m, n);
    AvoidingWay(m, n, j.predecessors);
    AcceptUnfolds(m, n);
    if forall p :: p in j.predecessors ==> p in ById(m.nodes) {
      forall g ensures CarriedAmong(m, (set x | x in j.predecessors), g) <==> Carried(m, j.predecessors, g) {
        CarriedBy(m, j.predecessors, g);
      }
    }
  }

  lemma AcceptUnfolds(m: Manifest, n: Node)
    requires BarrierOk(m, n)
    ensures var guards := set p | p in Barrier(m, n).predecessors;
            AcceptOk(m, n)
            <==> && (forall p :: p in Barrier(m, n).predecessors ==> p in ById(m.nodes))
                 && (forall r :: r in n.required_guards ==> CarriedAmong(m, guards, r))
                 && !(exists s :: s in Entries(m) && ReachAvoiding(Forward(m), s, n.node_id, guards))
  {
    hide Barrier, Forward, Entries, ReachAvoiding;
  }

  lemma AcceptMeans(m: Manifest, n: Node)
    requires Based(m) && n in m.nodes
    ensures (IsAccept(n) ==> AcceptOk(m, n)) <==> AcceptFits(m, n)
  {
    hide Based, Guarded, AcceptOk, OnlyBarrier, FirstFor, Barriers, Incoming;
    if IsAccept(n) {
      EdgesKnown(m);
      var bs := BarriersInto(m, m.edges, n.node_id);
      forall i: nat | OnlyBarrier(m, m.edges, n.node_id, i) ensures i < |m.edges| && bs == [m.edges[i]] { OnlyIndex(m, n, i); }
      if |bs| == 1 {
        var i := SoleBarrier(m, m.edges, n.node_id);
        forall j ensures FirstJoin(m.joins, bs[0].source) == Some(j) <==> FirstFor(m.joins, bs[0].source, j) {
          FirstDeclared(m.joins, bs[0].source, j);
        }
        BarrierIs(m, n);
      }
      AcceptNeedsBarrier(m, n);
    }
  }

  lemma OnlyIndex(m: Manifest, n: Node, i: nat)
    requires Based(m) && OnlyBarrier(m, m.edges, n.node_id, i)
    ensures i < |m.edges| && BarriersInto(m, m.edges, n.node_id) == [m.edges[i]]
  {
    OneBarrier(m, m.edges, n.node_id, i);
  }

  lemma EdgesKnown(m: Manifest)
    requires Based(m)
    ensures forall e :: e in m.edges ==> Known(m, e)
  {}

  lemma AcceptNeedsBarrier(m: Manifest, n: Node)
    ensures AcceptOk(m, n) ==> BarrierOk(m, n)
  {}

  lemma BarrierIs(m: Manifest, n: Node)
    requires Based(m) && n in m.nodes && |Barriers(m, Incoming(m, m.edges, n.node_id))| == 1
    ensures var j := FirstJoin(m.joins, Barriers(m, Incoming(m, m.edges, n.node_id))[0].source);
            && (BarrierOk(m, n) <==> n.required_guards != [] && j.Some? && j.value.policy == All)
            && (AcceptOk(m, n) <==> j.Some? && Guarded(m, n, j.value))
  {
    hide Based, Guarded, AcceptOk;
    AcceptNeedsBarrier(m, n);
    if BarrierOk(m, n) { GuardsMean(m, n); } else { GuardedNeeds(m, n); }
  }

  lemma GuardedNeeds(m: Manifest, n: Node)
    ensures forall j :: Guarded(m, n, j) ==> j.policy == All && n.required_guards != []
  {}

  // ---- cycles ----

  /** The edge escalates from a node that goes round with the given one, to where no way leads back. */
  ghost predicate EscalatesOut(m: Manifest, n: Node, e: Edge) {
    && e in m.edges && e.edge_type == EscalatesTo
    && Connected(m, n.node_id, e.source, EVERY) && Connected(m, e.source, n.node_id, EVERY)
    && !Connected(m, e.target, n.node_id, EVERY)
  }

  ghost predicate OnCycle(m: Manifest, n: Node) {
    exists p :: |p| > 1 && WayTo(m, p, n.node_id, n.node_id, EVERY)
  }

  /** Whatever lies on a cycle has a budget and a timeout, and the cycle can be left for good by escalation. */
  ghost predicate CycleBounded(m: Manifest, n: Node) {
    OnCycle(m, n) ==> n.budget.Some? && n.timeout.Some? && exists e :: EscalatesOut(m, n, e)
  }

  lemma CycleReaches(m: Manifest, n: Node)
    requires Based(m) && n in m.nodes
    ensures OnCycle(m, n) <==> ReachPlus(Forward(m), n.node_id, n.node_id)
  {
    hide Based, Forward, Joined, HasEdge, Reach;
    var g, id := Forward(m), n.node_id;
    if p :| |p| > 1 && WayTo(m, p, id, id, EVERY) {
      var rest := p[1..];
      assert Joined(m, p[0], p[1], EVERY) && forall i :: 0 <= i < |rest| ==> rest[i] == p[i + 1];
      JoinedForward(m, id, p[1]);
      assert WayTo(m, rest, p[1], id, EVERY);
      WayReaches(m, p[1], id);
    }
    if ReachPlus(g, id, id) {
      var b :| HasEdge(g, id, b) && Reach(g, b, id);
      JoinedForward(m, id, b);
      WayReaches(m, b, id);
      var q :| WayTo(m, q, b, id, EVERY);
      var p := [id] + q;
      forall i | 0 <= i < |p| - 1 ensures Joined(m, p[i], p[i + 1], EVERY) {
        if i > 0 { assert Joined(m, q[i - 1], q[i], EVERY); }
      }
      assert WayTo(m, p, id, id, EVERY);
    }
  }

  /** The nodes that go round with a node. */
  ghost function Round(g: Graph, n: string): set<string> {
    set x | x in g && Reach(g, n, x) && Reach(g, x, n)
  }

  lemma RoundComponent(g: Graph, n: string)
    requires n in g
    ensures n in Round(g, n) && IsComponent(g, Round(g, n))
  {
    hide Reach;
    ReachSelf(g, n);
    var c := Round(g, n);
    forall a, b | a in c && b in c ensures Reach(g, a, b) { ReachTrans(g, a, n, b); }
    forall a, b | a in c && b in g && Reach(g, a, b) && Reach(g, b, a) ensures b in c {
      ReachTrans(g, n, a, b);
      ReachTrans(g, b, a, n);
    }
  }

  lemma ComponentRound(g: Graph, c: set<string>, n: string)
    requires IsComponent(g, c) && n in c
    ensures c == Round(g, n)
  {
    hide Reach;
  }

  lemma CycleSpreads(g: Graph, c: set<string>, n: string)
    requires IsCyclicComponent(g, c) && n in c
    ensures ReachPlus(g, n, n)
  {
    hide Reach, HasEdge;
    var a :| a in c && ReachPlus(g, a, a);
    if a != n {
      ReachCases(g, n, a);
      var b :| HasEdge(g, n, b) && Reach(g, b, a);
      ReachTrans(g, b, a, n);
    }
  }

  /** An escalation edge out of the nodes that go round with one. */
  lemma EscalationOut(m: Manifest, n: Node, e: Edge)
    requires Based(m) && n in m.nodes && e in m.edges
    ensures var c := Round(Forward(m), n.node_id);
            EscalatesOut(m, n, e) <==> e.edge_type == EscalatesTo && e.source in c && e.target !in c
  {
    hide Based, Forward, WayTo, Reach;
    var g := Forward(m);
    WayReaches(m, n.node_id, e.source);
    WayReaches(m, e.source, n.node_id);
    WayReaches(m, e.target, n.node_id);
    EdgeInside(m, e);
    if Reach(g, n.node_id, e.source) { ReachStep(g, n.node_id, e.source, e.target); }
  }

  lemma EdgeInside(m: Manifest, e: Edge)
    requires Based(m) && e in m.edges
    ensures var g := Forward(m); e.source in g && e.target in g && HasEdge(g, e.source, e.target)
  {
    hide Forward;
    ForwardEdges(m);
  }

  lemma ComponentFits(m: Manifest, n: Node)
    requires Based(m) && n in m.nodes
    requires forall c :: IsCyclicComponent(Forward(m), c) ==> CycleOk(m, c)
    ensures CycleBounded(m, n)
  {
    hide Based, Forward, Connected, OnCycle, Reach, ReachPlus, Known;
    CycleReaches(m, n);
    if OnCycle(m, n) {
      var g := Forward(m);
      BasedUnique(m);
      NodesById(m);
      NodeInside(m, n);
      RoundComponent(g, n.node_id);
      var c := Round(g, n.node_id);
      assert IsCyclicComponent(g, c);
      var e :| e in m.edges && Known(m, e) && e.source in c && e.edge_type == EscalatesTo && e.target !in c;
      EscalationOut(m, n, e);
    }
  }

  lemma NodeInside(m: Manifest, n: Node)
    requires n in m.nodes
    ensures n.node_id in Forward(m)
  {}

  lemma MemberBounded(m: Manifest, c: set<string>, n: Node)
    requires Based(m) && IsCyclicComponent(Forward(m), c) && n in m.nodes && n.node_id in c && CycleBounded(m, n)
    ensures n.budget.Some? && n.timeout.Some? && exists e :: EscalatesOut(m, n, e)
  {
    hide Based, Forward, OnCycle, Reach, ReachPlus, EscalatesOut, IsCyclicComponent;
    CycleSpreads(Forward(m), c, n.node_id);
    CycleReaches(m, n);
  }

  lemma ComponentInside(m: Manifest, c: set<string>)
    requires Based(m) && IsCyclicComponent(Forward(m), c)
    ensures (exists id :: id in c) && forall id :: id in c ==> id in ById(m.nodes)
  {
    hide Forward, Reach, ReachPlus;
    NodesById(m);
    ForwardIds(m);
  }

  lemma BoundedFits(m: Manifest, c: set<string>)
    requires Based(m) && IsCyclicComponent(Forward(m), c) && forall n :: n in m.nodes ==> CycleBounded(m, n)
    ensures CycleOk(m, c)
  {
    hide Based, Forward, IsCyclicComponent, CycleBounded, EscalatesOut, Known, Round;
    BasedUnique(m);
    NodesById(m);
    ComponentInside(m, c);
    forall id | id in c ensures ById(m.nodes)[id].budget.Some? && ById(m.nodes)[id].timeout.Some? {
      MemberBounded(m, c, ById(m.nodes)[id]);
    }
    var id :| id in c;
    var n := ById(m.nodes)[id];
    MemberBounded(m, c, n);
    var e :| EscalatesOut(m, n, e);
    EscalationEdge(m, n, e);
    EscalationOut(m, n, e);
    CyclicRound(Forward(m), c, id);
  }

  lemma CyclicRound(g: Graph, c: set<string>, n: string)
    requires IsCyclicComponent(g, c) && n in c
    ensures c == Round(g, n)
  {
    hide IsComponent, ReachPlus, Round;
    ComponentRound(g, c, n);
  }

  lemma EscalationEdge(m: Manifest, n: Node, e: Edge)
    requires Based(m) && EscalatesOut(m, n, e)
    ensures e in m.edges && Known(m, e)
  {}

  lemma ForwardIds(m: Manifest)
    ensures Forward(m).Keys == Ids(m)
  {}

  // ---- trust and memory ----

  /** No way from an untrusted node leads to an approval or a capability. */
  ghost predicate Isolated(m: Manifest, n: Node) {
    Tagged(n, "trust", "untrusted") ==>
      forall k, p :: Leads(m, p, EVERY, n, k) && k != n ==> k.node_type != Approval && k.node_type != Capability
  }

  lemma NodeIsolated(m: Manifest, n: Node)
    requires Based(m) && n in m.nodes
    ensures TrustOk(m, n) <==> Isolated(m, n)
  {
    hide Based, Forward, Reach, OfType, Leads;
    forall t: NodeType ensures ReachesGoal(Forward(m), n.node_id, OfType(m, t, n.node_id))
                       <==> exists k, p :: Leads(m, p, EVERY, n, k) && k.node_type == t && k != n {
      TypeAhead(m, n, t);
    }
  }

  lemma TypeAhead(m: Manifest, n: Node, t: NodeType)
    requires Based(m) && n in m.nodes
    ensures ReachesGoal(Forward(m), n.node_id, OfType(m, t, n.node_id))
            <==> exists k, p :: Leads(m, p, EVERY, n, k) && k.node_type == t && k != n
  {
    hide Based, Forward, Reach, WayTo, OfType;
    BasedUnique(m);
    NodesById(m);
    if id :| id in OfType(m, t, n.node_id) && Reach(Forward(m), n.node_id, id) {
      TypedNode(m, t, n, id);
      var k := ById(m.nodes)[id];
      WayReaches(m, n.node_id, id);
      var p :| WayTo(m, p, n.node_id, id, EVERY);
      assert Leads(m, p, EVERY, n, k);
    }
    if k, p :| Leads(m, p, EVERY, n, k) && k.node_type == t && k != n {
      WayReaches(m, n.node_id, k.node_id);
      OfTypeIs(m, t, n, k);
    }
  }

  lemma TypedNode(m: Manifest, t: NodeType, n: Node, id: string)
    requires UniqueIds(m) && n in m.nodes && id in OfType(m, t, n.node_id)
    ensures id in ById(m.nodes) && ById(m.nodes)[id].node_type == t && ById(m.nodes)[id] != n
  {
    NodesById(m);
  }

  /** The authority of a is numeric and at most that of b. */
  predicate AtMost(parse: string -> Option<int>, a: Node, b: Node) {
    parse(a.authority).Some? && parse(b.authority).Some? && parse(a.authority).value <= parse(b.authority).value
  }

  /** Memory that claims authority derives from something, and claims no more than anything it derives from. */
  ghost predicate Derived(m: Manifest, n: Node, parse: string -> Option<int>) {
    n.node_type == Memory && n.authority != "" ==>
      && (exists b :: b in m.nodes && Joined(m, b.node_id, n.node_id, {DerivedFrom}))
      && forall b :: b in m.nodes && Joined(m, b.node_id, n.node_id, {DerivedFrom}) ==> AtMost(parse, n, b)
  }

  lemma NodeDerived(m: Manifest, n: Node, parse: string -> Option<int>)
    requires Based(m) && n in m.nodes
    ensures MemoryOk(m, n, parse) <==> Derived(m, n, parse)
  {
    hide Incoming;
    NodesById(m);
    IncomingEdges(m, m.edges, n.node_id);
    forall b | b in m.nodes
      ensures Joined(m, b.node_id, n.node_id, {DerivedFrom})
              <==> exists e :: e in Incoming(m, m.edges, n.node_id) && e.edge_type == DerivedFrom && e.source == b.node_id {}
    forall e | e in Incoming(m, m.edges, n.node_id) && e.edge_type == DerivedFrom
      ensures e.source in ById(m.nodes) && Joined(m, ById(m.nodes)[e.source].node_id, n.node_id, {DerivedFrom}) {}
  }

  /** Each of the nodes derives from the next; all but the last are memory that claims authority. */
  ghost predicate Derivation(m: Manifest, chain: seq<Node>) {
    && chain != [] && (forall i :: 0 <= i < |chain| ==> chain[i] in m.nodes)
    && forall i :: 0 <= i < |chain| - 1 ==>
         && chain[i].node_type == Memory && chain[i].authority != ""
         && Joined(m, chain[i + 1].node_id, chain[i].node_id, {DerivedFrom})
  }

  /** Memory never claims more authority than anything it derives from, however far back. */
  lemma {:induction false} MemoryBounded(m: Manifest, parse: string -> Option<int>, chain: seq<Node>)
    requires Accepted(m, parse) && Derivation(m, chain) && |chain| > 1
    ensures AtMost(parse, chain[0], chain[|chain| - 1])
  {
    hide Accepted, Joined;
    AcceptedDerived(m, parse, chain[0]);
    if |chain| > 2 {
      var rest := chain[1..];
      assert forall i :: 0 <= i < |rest| ==> rest[i] == chain[i + 1];
      MemoryBounded(m, parse, rest);
    }
  }

  lemma AcceptedDerived(m: Manifest, parse: string -> Option<int>, n: Node)
    requires Accepted(m, parse) && n in m.nodes
    ensures Derived(m, n, parse)
  {
    hide MemoryOk, Derived, NodeReachOk, NodeRolesOk, JoinOk, TrustOk, IsCyclicComponent;
    assert forall e :: e in m.edges ==> EdgeOk(m, e);
    NodeDerived(m, n, parse);
  }

  // ---- the verdict ----

  /** A manifest without a finding: as many identities as nodes, edges that fit, a node to enter by; every
      node entered, controlled, bounded, isolated and derived as it must be; acceptance guarded; joins declared. */
  ghost predicate Clear(m: Manifest, parse: string -> Option<int>) {
    && |Ids(m)| == |m.nodes| && (forall e :: e in m.edges ==> Fits(m, e)) && (exists n :: Initial(m, n))
    && (forall n :: n in m.nodes ==> Entered(m, n) && Controlled(m, n) && AcceptFits(m, n))
    && (forall n :: n in m.nodes ==> CycleBounded(m, n) && Isolated(m, n) && Derived(m, n, parse))
    && (forall j :: j in m.joins ==> JoinFits(m, j))
  }

  lemma FitsKnown(m: Manifest, e: Edge)
    ensures Fits(m, e) ==> Known(m, e)
  {}

  lemma CyclesMean(m: Manifest)
    requires Based(m)
    ensures (forall c :: IsCyclicComponent(Forward(m), c) ==> CycleOk(m, c)) <==> forall n :: n in m.nodes ==> CycleBounded(m, n)
  {
    hide Based, Forward, IsCyclicComponent, CycleOk, CycleBounded;
    if forall c :: IsCyclicComponent(Forward(m), c) ==> CycleOk(m, c) {
      forall n | n in m.nodes ensures CycleBounded(m, n) { ComponentFits(m, n); }
    }
    if forall n :: n in m.nodes ==> CycleBounded(m, n) {
      forall c | IsCyclicComponent(Forward(m), c) ensures CycleOk(m, c) { BoundedFits(m, c); }
    }
  }

  /** The check accepts exactly these, for any parts their constructors accept. */
  lemma AcceptedExactly(m: Manifest, parse: string -> Option<int>)
    requires forall n :: n in m.nodes ==> n.WellFormed()
    ensures Accepted(m, parse) <==> Clear(m, parse)
  {
    hide UniqueIds, EdgeOk, Fits, Known, Entries, Initial, NodeReachOk, Entered, EffectsOk, Controlled, AcceptOk, AcceptFits, CycleOk,
         CycleBounded, TrustOk, Isolated, MemoryOk, Derived, JoinOk, JoinFits, IsCyclicComponent, Forward, Ids, Node.WellFormed;
    IdsCounted(m);
    forall e ensures Fits(m, e) ==> Known(m, e) { FitsKnown(m, e); }
    forall e ensures EdgeOk(m, e) ==> Known(m, e) { OkKnown(m, e); }
    if UniqueIds(m) && forall e :: e in m.edges ==> Known(m, e) {
      forall e | e in m.edges ensures EdgeOk(m, e) <==> Fits(m, e) { EdgeFits(m, e); }
      EntryExists(m);
      CyclesMean(m);
      forall n | n in m.nodes
        ensures (NodeReachOk(m, n) <==> Entered(m, n)) && (EffectsOk(m, n) <==> Controlled(m, n)) && (TrustOk(m, n) <==> Isolated(m, n))
        ensures ((IsAccept(n) ==> AcceptOk(m, n)) <==> AcceptFits(m, n)) && (MemoryOk(m, n, parse) <==> Derived(m, n, parse)) {
        NodeEntered(m, n);
        NodeControlled(m, n);
        AcceptMeans(m, n);
        NodeIsolated(m, n);
        NodeDerived(m, n, parse);
      }
      forall j | j in m.joins ensures JoinOk(m, j) <==> JoinFits(m, j) { JoinDeclared(m, j); }
    } else if UniqueIds(m) {
      var e :| e in m.edges && !Known(m, e);
      assert !EdgeOk(m, e) && !Fits(m, e);
    }
  }

  lemma OkKnown(m: Manifest, e: Edge)
    ensures EdgeOk(m, e) ==> Known(m, e)
  {}
}
