/** The static barrier check is sound for every accepted manifest, compiled or not, whose last
    declared join of the barrier cannot be satisfied without a required guard; a manifest with a second
    join shows why, and another one makes the check raise. */
module StaticSoundness {
  import opened GraphSchema
  import opened Text
  import opened Paths
  import opened Tarjan
  import opened Manifest
  import opened Monitor

  /** Identity of the join in front of an accept decision. */
  function BarrierId(m: Manifest, n: Node): string
    requires BarrierOk(m, n)
  {
    Barriers(m, Incoming(m, m.edges, n.node_id))[0].source
  }

  lemma {:induction false} FirstJoinIn(joins: seq<Join>, id: string)
    requires FirstJoin(joins, id).Some?
    ensures FirstJoin(joins, id).value in joins && FirstJoin(joins, id).value.node_id == id
  {
    if joins[0].node_id != id {
      FirstJoinIn(joins[1..], id);
      assert joins == [joins[0]] + joins[1..];
    }
  }

  /** With distinct join identities the first and the last declared join are the same. */
  lemma DistinctJoins(joins: seq<Join>, id: string)
    requires forall i, j :: 0 <= i < j < |joins| ==> joins[i].node_id != joins[j].node_id
    requires FirstJoin(joins, id).Some?
    ensures LastJoin(joins, id) == FirstJoin(joins, id)
  {
    FirstJoinIn(joins, id);
    var i :| 0 <= i < |joins| && joins[i] == FirstJoin(joins, id).value;
    assert LastJoin(joins, id).Some?;
    var j :| 0 <= j < |joins| && joins[j] == LastJoin(joins, id).value;
  }

  /** An accept decision is no join, so it waits for all its predecessors. */
  lemma AcceptIsNoJoin(m: Manifest, n: Node, parse: string -> Option<int>)
    requires Accepted(m, parse) && n in m.nodes && IsAccept(n)
    ensures LastJoin(m.joins, ACCEPT).None?
  {
    ByIdNodes(m.nodes);
    forall j | j in m.joins ensures j.node_id != ACCEPT {
      assert JoinOk(m, j);
    }
  }

  /** Whatever predecessors satisfy the join, some node among them carries each required guard. */
  ghost predicate Covers(m: Manifest, n: Node, j: Join) {
    forall met: set<string>, r ::
      (forall p :: p in met ==> p in j.predecessors) && j.SatisfiedBy(met) && r in n.required_guards ==> Carried(m, met, r)
  }

  ghost predicate Carried(m: Manifest, ids: set<string>, guard: string) {
    exists id :: id in ids && id in ById(m.nodes) && ById(m.nodes)[id].Meta("guard") == guard
  }

  /** In every reachable state, a reserved or completed accept decision has, for each required
      guard, a completed node carrying that guard. */
  lemma GuardsCompleted(m: Manifest, n: Node, moves: seq<Move>, parse: string -> Option<int>)
    requires WellFormed(m) && Accepted(m, parse) && n in m.nodes && IsAccept(n) && BarrierOk(m, n)
    requires LastJoin(m.joins, BarrierId(m, n)).Some? && Covers(m, n, LastJoin(m.joins, BarrierId(m, n)).value)
    requires ACCEPT in Touched(Run(m, moves))
    ensures forall r :: r in n.required_guards ==> Carried(m, Run(m, moves).completed, r)
  {
    hide Accepted, Inv, WellFormed, BarrierOk, BarrierId, LastJoin, ById, Join.SatisfiedBy;
    var s := Run(m, moves);
    RunInv(m, moves);
    BarrierComplete(m, n, s, parse);
    var j := LastJoin(m.joins, BarrierId(m, n)).value;
    var met := JoinMet(m, s, BarrierId(m, n));
    forall r | r in n.required_guards ensures Carried(m, s.completed, r) {
      assert Carried(m, met, r);
    }
  }

  /** The completed predecessors that satisfied the join of a completed node. */
  lemma JoinMet(m: Manifest, s: State, id: string) returns (met: set<string>)
    requires Inv(m, s) && id in s.completed && LastJoin(m.joins, id).Some?
    ensures met <= s.completed && (forall p :: p in met ==> p in LastJoin(m.joins, id).value.predecessors)
    ensures LastJoin(m.joins, id).value.SatisfiedBy(met)
  {
    hide Passes;
    var j := LastJoin(m.joins, id).value;
    assert Justified(m, s, id);
    var ps := set p | p in j.predecessors;
    met := ps * Matched(m, s, id);
    assert ps * met == met;
  }

  /** A join that waits for all its predecessors covers the guards the check found among them. */
  lemma WaitingCovers(m: Manifest, n: Node, parse: string -> Option<int>)
    requires WellFormed(m) && Accepted(m, parse) && n in m.nodes && IsAccept(n) && BarrierOk(m, n)
    requires LastJoin(m.joins, BarrierId(m, n)).Some? && WaitsForAll(LastJoin(m.joins, BarrierId(m, n)).value)
    ensures Covers(m, n, LastJoin(m.joins, BarrierId(m, n)).value)
  {
    hide Accepted, BarrierOk, BarrierId, Barrier, LastJoin, ById, Join.SatisfiedBy;
    var j := LastJoin(m.joins, BarrierId(m, n)).value;
    SamePredecessors(m, n, parse);
    WaitsForAllMeans(j);
    forall met: set<string>, r | j.SatisfiedBy(met) && r in n.required_guards ensures Carried(m, met, r) {
      var id := GuardNode(m, n, r, parse);
    }
  }

  lemma AcceptHasBarrier(m: Manifest, n: Node, parse: string -> Option<int>)
    requires Accepted(m, parse) && n in m.nodes && IsAccept(n)
    ensures BarrierOk(m, n) && Barrier(m, n).policy.All?
  {
    hide EdgeOk, NodeReachOk, JoinOk, CycleOk, TrustOk, MemoryOk, ReachAvoiding, EffectsOk, Forward, ById,
         Incoming, Barriers;
    assert NodeRolesOk(m, n);
  }

  /** For distinct join identities nothing more is needed: what the check accepted is what runs. */
  lemma AcceptNeedsGuards(m: Manifest, n: Node, moves: seq<Move>, parse: string -> Option<int>)
    requires WellFormed(m) && Accepted(m, parse) && n in m.nodes && IsAccept(n)
    requires forall i, j :: 0 <= i < j < |m.joins| ==> m.joins[i].node_id != m.joins[j].node_id
    requires ACCEPT in Touched(Run(m, moves))
    ensures forall r :: r in n.required_guards ==> Carried(m, Run(m, moves).completed, r)
  {
    hide Accepted, WellFormed, Incoming, Barriers, LastJoin, ById, Run, Covers;
    AcceptHasBarrier(m, n, parse);
    DistinctJoins(m.joins, BarrierId(m, n));
    WaitingCovers(m, n, parse);
    GuardsCompleted(m, n, moves, parse);
  }

  lemma GuardNode(m: Manifest, n: Node, r: string, parse: string -> Option<int>) returns (id: string)
    requires Accepted(m, parse) && n in m.nodes && IsAccept(n) && BarrierOk(m, n) && r in n.required_guards
    ensures id in Barrier(m, n).predecessors && id in ById(m.nodes) && ById(m.nodes)[id].Meta("guard") == r
  {
    hide Barrier, BarrierOk, EdgeOk, NodeReachOk, JoinOk, CycleOk, TrustOk, MemoryOk, ReachAvoiding, EffectsOk,
         Forward, ById;
    assert NodeRolesOk(m, n);
    assert AcceptOk(m, n);
    var p :| p in Barrier(m, n).predecessors && p in ById(m.nodes) && ById(m.nodes)[p].Meta("guard") == r;
    id := p;
  }

  lemma BarrierComplete(m: Manifest, n: Node, s: State, parse: string -> Option<int>)
    requires Accepted(m, parse) && n in m.nodes && IsAccept(n) && BarrierOk(m, n)
    requires Inv(m, s) && ACCEPT in Touched(s)
    ensures BarrierId(m, n) in s.completed
  {
    hide Accepted, Passes;
    AcceptIsNoJoin(m, n, parse);
    var incoming := Incoming(m, m.edges, ACCEPT);
    var e := Barriers(m, incoming)[0];
    BarrierEdges(m, incoming);
    assert e in Barriers(m, incoming);
    assert Justified(m, s, ACCEPT);
    assert Holds(s, e);
  }

  lemma JoinSources(m: Manifest, j: Join)
    requires JoinOk(m, j)
    ensures forall id :: id in j.predecessors <==> id in Sources(Incoming(m, m.edges, j.node_id), {Satisfies})
  {
    hide Sources, Incoming, ById;
    var inputs := Sources(Incoming(m, m.edges, j.node_id), {Satisfies});
    var sources, predecessors := set p | p in inputs, set p | p in j.predecessors;
    assert sources == predecessors;
    forall id ensures id in j.predecessors <==> id in inputs {
      assert id in sources <==> id in inputs;
      assert id in predecessors <==> id in j.predecessors;
    }
  }

  /** Two accepted joins with one identity have the same predecessors. */
  lemma JoinsAgree(m: Manifest, first: Join, last: Join, parse: string -> Option<int>)
    requires Accepted(m, parse) && first in m.joins && last in m.joins && first.node_id == last.node_id
    ensures forall id :: id in first.predecessors ==> id in last.predecessors
  {
    hide EdgeOk, NodeReachOk, NodeRolesOk, CycleOk, TrustOk, MemoryOk, Incoming, ById, Entries, Forward, Sources;
    JoinSources(m, first);
    JoinSources(m, last);
  }

  /** The join the monitor keeps and the join the check looked at have the same predecessors. */
  lemma SamePredecessors(m: Manifest, n: Node, parse: string -> Option<int>)
    requires Accepted(m, parse) && BarrierOk(m, n) && LastJoin(m.joins, BarrierId(m, n)).Some?
    ensures forall id :: id in Barrier(m, n).predecessors ==> id in LastJoin(m.joins, BarrierId(m, n)).value.predecessors
  {
    hide Accepted, LastJoin, Incoming, Barriers;
    FirstJoinIn(m.joins, BarrierId(m, n));
    JoinsAgree(m, Barrier(m, n), LastJoin(m.joins, BarrierId(m, n)).value, parse);
  }

  // ---- why the condition is needed ----

  function Plain(id: string, t: NodeType, effect: Effect, guards: seq<string>, metadata: map<string, string>): Node {
    Node(id, t, effect, "", None, None, guards, [], [], metadata)
  }

  function Into(s: string, t: string): Edge {
    Edge(s, t, Satisfies, Unconditional, "", "", Always)
  }

  const A: string := "criterion.a"
  const B: string := "criterion.b"
  const BARRIER: string := "barrier"
  const FIRST: Join := Join(BARRIER, [A, B], All, None)
  const SECOND: Join := Join(BARRIER, [A, B], AnyOf, None)

  const NODE_A: Node := Plain(A, Criterion, ReadOnly, [], map["guard" := "a"])
  const NODE_B: Node := Plain(B, Criterion, ReadOnly, [], map["guard" := "b"])
  const NODE_BARRIER: Node := Plain(BARRIER, JoinNode, ReadOnly, [], map[])
  const NODE_ACCEPT: Node := Plain(ACCEPT, Decision, Terminal, ["a", "b"], map[])

  /** Two criteria before one barrier that is declared twice: as an ALL join, then as an ANY join. */
  const TWICE: Manifest := Manifest("", "",
    [NODE_A, NODE_B, NODE_BARRIER, NODE_ACCEPT],
    [Into(A, BARRIER), Into(B, BARRIER), Into(BARRIER, ACCEPT)],
    [FIRST, SECOND])

  lemma TwiceNodes()
    ensures Ids(TWICE) == {A, B, BARRIER, ACCEPT}
    ensures ById(TWICE.nodes) == map[A := NODE_A, B := NODE_B, BARRIER := NODE_BARRIER, ACCEPT := NODE_ACCEPT]
    ensures A != B && BARRIER != A && BARRIER != B && ACCEPT != A && ACCEPT != B && ACCEPT != BARRIER
  {
    assert A[|A| - 1] != B[|B| - 1] && |BARRIER| < |A| < |ACCEPT|;
    var nodes := TWICE.nodes;
    assert nodes[..3] == [NODE_A, NODE_B, NODE_BARRIER] && nodes[..3][..2] == [NODE_A, NODE_B];
    assert [NODE_A, NODE_B][..1] == [NODE_A] && [NODE_A][..0] == [];
    assert ById([NODE_A]) == map[A := NODE_A];
    assert ById([NODE_A, NODE_B]) == map[A := NODE_A, B := NODE_B];
    assert ById(nodes[..3]) == map[A := NODE_A, B := NODE_B, BARRIER := NODE_BARRIER];
    assert nodes == nodes[..3] + [NODE_ACCEPT];
  }

  lemma TwiceEdges()
    ensures Incoming(TWICE, TWICE.edges, A) == [] && Incoming(TWICE, TWICE.edges, B) == []
    ensures Incoming(TWICE, TWICE.edges, BARRIER) == [Into(A, BARRIER), Into(B, BARRIER)]
    ensures Incoming(TWICE, TWICE.edges, ACCEPT) == [Into(BARRIER, ACCEPT)]
    ensures Outgoing(TWICE, TWICE.edges, A) == [Into(A, BARRIER)]
    ensures Outgoing(TWICE, TWICE.edges, B) == [Into(B, BARRIER)]
    ensures Outgoing(TWICE, TWICE.edges, BARRIER) == [Into(BARRIER, ACCEPT)]
  {
    hide Ids, ById;
    TwiceNodes();
    forall id | id in Ids(TWICE)
      ensures Incoming(TWICE, TWICE.edges, id) ==
        (if id == BARRIER then [Into(A, BARRIER), Into(B, BARRIER)] else if id == ACCEPT then [Into(BARRIER, ACCEPT)] else [])
      ensures Outgoing(TWICE, TWICE.edges, id) ==
        (if id == A then [Into(A, BARRIER)] else if id == B then [Into(B, BARRIER)] else if id == BARRIER then [Into(BARRIER, ACCEPT)] else [])
    {
      var edges := TWICE.edges;
      assert edges[..2] == [Into(A, BARRIER), Into(B, BARRIER)] && edges[..2][..1] == [Into(A, BARRIER)];
      assert edges[..2][..1][..0] == [];
      assert Incoming(TWICE, [], id) == [] && Outgoing(TWICE, [], id) == [];
      assert Known(TWICE, Into(A, BARRIER)) && Known(TWICE, Into(B, BARRIER)) && Known(TWICE, Into(BARRIER, ACCEPT));
      assert Incoming(TWICE, edges[..2][..1], id) == if id == BARRIER then [Into(A, BARRIER)] else [];
      assert Outgoing(TWICE, edges[..2][..1], id) == if id == A then [Into(A, BARRIER)] else [];
      assert Incoming(TWICE, edges[..2], id) == if id == BARRIER then [Into(A, BARRIER), Into(B, BARRIER)] else [];
      assert Outgoing(TWICE, edges[..2], id) == if id == A then [Into(A, BARRIER)] else if id == B then [Into(B, BARRIER)] else [];
    }
  }

  lemma TwiceEntries()
    ensures Entries(TWICE) == {A, B}
  {
    hide Incoming, ById, Ids;
    TwiceNodes();
    TwiceEdges();
  }

  lemma TwiceForward()
    ensures forall a, b :: HasEdge(Forward(TWICE), a, b) <==> (a in {A, B} && b == BARRIER) || (a == BARRIER && b == ACCEPT)
  {
    hide Incoming, ById, Ids, Forward, HasEdge;
    TwiceNodes();
    ForwardEdges(TWICE);
    forall a, b ensures HasEdge(Forward(TWICE), a, b) <==> (a in {A, B} && b == BARRIER) || (a == BARRIER && b == ACCEPT) {
      assert Into(A, BARRIER) in TWICE.edges && Into(B, BARRIER) in TWICE.edges && Into(BARRIER, ACCEPT) in TWICE.edges;
    }
  }

  lemma TwiceAcyclic()
    ensures forall c :: !IsCyclicComponent(Forward(TWICE), c)
  {
    hide Forward, HasEdge, Reach, ById;
    TwiceForward();
    TwiceNodes();
    RankAcyclic(Forward(TWICE), (id: string) => if id == ACCEPT then 0 else if id == BARRIER then 1 else 2);
  }

  lemma TwiceReachable(id: string)
    requires id in Ids(TWICE)
    ensures Reachable(TWICE, id)
  {
    hide Ids, Entries, Forward, ById, Incoming, HasEdge, Reach;
    TwiceNodes();
    TwiceEntries();
    TwiceForward();
    var g := Forward(TWICE);
    ReachSelf(g, A);
    ReachSelf(g, B);
    ReachEdge(g, A, BARRIER);
    ReachStep(g, A, BARRIER, ACCEPT);
  }

  lemma TwiceBarrier()
    ensures AcceptOk(TWICE, NODE_ACCEPT) && Barrier(TWICE, NODE_ACCEPT) == FIRST && BarrierId(TWICE, NODE_ACCEPT) == BARRIER
  {
    hide Ids, Entries, Forward, ById, Incoming;
    TwiceNodes();
    TwiceEdges();
    TwiceEntries();
    assert [Into(BARRIER, ACCEPT)][..0] == [];
    assert Barriers(TWICE, []) == [];
    assert Barriers(TWICE, [Into(BARRIER, ACCEPT)]) == [Into(BARRIER, ACCEPT)];
    assert NODE_A.Meta("guard") == "a" && NODE_B.Meta("guard") == "b";
    var guards := set p | p in FIRST.predecessors;
    assert A in guards && B in guards;
    forall s | s in Entries(TWICE) ensures !ReachAvoiding(Forward(TWICE), s, ACCEPT, guards) {
      forall p | PathFromTo(Forward(TWICE), p, s, ACCEPT) ensures exists n :: n in p && n in guards {
        assert p[0] in guards;
      }
    }
  }

  lemma TwiceJoins()
    ensures JoinOk(TWICE, FIRST) && JoinOk(TWICE, SECOND)
  {
    hide Ids, ById, Incoming;
    TwiceNodes();
    TwiceEdges();
    assert forall p :: p in Sources([Into(A, BARRIER), Into(B, BARRIER)], {Satisfies}) <==> p in FIRST.predecessors by {
      var edges := [Into(A, BARRIER), Into(B, BARRIER)];
      assert edges[..1] == [Into(A, BARRIER)] && edges[..1][..0] == [];
      assert Sources(edges[..1], {Satisfies}) == [A];
    }
  }

  lemma TwiceRoles(n: Node, parse: string -> Option<int>)
    requires n in TWICE.nodes
    ensures NodeReachOk(TWICE, n) && NodeRolesOk(TWICE, n) && TrustOk(TWICE, n) && MemoryOk(TWICE, n, parse)
  {
    hide Ids, ById, Incoming, Outgoing, Reachable, AcceptOk, ReachesGoal;
    TwiceNodes();
    TwiceEdges();
    TwiceReachable(n.node_id);
    TwiceBarrier();
  }

  lemma TwiceWires(e: Edge)
    requires e in TWICE.edges
    ensures EdgeOk(TWICE, e)
  {
    hide ById, Ids;
    TwiceNodes();
  }

  lemma PlainWellFormed(id: string, t: NodeType, effect: Effect, guards: seq<string>, metadata: map<string, string>)
    requires !Blank(id) && !effect.SideEffect?
    ensures Plain(id, t, effect, guards, metadata).WellFormed()
  {
    hide Blank;
  }

  lemma IntoWellFormed(s: string, t: string)
    requires !Blank(s) && !Blank(t)
    ensures Into(s, t).WellFormed()
  {
    hide Blank;
  }

  lemma TwiceNames()
    ensures !Blank(A) && !Blank(B) && !Blank(BARRIER) && !Blank(ACCEPT)
  {
    NotBlank(A, A[0]);
    NotBlank(B, B[0]);
    NotBlank(BARRIER, BARRIER[0]);
    NotBlank(ACCEPT, ACCEPT[0]);
  }

  lemma TwiceWellFormed()
    ensures WellFormed(TWICE)
  {
    hide Blank, Node.WellFormed, Edge.WellFormed;
    TwiceNames();
    PlainWellFormed(A, Criterion, ReadOnly, [], map["guard" := "a"]);
    PlainWellFormed(B, Criterion, ReadOnly, [], map["guard" := "b"]);
    PlainWellFormed(BARRIER, JoinNode, ReadOnly, [], map[]);
    PlainWellFormed(ACCEPT, Decision, Terminal, ["a", "b"], map[]);
    IntoWellFormed(A, BARRIER);
    IntoWellFormed(B, BARRIER);
    IntoWellFormed(BARRIER, ACCEPT);
    PairWellFormed();
  }

  lemma PairWellFormed()
    ensures FIRST.WellFormed() && SECOND.WellFormed()
  {
    hide Blank, ById, Ids;
    TwiceNames();
    TwiceNodes();
  }

  lemma TwiceUnique()
    ensures UniqueIds(TWICE)
  {
    hide ById, Ids;
    TwiceNodes();
  }

  lemma NotBlank(s: string, c: char)
    requires c in s && !IsSpace(c)
    ensures !Blank(s)
  {}

  lemma TwiceAccepted(parse: string -> Option<int>)
    ensures WellFormed(TWICE) && Accepted(TWICE, parse)
  {
    hide EdgeOk, NodeReachOk, NodeRolesOk, JoinOk, CycleOk, TrustOk, MemoryOk, Entries, Forward, ById, Barrier,
         BarrierId, AcceptOk, IsCyclicComponent, UniqueIds;
    TwiceUnique();
    TwiceWellFormed();
    TwiceAcyclic();
    TwiceEntries();
    forall n | n in TWICE.nodes
      ensures NodeReachOk(TWICE, n) && NodeRolesOk(TWICE, n) && TrustOk(TWICE, n) && MemoryOk(TWICE, n, parse) {
      TwiceRoles(n, parse);
    }
    forall e | e in TWICE.edges ensures EdgeOk(TWICE, e) { TwiceWires(e); }
    TwiceJoins();
  }

  /** The condition on the last join is needed: this accepted manifest completes its accept
      decision although no completed node carries the guard b. */
  lemma SecondJoinWeakens(parse: string -> Option<int>) returns (moves: seq<Move>)
    ensures WellFormed(TWICE) && Accepted(TWICE, parse) && NODE_ACCEPT in TWICE.nodes && "b" in NODE_ACCEPT.required_guards
    ensures ACCEPT in Run(TWICE, moves).completed
    ensures forall id :: id in Run(TWICE, moves).completed && id in ById(TWICE.nodes) ==> ById(TWICE.nodes)[id].Meta("guard") != "b"
  {
    hide Accepted, WellFormed, ById, Ids, Apply, LastJoin;
    TwiceAccepted(parse);
    TwiceNodes();
    TwiceEdges();
    moves := [Advance(A, map[]), Advance(BARRIER, map[]), Advance(ACCEPT, map[])];
    assert moves[..2] == [Advance(A, map[]), Advance(BARRIER, map[])] && moves[..2][..1] == [Advance(A, map[])];
    assert moves[..2][..1][..0] == [];
    TwiceEntry();
    TwiceAny();
    TwiceEnd();
    assert Run(TWICE, moves[..2][..1]) == AFTER_A;
    assert Run(TWICE, moves[..2]) == AFTER_BARRIER;
    assert Run(TWICE, moves) == AFTER_ACCEPT;
  }

  const AFTER_A: State := State({A}, map[A := map[]], map[])
  const AFTER_BARRIER: State := State({A, BARRIER}, map[A := map[], BARRIER := map[]], map[])
  const AFTER_ACCEPT: State := State({A, BARRIER, ACCEPT}, map[A := map[], BARRIER := map[], ACCEPT := map[]], map[])

  lemma TwiceEntry()
    ensures Apply(TWICE, INITIAL, Advance(A, map[])) == Some(AFTER_A)
  {
    hide Ids, Incoming, ById, LastJoin, Join.SatisfiedBy, ConditionMatches;
    TwiceNodes();
    TwiceEdges();
    TwiceLastJoin();
    assert Enabled(TWICE, INITIAL, A, map[]);
    assert Finish(INITIAL, A, map[]) == AFTER_A;
  }

  lemma TwiceEnd()
    ensures Apply(TWICE, AFTER_BARRIER, Advance(ACCEPT, map[])) == Some(AFTER_ACCEPT)
  {
    hide Ids, Incoming, ById, LastJoin, Join.SatisfiedBy, ConditionMatches;
    TwiceNodes();
    TwiceEdges();
    TwiceLastJoin();
    IntoMatches(BARRIER, ACCEPT, AFTER_BARRIER);
    assert Enabled(TWICE, AFTER_BARRIER, ACCEPT, map[]);
    assert Finish(AFTER_BARRIER, ACCEPT, map[]) == AFTER_ACCEPT;
  }

  lemma IntoMatches(source: string, target: string, s: State)
    ensures ConditionMatches(Into(source, target), s.events, map[])
  {}

  lemma TwiceAny()
    ensures Apply(TWICE, AFTER_A, Advance(BARRIER, map[])) == Some(AFTER_BARRIER)
  {
    hide Ids, Incoming, ById, LastJoin, Join.SatisfiedBy, Join.WellFormed, WellFormed, UniqueIds;
    TwiceNodes();
    TwiceEdges();
    TwiceLastJoin();
    PairWellFormed();
    var incoming := Incoming(TWICE, TWICE.edges, BARRIER);
    var met := set e | e in incoming && e.source in AFTER_A.completed && ConditionMatches(e, AFTER_A.events, map[]) :: e.source;
    assert Into(A, BARRIER) in Incoming(TWICE, TWICE.edges, BARRIER);
    assert A in met;
    JoinMeaning(SECOND, met);
    assert Enabled(TWICE, AFTER_A, BARRIER, map[]);
    assert Finish(AFTER_A, BARRIER, map[]) == AFTER_BARRIER;
  }

  lemma TwiceLastJoin()
    ensures LastJoin(TWICE.joins, BARRIER) == Some(SECOND)
    ensures LastJoin(TWICE.joins, A).None? && LastJoin(TWICE.joins, ACCEPT).None?
  {
    TwiceNodes();
  }

  // ---- a manifest on which the check raises ----

  const DANGLING_JOIN: Join := Join(BARRIER, [A, B, "criterion.gone"], All, None)

  /** The same graph, its barrier declared over a predecessor that is no node. */
  const DANGLING: Manifest := TWICE.(joins := [DANGLING_JOIN])

  lemma {:induction false} SameIncoming(m: Manifest, other: Manifest, edges: seq<Edge>, id: string)
    requires m.nodes == other.nodes
    ensures Incoming(m, edges, id) == Incoming(other, edges, id)
  {
    if edges != [] {
      SameIncoming(m, other, edges[..|edges| - 1], id);
      assert Known(m, edges[|edges| - 1]) == Known(other, edges[|edges| - 1]);
    }
  }

  lemma DanglingBarrier()
    ensures BarrierOk(DANGLING, NODE_ACCEPT) && Barrier(DANGLING, NODE_ACCEPT) == DANGLING_JOIN
  {
    hide Ids, ById, Incoming, Known;
    TwiceNodes();
    TwiceEdges();
    SameIncoming(DANGLING, TWICE, TWICE.edges, ACCEPT);
    assert [Into(BARRIER, ACCEPT)][..0] == [];
    assert Barriers(DANGLING, []) == [];
    assert Barriers(DANGLING, [Into(BARRIER, ACCEPT)]) == [Into(BARRIER, ACCEPT)];
  }

  lemma DanglingWellFormed()
    ensures WellFormed(DANGLING) && "criterion.gone" !in ById(DANGLING.nodes)
  {
    hide ById, Ids, Node.WellFormed, Edge.WellFormed, Blank;
    TwiceNodes();
    TwiceWellFormed();
    TwiceNames();
    assert |"criterion.gone"| == 14 && |ACCEPT| == 15 && |A| == 11 && |B| == 11 && |BARRIER| == 7;
  }

  /** The constructors accept the manifest and the check raises on it. */
  lemma DanglingRaises()
    ensures WellFormed(DANGLING) && NODE_ACCEPT in DANGLING.nodes && IsAccept(NODE_ACCEPT)
    ensures BarrierRaises(DANGLING, NODE_ACCEPT)
  {
    hide WellFormed, BarrierOk, Barrier, ById;
    DanglingBarrier();
    DanglingWellFormed();
    assert "criterion.gone" in DANGLING_JOIN.predecessors;
  }
}
