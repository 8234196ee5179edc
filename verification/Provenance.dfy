/** Provenance graphs of action arguments: the depth-first check, and the graphs the controller binds. */
module Provenance {
  import opened Text
  import opened Paths
  import GraphSchema

  datatype Node = Node(id: string, parents: seq<string>) {
    /** What the node's own constructor insists on. */
    predicate WellFormed() {
      !Blank(id) && id !in parents && forall i, j :: 0 <= i < j < |parents| ==> parents[i] != parents[j]
    }
  }

  /** Each node with its parents. */
  function ParentsOf(nodes: seq<Node>): Graph {
    if nodes == [] then map[] else ParentsOf(nodes[..|nodes| - 1])[nodes[|nodes| - 1].id := nodes[|nodes| - 1].parents]
  }

  predicate UniqueIds(nodes: seq<Node>) {
    forall i, j :: 0 <= i < j < |nodes| ==> nodes[i].id != nodes[j].id
  }

  predicate ParentsInside(nodes: seq<Node>) {
    forall n, p :: n in nodes && p in n.parents ==> Named(nodes, p)
  }

  /** What a provenance graph has to be. */
  ghost predicate Valid(nodes: seq<Node>) {
    && (forall n :: n in nodes ==> n.WellFormed())
    && nodes != [] && UniqueIds(nodes) && ParentsInside(nodes) && Acyclic(ParentsOf(nodes))
  }

  predicate Named(nodes: seq<Node>, id: string) {
    exists n :: n in nodes && n.id == id
  }

  lemma NamedNext(nodes: seq<Node>, id: string)
    requires nodes != []
    ensures Named(nodes, id) <==> Named(nodes[..|nodes| - 1], id) || nodes[|nodes| - 1].id == id
  {
    assert nodes == nodes[..|nodes| - 1] + [nodes[|nodes| - 1]];
  }

  lemma {:induction false} ParentsOfNamed(nodes: seq<Node>, id: string)
    ensures id in ParentsOf(nodes) <==> Named(nodes, id)
    ensures id in ParentsOf(nodes) ==> Node(id, ParentsOf(nodes)[id]) in nodes
  {
    hide Named;
    if nodes != [] {
      ParentsOfNamed(nodes[..|nodes| - 1], id);
      NamedNext(nodes, id);
      assert nodes == nodes[..|nodes| - 1] + [nodes[|nodes| - 1]];
    } else {
      NobodyNamed(id);
    }
  }

  lemma NobodyNamed(id: string)
    ensures !Named([], id)
  {}

  lemma {:induction false} ParentsOfSize(nodes: seq<Node>)
    ensures |ParentsOf(nodes)| <= |nodes| && (|ParentsOf(nodes)| == |nodes| <==> UniqueIds(nodes))
  {
    hide Named, UniqueIds;
    if nodes != [] {
      var k := |nodes| - 1;
      ParentsOfSize(nodes[..k]);
      ParentsOfNamed(nodes[..k], nodes[k].id);
      LastUnique(nodes);
      var before := ParentsOf(nodes[..k]);
      if nodes[k].id in before { assert before.Keys + {nodes[k].id} == before.Keys; }
      assert ParentsOf(nodes).Keys == before.Keys + {nodes[k].id};
    } else {
      NothingRepeats();
    }
  }

  lemma NothingRepeats()
    ensures UniqueIds([])
  {}

  lemma LastUnique(nodes: seq<Node>)
    requires nodes != []
    ensures var k := |nodes| - 1;
            UniqueIds(nodes) <==> UniqueIds(nodes[..k]) && !Named(nodes[..k], nodes[k].id)
  {
    var k := |nodes| - 1;
    if UniqueIds(nodes) {
      forall n | n in nodes[..k] ensures n.id != nodes[k].id {
        var i :| 0 <= i < k && nodes[i] == n;
      }
      forall i, j | 0 <= i < j < k ensures nodes[..k][i].id != nodes[..k][j].id {
        assert nodes[i].id != nodes[j].id;
      }
    }
    if UniqueIds(nodes[..k]) && !Named(nodes[..k], nodes[k].id) {
      forall i, j | 0 <= i < j < |nodes| ensures nodes[i].id != nodes[j].id {
        assert nodes[..k][i] in nodes[..k];
        if j < k { assert nodes[..k][i].id != nodes[..k][j].id; }
      }
    }
  }

  // ---- the depth-first check ----

  lemma PlusStep(g: Graph, a: string, b: string, c: string)
    requires ReachPlus(g, a, b) && HasEdge(g, b, c)
    ensures ReachPlus(g, a, c)
  {
    var d :| HasEdge(g, a, d) && Reach(g, d, b);
    ReachStep(g, d, b, c);
  }

  /** Whatever leads to a node leads to its parents, and so does the node itself. */
  lemma ParentReached(g: Graph, visiting: set<string>, n: string, i: nat)
    requires n in g && i < |g[n]| && forall v :: v in visiting && v != n ==> ReachPlus(g, v, n)
    ensures HasEdge(g, n, g[n][i]) && forall v :: v in visiting + {n} ==> ReachPlus(g, v, g[n][i])
  {
    hide Reach;
    assert HasEdge(g, n, g[n][i]);
    ReachSelf(g, g[n][i]);
    forall v | v in visiting && v != n ensures ReachPlus(g, v, g[n][i]) { PlusStep(g, v, n, g[n][i]); }
  }

  /** Visited nodes lead only to visited nodes and lie on no cycle. */
  ghost predicate Settled(g: Graph, visiting: set<string>, visited: set<string>) {
    && Closed(g) && visiting <= g.Keys && visited <= g.Keys && visiting !! visited
    && (forall a, b :: a in visited && HasEdge(g, a, b) ==> b in visited)
    && (forall a :: a in visited ==> !ReachPlus(g, a, a))
  }

  lemma EnterNode(g: Graph, visiting: set<string>, visited: set<string>, n: string)
    requires Settled(g, visiting, visited) && n in g && n !in visiting && n !in visited
    ensures Settled(g, visiting + {n}, visited) && |g.Keys - (visiting + {n})| < |g.Keys - visiting|
  {
    hide ReachPlus, HasEdge, Closed;
    assert n in g.Keys - visiting;
    SmallerSet(g.Keys - (visiting + {n}), g.Keys - visiting);
  }

  lemma LeaveNode(g: Graph, visiting: set<string>, visited: set<string>, n: string)
    requires Settled(g, visiting + {n}, visited) && n in g && n !in visiting && n !in visited
    requires forall k :: 0 <= k < |g[n]| ==> g[n][k] in visited
    ensures Settled(g, visiting, visited + {n})
  {
    hide ReachPlus, Closed;
    NoCycle(g, visited, n);
  }

  class Visitor {
    const graph: Graph
    var visiting: set<string>
    var visited: set<string>

    ghost predicate Sound()
      reads this
    {
      Settled(graph, visiting, visited)
    }

    constructor (graph: Graph)
      requires Closed(graph)
      ensures this.graph == graph && visiting == {} && visited == {} && Sound()
    {
      this.graph, visiting, visited := graph, {}, {};
    }

    /** Visits what a node derives from; false exactly where a cycle is found. */
    method Visit(n: string) returns (ok: bool)
      requires Sound() && n in graph && forall v :: v in visiting ==> ReachPlus(graph, v, n)
      modifies this
      ensures !ok ==> !Acyclic(graph)
      ensures ok ==> Sound() && visiting == old(visiting) && old(visited) <= visited && n in visited
      decreases |graph.Keys - visiting|
    {
      hide ReachPlus, Settled;
      if n in visiting { return false; }
      if n in visited { return true; }
      EnterNode(graph, visiting, visited, n);
      visiting := visiting + {n};
      var parents := graph[n];
      for i := 0 to |parents|
        invariant Sound() && visiting == old(visiting) + {n} && old(visited) <= visited && n !in visited
        invariant forall k :: 0 <= k < i ==> parents[k] in visited
      {
        ParentReached(graph, visiting, n, i);
        ParentIn(graph, visiting, visited, n, i);
        ok := Visit(parents[i]);
        if !ok { return false; }
        Apart(graph, visiting, visited, n);
      }
      LeaveNode(graph, old(visiting), visited, n);
      visiting := visiting - {n};
      visited := visited + {n};
      return true;
    }
  }

  lemma ParentIn(g: Graph, visiting: set<string>, visited: set<string>, n: string, i: nat)
    requires Settled(g, visiting, visited) && n in g && i < |g[n]|
    ensures g[n][i] in g
  {
    hide ReachPlus;
    assert HasEdge(g, n, g[n][i]);
  }

  lemma Apart(g: Graph, visiting: set<string>, visited: set<string>, n: string)
    requires Settled(g, visiting, visited) && n in visiting
    ensures n !in visited
  {
    hide ReachPlus, HasEdge, Closed;
  }

  lemma SmallerSet(a: set<string>, b: set<string>)
    requires a < b
    ensures |a| < |b|
  {
    assert b == a + (b - a);
  }

  lemma NoCycle(g: Graph, visited: set<string>, n: string)
    requires n !in visited && forall b :: HasEdge(g, n, b) ==> b in visited
    requires forall a, b :: a in visited && HasEdge(g, a, b) ==> b in visited
    ensures !ReachPlus(g, n, n)
  {
    forall b | HasEdge(g, n, b) ensures !Reach(g, b, n) {
      if Reach(g, b, n) { ClosedSetReach(g, visited, b, n); }
    }
  }

  lemma ParentsClosed(nodes: seq<Node>)
    requires ParentsInside(nodes)
    ensures Closed(ParentsOf(nodes))
  {
    hide Named;
    var g := ParentsOf(nodes);
    forall a, b | HasEdge(g, a, b) ensures b in g {
      ParentsOfNamed(nodes, a);
      ParentsOfNamed(nodes, b);
    }
  }

  lemma NamedAt(nodes: seq<Node>, i: nat)
    requires i < |nodes|
    ensures Named(nodes, nodes[i].id)
  {}

  lemma AllVisited(visitor: Visitor)
    requires visitor.Sound() && forall a :: a in visitor.graph ==> a in visitor.visited
    ensures Acyclic(visitor.graph)
  {
    forall a ensures !ReachPlus(visitor.graph, a, a) {
      if a in visitor.graph { assert a in visitor.visited; }
    }
  }

  /** Construction of the nodes and of their graph succeeds exactly for valid graphs. */
  method Construct(nodes: seq<Node>) returns (ok: bool)
    ensures ok <==> Valid(nodes)
  {
    hide Named, UniqueIds, ParentsOf, Acyclic, Settled, ReachPlus, Node.WellFormed;
    if exists n :: n in nodes && !n.WellFormed() { return false; }
    if nodes == [] { return false; }
    var byId := ParentsOf(nodes);
    ParentsOfSize(nodes);
    if |byId| != |nodes| { return false; }
    forall id ensures id in byId <==> Named(nodes, id) { ParentsOfNamed(nodes, id); }
    if exists n, p :: n in nodes && p in n.parents && p !in byId { return false; }
    ParentsClosed(nodes);
    var visitor := new Visitor(byId);
    for i := 0 to |nodes|
      invariant visitor.graph == byId && visitor.Sound() && visitor.visiting == {} && fresh(visitor)
      invariant forall k :: 0 <= k < i ==> nodes[k].id in visitor.visited
    {
      NamedAt(nodes, i);
      ok := visitor.Visit(nodes[i].id);
      if !ok { return false; }
    }
    forall a | a in byId ensures a in visitor.visited {
      ParentsOfNamed(nodes, a);
      var k :| 0 <= k < |nodes| && nodes[k] == Node(a, byId[a]);
    }
    AllVisited(visitor);
    return true;
  }

  // ---- the graphs the controller binds ----

  /** One source node per context item, named by position and the start of its content digest. */
  function ContextNodes(digests: seq<string>): seq<Node> {
    seq(|digests|, i requires 0 <= i < |digests| => Node(ContextId(i, digests[i]), []))
  }

  function ContextId(i: nat, digest: string): string {
    "context:" + Decimal(i) + ":" + Start(digest)
  }

  function Start(digest: string): string {
    if |digest| <= 16 then digest else digest[..16]
  }

  /** The sources of one argument: the context, a declared taint, or the planner itself. */
  function SourceNodes(digests: seq<string>, tainted: bool): seq<Node> {
    var nodes := ContextNodes(digests) + if tainted then [Node("declared-untrusted-input", [])] else [];
    if nodes == [] then [Node("planner-output-root", [])] else nodes
  }

  function IdsOf(nodes: seq<Node>): seq<string> {
    seq(|nodes|, i requires 0 <= i < |nodes| => nodes[i].id)
  }

  lemma NamedIds(nodes: seq<Node>, id: string)
    ensures id in IdsOf(nodes) <==> Named(nodes, id)
    ensures |set x | x in IdsOf(nodes)| == |nodes| <==> UniqueIds(nodes)
  {
    var ids := IdsOf(nodes);
    GraphSchema.DistinctExactly(ids);
    if n :| n in nodes && n.id == id {
      var i :| 0 <= i < |nodes| && nodes[i] == n;
      assert ids[i] == id;
    }
    if UniqueIds(nodes) {
      forall i, j | 0 <= i < j < |ids| ensures ids[i] != ids[j] { assert nodes[i].id != nodes[j].id; }
    }
    if forall i, j :: 0 <= i < j < |ids| ==> ids[i] != ids[j] {
      forall i, j | 0 <= i < j < |nodes| ensures nodes[i].id != nodes[j].id { assert ids[i] != ids[j]; }
    }
  }

  /** A node with a visible name that lists no parent twice. */
  predicate Plain(n: Node) {
    (exists c :: c in n.id && !IsSpace(c)) && |set p | p in n.parents| == |n.parents|
  }

  lemma WellFormedMeans(n: Node)
    ensures n.WellFormed() <==> Plain(n) && n.id !in n.parents
  {
    hide IsSpace;
    GraphSchema.DistinctExactly(n.parents);
  }

  /** A node among its own parents is on a cycle. */
  lemma SelfParentCycles(nodes: seq<Node>, n: Node)
    requires UniqueIds(nodes) && n in nodes && n.id in n.parents
    ensures ReachPlus(ParentsOf(nodes), n.id, n.id)
  {
    hide UniqueIds, ParentsOf, Reach, Named;
    var g := ParentsOf(nodes);
    ParentsOfNamed(nodes, n.id);
    var i :| 0 <= i < |nodes| && nodes[i] == n;
    NamedAt(nodes, i);
    SameNode(nodes, n, Node(n.id, g[n.id]));
    ReachSelf(g, n.id);
    assert HasEdge(g, n.id, n.id);
  }

  lemma SameNode(nodes: seq<Node>, a: Node, b: Node)
    requires UniqueIds(nodes) && a in nodes && b in nodes && a.id == b.id
    ensures a == b
  {
    var i :| 0 <= i < |nodes| && nodes[i] == a;
    var j :| 0 <= j < |nodes| && nodes[j] == b;
  }

  /** A graph as its users need it: some node, as many identities as nodes, each node with a visible
      name and no parent twice, every parent a node, and no way from a node back to itself along parents. */
  ghost predicate Usable(nodes: seq<Node>) {
    && nodes != [] && |set id | id in IdsOf(nodes)| == |nodes|
    && (forall n :: n in nodes ==> Plain(n))
    && (forall n, p :: n in nodes && p in n.parents ==> p in IdsOf(nodes))
    && forall id :: !ReachPlus(ParentsOf(nodes), id, id)
  }

  /** The constructors accept exactly these. */
  lemma ValidMeans(nodes: seq<Node>)
    ensures Valid(nodes) <==> Usable(nodes)
  {
    hide ReachPlus, ParentsOf, IdsOf, UniqueIds, Plain, Node.WellFormed, Named;
    NamedIds(nodes, "");
    forall id ensures id in IdsOf(nodes) <==> Named(nodes, id) { NamedIds(nodes, id); }
    forall n: Node ensures n.WellFormed() <==> Plain(n) && n.id !in n.parents { WellFormedMeans(n); }
    if UniqueIds(nodes) {
      forall n | n in nodes && n.id in n.parents ensures ReachPlus(ParentsOf(nodes), n.id, n.id) { SelfParentCycles(nodes, n); }
    }
  }

  /** The bound graph: the controller's derivation node, below every source.  The source lists the
      parents sorted. */
  function Bound(digests: seq<string>, tainted: bool, value: string): seq<Node> {
    var sources := SourceNodes(digests, tainted);
    sources + [Node("controller-derived:" + Start(value), IdsOf(sources))]
  }

  lemma PrefixUnique(a: string, b: string, x: string, y: string, c: char)
    requires a + [c] + x == b + [c] + y && c !in a && c !in b
    ensures a == b
  {
    var s, t := a + [c] + x, b + [c] + y;
    assert s[|a|] == c && t[|b|] == c;
    assert a == s[..|a|] && b == t[..|b|];
  }

  lemma ContextDistinct(digests: seq<string>, i: nat, j: nat)
    requires i < j < |digests|
    ensures ContextNodes(digests)[i].id != ContextNodes(digests)[j].id
  {
    var a, b := ContextId(i, digests[i]), ContextId(j, digests[j]);
    if a == b {
      ContextTail(i, digests[i]);
      ContextTail(j, digests[j]);
      assert ':' !in Decimal(i) && ':' !in Decimal(j) by { assert ':' !in DIGITS; }
      PrefixUnique(Decimal(i), Decimal(j), Start(digests[i]), Start(digests[j]), ':');
      DecimalInjective(i, j);
    }
  }

  lemma ContextTail(i: nat, digest: string)
    ensures ContextId(i, digest)[8..] == Decimal(i) + [':'] + Start(digest)
  {
    assert ContextId(i, digest) == "context:" + (Decimal(i) + [':'] + Start(digest));
  }

  /** The fifth letter of an identity tells which kind of node it names. */
  lemma Letters(digests: seq<string>, tainted: bool, value: string, i: nat)
    requires i < |Bound(digests, tainted, value)|
    ensures var id := Bound(digests, tainted, value)[i].id;
            && |id| > 4
            && id[4] == (if i < |digests| then 'e'
                         else if i == |Bound(digests, tainted, value)| - 1 then 'r'
                         else if tainted then 'a' else 'n')
            && (|digests| <= i < |Bound(digests, tainted, value)| - 1 ==> i == |digests|)
  {
    hide Decimal, Start;
  }

  lemma BoundUnique(digests: seq<string>, tainted: bool, value: string)
    ensures UniqueIds(Bound(digests, tainted, value))
  {
    hide Decimal, Start;
    var nodes := Bound(digests, tainted, value);
    forall i, j | 0 <= i < j < |nodes| ensures nodes[i].id != nodes[j].id {
      Letters(digests, tainted, value, i);
      Letters(digests, tainted, value, j);
      if j < |digests| { ContextDistinct(digests, i, j); }
    }
  }

  lemma BoundEdges(digests: seq<string>, tainted: bool, value: string, n: Node, p: string)
    requires n in Bound(digests, tainted, value) && p in n.parents
    ensures var nodes := Bound(digests, tainted, value);
            n == nodes[|nodes| - 1] && Named(nodes[..|nodes| - 1], p)
  {
    hide Decimal, Start;
    var nodes, sources := Bound(digests, tainted, value), SourceNodes(digests, tainted);
    var i :| 0 <= i < |nodes| && nodes[i] == n;
    var j :| 0 <= j < |n.parents| && n.parents[j] == p;
    assert nodes[..|nodes| - 1] == sources;
    assert sources[j] in sources;
  }

  /** Only the derivation node has parents, and it is no parent. */
  lemma BoundDown(digests: seq<string>, tainted: bool, value: string, n: Node, p: string)
    requires n in Bound(digests, tainted, value) && p in n.parents
    ensures var nodes := Bound(digests, tainted, value);
            Named(nodes, p) && n.id == nodes[|nodes| - 1].id && p != nodes[|nodes| - 1].id
  {
    hide Bound, Named;
    var nodes := Bound(digests, tainted, value);
    BoundEdges(digests, tainted, value, n, p);
    BoundUnique(digests, tainted, value);
    NamedNext(nodes, p);
    LastUnique(nodes);
  }

  lemma BoundNamed(digests: seq<string>, tainted: bool, value: string, k: nat)
    requires k < |Bound(digests, tainted, value)|
    ensures !Blank(Bound(digests, tainted, value)[k].id)
  {
    hide Bound;
    Letters(digests, tainted, value, k);
    var id := Bound(digests, tainted, value)[k].id;
    assert id[4] in id && !IsSpace(id[4]);
  }

  lemma BoundParents(digests: seq<string>, tainted: bool, value: string, k: nat)
    requires k < |Bound(digests, tainted, value)|
    ensures var parents := Bound(digests, tainted, value)[k].parents;
            parents == [] || parents == IdsOf(SourceNodes(digests, tainted))
    ensures var nodes, sources := Bound(digests, tainted, value), SourceNodes(digests, tainted);
            |sources| < |nodes| && nodes[..|sources|] == sources
  {
    hide Decimal, Start, IdsOf;
  }

  /** Every node of the bound graph passes its own constructor. */
  lemma BoundNodes(digests: seq<string>, tainted: bool, value: string, n: Node)
    requires n in Bound(digests, tainted, value)
    ensures n.WellFormed()
  {
    hide Bound, SourceNodes, IdsOf, Named, Blank, UniqueIds;
    var nodes := Bound(digests, tainted, value);
    var k :| 0 <= k < |nodes| && nodes[k] == n;
    BoundNamed(digests, tainted, value, k);
    BoundParents(digests, tainted, value, k);
    if n.id in n.parents { BoundDown(digests, tainted, value, n, n.id); }
    BoundUnique(digests, tainted, value);
    ParentsDistinct(SourceNodes(digests, tainted), nodes);
  }

  lemma ParentsDistinct(sources: seq<Node>, nodes: seq<Node>)
    requires UniqueIds(nodes) && |sources| < |nodes| && nodes[..|sources|] == sources
    ensures var ids := IdsOf(sources); forall i, j :: 0 <= i < j < |ids| ==> ids[i] != ids[j]
  {
    forall i, j | 0 <= i < j < |sources| ensures sources[i].id != sources[j].id {
      assert nodes[i] == sources[i] && nodes[j] == sources[j];
    }
  }

  /** The controller's own binding always builds a valid graph. */
  lemma BoundValid(digests: seq<string>, tainted: bool, value: string)
    ensures Valid(Bound(digests, tainted, value))
  {
    hide Bound, Named, Node.WellFormed;
    var nodes := Bound(digests, tainted, value);
    BoundUnique(digests, tainted, value);
    BoundNonEmpty(digests, tainted, value);
    forall n | n in nodes ensures n.WellFormed() { BoundNodes(digests, tainted, value, n); }
    forall n, p | n in nodes && p in n.parents ensures Named(nodes, p) {
      BoundDown(digests, tainted, value, n, p);
    }
    BoundAcyclic(digests, tainted, value);
  }

  lemma BoundAcyclic(digests: seq<string>, tainted: bool, value: string)
    ensures Acyclic(ParentsOf(Bound(digests, tainted, value)))
  {
    hide Bound, Named;
    var nodes := Bound(digests, tainted, value);
    BoundNonEmpty(digests, tainted, value);
    var last := nodes[|nodes| - 1].id;
    var g := ParentsOf(nodes);
    forall a, b | HasEdge(g, a, b) ensures a == last && b != last {
      ParentsOfNamed(nodes, a);
      BoundDown(digests, tainted, value, Node(a, g[a]), b);
    }
    RankAcyclic(g, id => if id == last then 1 else 0);
  }

  lemma BoundNonEmpty(digests: seq<string>, tainted: bool, value: string)
    ensures Bound(digests, tainted, value) != []
  {}

  /** What the bound graph records: one source for each context item, in order, under its position and
      the start of its digest; a declared taint if there is one; the planner itself only where there is
      neither; and last the derivation, whose parents are all of them. */
  lemma BoundSources(digests: seq<string>, tainted: bool, value: string)
    ensures var nodes := Bound(digests, tainted, value);
            var n := |nodes| - 1;
            && n == |digests| + (if tainted || digests == [] then 1 else 0)
            && (forall i :: 0 <= i < |digests| ==>
                  nodes[i] == Node("context:" + Decimal(i) + ":" + (if |digests[i]| < 16 then digests[i] else digests[i][..16]), []))
            && (tainted ==> nodes[n - 1] == Node("declared-untrusted-input", []))
            && (digests == [] && !tainted ==> nodes[n - 1] == Node("planner-output-root", []))
            && nodes[n].id == "controller-derived:" + (if |value| < 16 then value else value[..16])
            && |nodes[n].parents| == n && forall i :: 0 <= i < n ==> nodes[n].parents[i] == nodes[i].id
  {
    hide Decimal;
  }
}
