/** Directed graphs over node identities and the paths through them. */
module Paths {

  /** For each node, the targets of its outgoing edges in edge order. */
  type Graph = map<string, seq<string>>

  predicate HasEdge(g: Graph, a: string, b: string) {
    a in g && b in g[a]
  }

  /** Every edge leads to a node of the graph. */
  ghost predicate Closed(g: Graph) {
    forall a, b :: HasEdge(g, a, b) ==> b in g
  }

  ghost predicate IsPath(g: Graph, p: seq<string>) {
    && p != []
    && forall i :: 0 <= i < |p| - 1 ==> HasEdge(g, p[i], p[i + 1])
  }

  ghost predicate PathFromTo(g: Graph, p: seq<string>, a: string, b: string) {
    IsPath(g, p) && p[0] == a && p[|p| - 1] == b
  }

  /** b is a, or a non-empty sequence of edges leads from a to b. */
  ghost predicate Reach(g: Graph, a: string, b: string) {
    exists p :: PathFromTo(g, p, a, b)
  }

  /** Some edge out of a starts a path to b. */
  ghost predicate ReachPlus(g: Graph, a: string, b: string) {
    exists c :: HasEdge(g, a, c) && Reach(g, c, b)
  }

  ghost predicate Acyclic(g: Graph) {
    forall a :: !ReachPlus(g, a, a)
  }

  /** A path from a to b none of whose nodes is excluded. */
  ghost predicate ReachAvoiding(g: Graph, a: string, b: string, excluded: set<string>) {
    exists p :: PathFromTo(g, p, a, b) && forall n :: n in p ==> n !in excluded
  }

  lemma ReachSelf(g: Graph, a: string)
    ensures Reach(g, a, a)
  {
    assert PathFromTo(g, [a], a, a);
  }

  lemma ReachEdge(g: Graph, a: string, b: string)
    requires HasEdge(g, a, b)
    ensures Reach(g, a, b)
  {
    assert PathFromTo(g, [a, b], a, b);
  }

  lemma ReachTrans(g: Graph, a: string, b: string, c: string)
    requires Reach(g, a, b) && Reach(g, b, c)
    ensures Reach(g, a, c)
  {
    var p :| PathFromTo(g, p, a, b);
    var q :| PathFromTo(g, q, b, c);
    var r := p + q[1..];
    forall i | 0 <= i < |r| - 1 ensures HasEdge(g, r[i], r[i + 1]) {
      if i < |p| - 1 {
        assert HasEdge(g, p[i], p[i + 1]);
      } else {
        assert HasEdge(g, q[i - |p| + 1], q[i - |p| + 2]);
      }
    }
    assert PathFromTo(g, r, a, c);
  }

  lemma ReachStep(g: Graph, a: string, b: string, c: string)
    requires Reach(g, a, b) && HasEdge(g, b, c)
    ensures Reach(g, a, c)
  {
    ReachEdge(g, b, c);
    ReachTrans(g, a, b, c);
  }

  lemma ReachCases(g: Graph, a: string, b: string)
    requires Reach(g, a, b)
    ensures a == b || ReachPlus(g, a, b)
  {
    var p :| PathFromTo(g, p, a, b);
    if |p| > 1 {
      assert HasEdge(g, p[0], p[1]);
      forall i | 0 <= i < |p| - 2 ensures HasEdge(g, p[1..][i], p[1..][i + 1]) {
        assert HasEdge(g, p[i + 1], p[i + 2]);
      }
      assert PathFromTo(g, p[1..], p[1], b);
    }
  }

  /** A set left only through excluded nodes holds all of a path that avoids them. */
  lemma {:induction false} ClosedSet(g: Graph, s: set<string>, excluded: set<string>, p: seq<string>)
    requires IsPath(g, p) && p[0] in s && forall n :: n in p ==> n !in excluded
    requires forall a, b :: a in s && HasEdge(g, a, b) ==> b in s || b in excluded
    ensures forall n :: n in p ==> n in s
    decreases |p|
  {
    if |p| > 1 {
      assert HasEdge(g, p[0], p[1]);
      forall i | 0 <= i < |p| - 2 ensures HasEdge(g, p[1..][i], p[1..][i + 1]) {
        assert HasEdge(g, p[i + 1], p[i + 2]);
      }
      ClosedSet(g, s, excluded, p[1..]);
    }
  }

  lemma ClosedSetReach(g: Graph, s: set<string>, a: string, b: string)
    requires Reach(g, a, b) && a in s
    requires forall x, y :: x in s && HasEdge(g, x, y) ==> y in s
    ensures b in s
  {
    var p :| PathFromTo(g, p, a, b);
    ClosedSet(g, s, {}, p);
    assert p[|p| - 1] in p;
  }

  /** A graph whose edges all lower a rank has no cycle. */
  lemma RankAcyclic(g: Graph, rank: string -> nat)
    requires forall a, b :: HasEdge(g, a, b) ==> rank(a) > rank(b)
    ensures Acyclic(g)
  {
    forall a ensures !ReachPlus(g, a, a) {
      if ReachPlus(g, a, a) {
        var c :| HasEdge(g, a, c) && Reach(g, c, a);
        RankFalls(g, rank, c, a);
        assert false;
      }
    }
  }

  lemma RankFalls(g: Graph, rank: string -> nat, a: string, b: string)
    requires forall x, y :: HasEdge(g, x, y) ==> rank(x) > rank(y)
    requires Reach(g, a, b)
    ensures rank(a) >= rank(b)
  {
    var p :| PathFromTo(g, p, a, b);
    var i := 0;
    while i < |p| - 1
      invariant 0 <= i < |p| && rank(a) >= rank(p[i])
    {
      assert HasEdge(g, p[i], p[i + 1]);
      i := i + 1;
    }
  }
}
