/** The depth-first search that returns the strongly connected components forming a cycle. */
module Tarjan {
  import opened Paths

  /** A set of mutually reachable nodes to which no further node can be added. */
  ghost predicate IsComponent(g: Graph, c: set<string>) {
    && c != {} && c <= g.Keys
    && (forall a, b :: a in c && b in c ==> Reach(g, a, b))
    && (forall a, b :: a in c && b in g && Reach(g, a, b) && Reach(g, b, a) ==> b in c)
  }

  ghost predicate IsCyclicComponent(g: Graph, c: set<string>) {
    IsComponent(g, c) && exists a :: a in c && ReachPlus(g, a, a)
  }

  /** What the search has recorded so far. */
  datatype Record = Record(index: nat, stack: seq<string>, indices: map<string, nat>, components: seq<set<string>>) {
    ghost function Done(): set<string> {
      set n | n in indices && n !in stack
    }
  }

  /** Nodes are numbered in the order of discovery, and the stack keeps that order. */
  ghost predicate Numbered(g: Graph, r: Record) {
    && r.indices.Keys <= g.Keys
    && (forall n :: n in r.indices ==> r.indices[n] < r.index)
    && (forall n :: n in r.stack ==> n in r.indices)
    && (forall i, j {:trigger r.indices[r.stack[i]], r.indices[r.stack[j]]} :: 0 <= i < j < |r.stack| ==> r.indices[r.stack[i]] < r.indices[r.stack[j]])
  }

  /** Edges of a finished visit lead to discovered nodes, edges of popped nodes to popped ones. */
  ghost predicate Explored(g: Graph, r: Record, open: set<string>) {
    && (forall a, b :: a in r.indices && a !in open && HasEdge(g, a, b) ==> b in r.indices)
    && (forall a, b :: a in r.Done() && HasEdge(g, a, b) ==> b in r.Done())
  }

  /** A node of an unfinished visit, no younger than n, that n reaches. */
  ghost predicate Anchored(g: Graph, r: Record, open: set<string>, n: string)
    requires n in r.indices && open <= r.indices.Keys
  {
    exists o :: o in open && r.indices[o] <= r.indices[n] && Reach(g, n, o)
  }

  ghost predicate Connected(g: Graph, r: Record, open: set<string>)
    requires Numbered(g, r)
  {
    && (forall o :: o in open ==> o in r.stack)
    && (forall i, j {:trigger Reach(g, r.stack[i], r.stack[j])} :: 0 <= i <= j < |r.stack| ==> Reach(g, r.stack[i], r.stack[j]))
    && (forall n {:trigger Anchored(g, r, open, n)} :: n in r.stack ==> Anchored(g, r, open, n))
  }

  ghost predicate InSome(components: seq<set<string>>, n: string) {
    exists c :: c in components && n in c
  }

  /** The components recorded so far are those of the popped nodes. */
  ghost predicate Recorded(g: Graph, r: Record) {
    && (forall c :: c in r.components ==> IsCyclicComponent(g, c) && c <= r.Done())
    && (forall n {:trigger InSome(r.components, n)} ::
          n in r.Done() && ReachPlus(g, n, n) ==> InSome(r.components, n))
    && (forall i, j :: 0 <= i < j < |r.components| ==> r.components[i] !! r.components[j])
  }

  ghost predicate Consistent(g: Graph, r: Record, open: set<string>) {
    Numbered(g, r) && Explored(g, r, open) && Connected(g, r, open) && Recorded(g, r)
  }

  /** Later records keep the numbers and the stack below, and only add popped nodes. */
  ghost predicate Grows(r: Record, s: Record) {
    && r.index <= s.index
    && (forall n :: n in r.indices ==> n in s.indices && s.indices[n] == r.indices[n])
    && (forall n :: n in s.indices && n !in r.indices ==> s.indices[n] >= r.index)
    && r.stack <= s.stack
  }

  /** Every edge from the part of the stack above height h into the part below it is accounted for by low. */
  ghost predicate LowBounds(g: Graph, r: Record, h: nat, low: nat)
    requires h <= |r.stack| && forall n :: n in r.stack ==> n in r.indices
  {
    forall i, j :: h <= i < |r.stack| && 0 <= j < h && HasEdge(g, r.stack[i], r.stack[j]) ==> low <= r.indices[r.stack[j]]
  }

  function Push(r: Record, n: string): Record {
    r.(index := r.index + 1, stack := r.stack + [n], indices := r.indices[n := r.index])
  }

  lemma PushDone(r: Record, n: string)
    requires n !in r.indices && forall m :: m in r.stack ==> m in r.indices
    ensures Push(r, n).Done() == r.Done()
  {}

  lemma PushConnected(g: Graph, r: Record, open: set<string>, n: string)
    requires Numbered(g, r) && Connected(g, r, open) && n in g && n !in r.indices
    requires forall o :: o in open ==> Reach(g, o, n)
    ensures Numbered(g, Push(r, n)) && Connected(g, Push(r, n), open + {n})
  {
    hide Reach;
    var s := Push(r, n);
    ReachSelf(g, n);
    forall m | m in s.stack ensures Anchored(g, s, open + {n}, m) && Reach(g, m, n) {
      if m == n {
        assert n in open + {n} && s.indices[n] <= s.indices[n];
      } else {
        assert Anchored(g, r, open, m);
        var o :| o in open && r.indices[o] <= r.indices[m] && Reach(g, m, o);
        assert s.indices[o] <= s.indices[m];
        ReachTrans(g, m, o, n);
      }
    }
    forall i, j | 0 <= i <= j < |s.stack| ensures Reach(g, s.stack[i], s.stack[j]) {
      if j < |r.stack| { assert Reach(g, r.stack[i], r.stack[j]); }
    }
  }

  lemma PushConsistent(g: Graph, r: Record, open: set<string>, n: string)
    requires Consistent(g, r, open) && n in g && n !in r.indices
    requires forall o :: o in open ==> Reach(g, o, n)
    ensures Consistent(g, Push(r, n), open + {n})
    ensures Grows(r, Push(r, n))
  {
    hide Connected, IsCyclicComponent, ReachPlus, InSome;
    PushDone(r, n);
    PushConnected(g, r, open, n);
  }

  /** What holds when the edges of x have all been followed, x being the node at height h of the stack. */
  ghost predicate EdgesFollowed(g: Graph, r: Record, open: set<string>, x: string, h: nat) {
    && Consistent(g, r, open + {x})
    && x !in open && h < |r.stack| && r.stack[h] == x
    && (forall b :: HasEdge(g, x, b) ==> b in r.indices)
    && (forall o :: o in open ==> o in r.stack[..h] && Reach(g, o, x))
  }

  /** The finished node can reach back below itself, so every node above it is anchored below it. */
  lemma AnchorBelow(g: Graph, r: Record, open: set<string>, x: string, h: nat, y: string, n: string)
    requires EdgesFollowed(g, r, open, x, h)
    requires y in r.stack && r.indices[y] < r.indices[x] && Reach(g, x, y)
    requires n in r.stack
    ensures Anchored(g, r, open, n)
  {
    hide Reach, Recorded, Explored;
    assert Anchored(g, r, open + {x}, n);
    var o :| o in open + {x} && r.indices[o] <= r.indices[n] && Reach(g, n, o);
    if o == x {
      assert Anchored(g, r, open + {x}, y);
      var w :| w in open + {x} && r.indices[w] <= r.indices[y] && Reach(g, y, w);
      ReachTrans(g, x, y, w);
      ReachTrans(g, n, x, w);
    }
  }

  lemma KeepConsistent(g: Graph, r: Record, open: set<string>, x: string, h: nat, y: string)
    requires EdgesFollowed(g, r, open, x, h)
    requires y in r.stack && r.indices[y] < r.indices[x] && Reach(g, x, y)
    ensures Consistent(g, r, open)
  {
    hide Reach, Recorded;
    assert Explored(g, r, open);
    assert Connected(g, r, open) by {
      forall n {:trigger Anchored(g, r, open, n)} | n in r.stack ensures Anchored(g, r, open, n) {
        AnchorBelow(g, r, open, x, h, y, n);
      }
    }
  }

  ghost function Above(r: Record, h: nat): set<string>
    requires h <= |r.stack|
  {
    set n | n in r.stack[h..]
  }

  lemma StackDistinct(g: Graph, r: Record, i: nat, j: nat)
    requires Numbered(g, r) && i < j < |r.stack|
    ensures r.stack[i] != r.stack[j]
  {
    assert r.indices[r.stack[i]] < r.indices[r.stack[j]];
  }

  lemma PopDone(g: Graph, r: Record, h: nat)
    requires Numbered(g, r) && h <= |r.stack|
    ensures r.(stack := r.stack[..h]).Done() == r.Done() + Above(r, h)
    ensures Above(r, h) !! r.Done()
    ensures forall n :: n in Above(r, h) ==> n in r.stack && n !in r.stack[..h]
  {
    forall n | n in r.stack[h..] ensures n in r.stack && n !in r.stack[..h] {
      var i :| h <= i < |r.stack| && r.stack[i] == n;
      forall j | 0 <= j < h ensures r.stack[j] != n { StackDistinct(g, r, j, i); }
    }
    assert r.stack == r.stack[..h] + r.stack[h..];
  }

  /** No edge leaves the popped nodes together with those popped before. */
  lemma PoppedClosed(g: Graph, r: Record, open: set<string>, x: string, h: nat)
    requires EdgesFollowed(g, r, open, x, h) && LowBounds(g, r, h, r.indices[x])
    ensures forall a, b :: a in r.Done() + Above(r, h) && HasEdge(g, a, b) ==> b in r.Done() + Above(r, h)
  {
    hide Reach, Recorded, Connected;
    PopDone(g, r, h);
    forall a, b | a in Above(r, h) && HasEdge(g, a, b) ensures b in r.Done() + Above(r, h) {
      assert b in r.indices;
      if b in r.stack {
        var i :| h <= i < |r.stack| && r.stack[i] == a;
        var j :| 0 <= j < |r.stack| && r.stack[j] == b;
        assert j >= h;
        assert r.stack[h..][j - h] == b;
      }
    }
  }

  lemma PoppedMutual(g: Graph, r: Record, open: set<string>, x: string, h: nat, a: string)
    requires EdgesFollowed(g, r, open, x, h) && a in Above(r, h)
    ensures Reach(g, x, a) && Reach(g, a, x)
  {
    hide Reach, Recorded, Explored;
    var i :| h <= i < |r.stack| && r.stack[i] == a;
    assert Reach(g, r.stack[h], r.stack[i]);
    assert Anchored(g, r, open + {x}, a);
    var o :| o in open + {x} && r.indices[o] <= r.indices[a] && Reach(g, a, o);
    ReachSelf(g, x);
    ReachTrans(g, a, o, x);
  }

  lemma PoppedMaximal(g: Graph, r: Record, open: set<string>, x: string, h: nat, a: string, b: string)
    requires EdgesFollowed(g, r, open, x, h) && LowBounds(g, r, h, r.indices[x])
    requires a in Above(r, h) && Reach(g, a, b) && Reach(g, b, a)
    ensures b in Above(r, h)
  {
    PoppedClosed(g, r, open, x, h);
    PopDone(g, r, h);
    ClosedSetReach(g, r.Done() + Above(r, h), a, b);
    if b in r.Done() {
      ClosedSetReach(g, r.Done(), b, a);
    }
  }

  lemma PoppedIsComponent(g: Graph, r: Record, open: set<string>, x: string, h: nat)
    requires EdgesFollowed(g, r, open, x, h) && LowBounds(g, r, h, r.indices[x])
    ensures IsComponent(g, Above(r, h)) && x in Above(r, h)
  {
    var c := Above(r, h);
    assert r.stack[h..][0] == x;
    forall n | n in c ensures n in g { assert n in r.stack; }
    forall a, b | a in c && b in c ensures Reach(g, a, b) {
      PoppedMutual(g, r, open, x, h, a);
      PoppedMutual(g, r, open, x, h, b);
      ReachTrans(g, a, x, b);
    }
    forall a, b | a in c && b in g && Reach(g, a, b) && Reach(g, b, a) ensures b in c {
      PoppedMaximal(g, r, open, x, h, a, b);
    }
  }

  /** The popped component contains a cycle iff it has two nodes or its root an edge to itself. */
  lemma PoppedCyclic(g: Graph, r: Record, open: set<string>, x: string, h: nat)
    requires EdgesFollowed(g, r, open, x, h) && LowBounds(g, r, h, r.indices[x]) && Closed(g)
    ensures forall a :: a in Above(r, h) && ReachPlus(g, a, a) ==> Above(r, h) != {x} || x in g[x]
    ensures Above(r, h) != {x} || x in g[x] ==> IsCyclicComponent(g, Above(r, h))
  {
    var c := Above(r, h);
    PoppedIsComponent(g, r, open, x, h);
    forall a | a in c && ReachPlus(g, a, a) ensures c != {x} || x in g[x] {
      if c == {x} {
        var b :| HasEdge(g, x, b) && Reach(g, b, x);
        ReachEdge(g, x, b);
      }
    }
    if c != {x} {
      var b :| b in c && b != x;
      ReachCases(g, x, b);
      var d :| HasEdge(g, x, d) && Reach(g, d, b);
      ReachTrans(g, d, b, x);
      assert ReachPlus(g, x, x);
    } else if x in g[x] {
      assert HasEdge(g, x, x);
      ReachSelf(g, x);
      assert ReachPlus(g, x, x);
    }
  }

  function Pop(g: Graph, r: Record, x: string, h: nat, c: set<string>): Record
    requires h <= |r.stack| && x in g
  {
    r.(stack := r.stack[..h],
       components := if |c| > 1 || x in g[x] then r.components + [c] else r.components)
  }

  lemma LargerThanOne(c: set<string>, x: string)
    requires x in c
    ensures |c| > 1 <==> c != {x}
  {
    assert c == {x} + (c - {x});
  }

  lemma AnchorsRemain(g: Graph, r: Record, open: set<string>, x: string, h: nat, n: string)
    requires EdgesFollowed(g, r, open, x, h) && n in r.stack[..h]
    ensures Anchored(g, r, open, n)
  {
    hide Reach, Recorded, Explored;
    assert Anchored(g, r, open + {x}, n);
    var o :| o in open + {x} && r.indices[o] <= r.indices[n] && Reach(g, n, o);
    var i :| 0 <= i < h && r.stack[i] == n;
    assert r.indices[r.stack[i]] < r.indices[r.stack[h]];
  }

  lemma RecordMore(g: Graph, r: Record, s: Record, c: set<string>, cyclic: bool)
    requires Recorded(g, r) && s.Done() == r.Done() + c && c !! r.Done()
    requires s.components == if cyclic then r.components + [c] else r.components
    requires cyclic ==> IsCyclicComponent(g, c)
    requires !cyclic ==> forall n :: n in c ==> !ReachPlus(g, n, n)
    ensures Recorded(g, s)
  {
    hide IsCyclicComponent, ReachPlus;
    forall d | d in s.components ensures IsCyclicComponent(g, d) && d <= s.Done() {
      assert d in r.components || d == c;
    }
    forall n | n in s.Done() && ReachPlus(g, n, n) ensures InSome(s.components, n) {
      if n in c {
        assert c in s.components;
      } else {
        assert InSome(r.components, n);
        var d :| d in r.components && n in d;
        assert d in s.components;
      }
    }
    forall i, j | 0 <= i < j < |s.components| ensures s.components[i] !! s.components[j] {
      if j == |r.components| {
        assert s.components[i] in r.components;
      }
    }
  }

  lemma PopRecorded(g: Graph, r: Record, open: set<string>, x: string, h: nat)
    requires EdgesFollowed(g, r, open, x, h) && LowBounds(g, r, h, r.indices[x]) && Closed(g)
    ensures Recorded(g, Pop(g, r, x, h, Above(r, h)))
  {
    var c := Above(r, h);
    PopDone(g, r, h);
    PoppedIsComponent(g, r, open, x, h);
    PoppedCyclic(g, r, open, x, h);
    LargerThanOne(c, x);
    assert Pop(g, r, x, h, c).Done() == r.(stack := r.stack[..h]).Done();
    RecordMore(g, r, Pop(g, r, x, h, c), c, |c| > 1 || x in g[x]);
  }

  lemma PopConnected(g: Graph, r: Record, s: Record, open: set<string>, x: string, h: nat)
    requires EdgesFollowed(g, r, open, x, h)
    requires s.index == r.index && s.indices == r.indices && s.stack == r.stack[..h]
    ensures Numbered(g, s) && Connected(g, s, open)
  {
    hide Reach, Explored, Recorded;
    assert Numbered(g, s);
    forall n {:trigger Anchored(g, s, open, n)} | n in s.stack ensures Anchored(g, s, open, n) {
      AnchorsRemain(g, r, open, x, h, n);
    }
    forall i, j {:trigger Reach(g, s.stack[i], s.stack[j])} | 0 <= i <= j < h ensures Reach(g, s.stack[i], s.stack[j]) {
      assert Reach(g, r.stack[i], r.stack[j]);
    }
  }

  lemma PopExplored(g: Graph, r: Record, s: Record, open: set<string>, x: string, h: nat)
    requires EdgesFollowed(g, r, open, x, h) && LowBounds(g, r, h, r.indices[x])
    requires s.indices == r.indices && s.stack == r.stack[..h]
    ensures Explored(g, s, open)
  {
    hide Reach, Connected, Recorded;
    PopDone(g, r, h);
    PoppedClosed(g, r, open, x, h);
    assert s.Done() == r.(stack := r.stack[..h]).Done();
  }

  /** The finished node starts its component, which is popped and recorded if it forms a cycle. */
  lemma PopConsistent(g: Graph, r: Record, open: set<string>, x: string, h: nat)
    requires EdgesFollowed(g, r, open, x, h) && LowBounds(g, r, h, r.indices[x]) && Closed(g)
    ensures Consistent(g, Pop(g, r, x, h, Above(r, h)), open)
  {
    hide LowBounds, Closed, Explored, Connected, Recorded;
    var s := Pop(g, r, x, h, Above(r, h));
    PopExplored(g, r, s, open, x, h);
    PopConnected(g, r, s, open, x, h);
    PopRecorded(g, r, open, x, h);
  }

  /** What one visit of x promises: r before, s after, low the lowlink it leaves for x. */
  ghost predicate Visited(g: Graph, r: Record, s: Record, x: string, low: nat)
    requires forall n :: n in s.stack ==> n in s.indices
  {
    && Grows(r, s) && x in s.indices && s.indices[x] == r.index
    && (|s.stack| > |r.stack| ==> s.stack[|r.stack|] == x && low < s.indices[x] && LowWitness(g, s, x, low))
    && (|s.stack| == |r.stack| ==> low == s.indices[x])
    && LowBounds(g, s, |r.stack|, low)
  }

  /** Some node of the stack has number low and is reachable from x. */
  ghost predicate LowWitness(g: Graph, r: Record, x: string, low: nat)
    requires forall n :: n in r.stack ==> n in r.indices
  {
    exists y :: y in r.stack && r.indices[y] == low && Reach(g, x, y)
  }

  /** The state of a visit of x that has followed its first k edges; r is the record before the visit. */
  ghost predicate Following(g: Graph, r: Record, s: Record, open: set<string>, x: string, k: nat, low: nat)
    requires x in g && k <= |g[x]|
  {
    && Consistent(g, s, open + {x})
    && Grows(Push(r, x), s)
    && low <= s.indices[x] && LowWitness(g, s, x, low)
    && (forall i :: 0 <= i < k ==> g[x][i] in s.indices && (g[x][i] in r.stack ==> low <= s.indices[g[x][i]]))
    && LowBoundsAbove(g, s, |r.stack|, low)
  }

  /** Edges from strictly above height h to strictly below it are accounted for by low. */
  ghost predicate LowBoundsAbove(g: Graph, r: Record, h: nat, low: nat)
    requires h <= |r.stack| && forall n :: n in r.stack ==> n in r.indices
  {
    forall i, j :: h < i < |r.stack| && 0 <= j < h && HasEdge(g, r.stack[i], r.stack[j]) ==> low <= r.indices[r.stack[j]]
  }

  lemma StartFollowing(g: Graph, r: Record, open: set<string>, x: string)
    requires Consistent(g, r, open) && x in g && x !in r.indices
    requires forall o :: o in open ==> Reach(g, o, x)
    ensures Following(g, r, Push(r, x), open, x, 0, r.index)
  {
    PushConsistent(g, r, open, x);
    ReachSelf(g, x);
    assert x in Push(r, x).stack;
  }

  lemma GrowsTransitive(r: Record, s: Record, t: Record)
    requires Grows(r, s) && Grows(s, t)
    ensures Grows(r, t)
  {}

  /** Following an edge to a node already on the stack. */
  lemma FollowBack(g: Graph, r: Record, s: Record, open: set<string>, x: string, k: nat, low: nat)
    requires x in g && k < |g[x]| && Following(g, r, s, open, x, k, low)
    requires g[x][k] in s.stack
    ensures Following(g, r, s, open, x, k + 1, Min(low, s.indices[g[x][k]]))
  {
    hide Reach, IsCyclicComponent, InSome;
    var t := g[x][k];
    assert HasEdge(g, x, t);
    ReachEdge(g, x, t);
    assert LowWitness(g, s, x, s.indices[t]);
  }

  /** Following an edge to a node whose component was popped. */
  lemma FollowDone(g: Graph, r: Record, s: Record, open: set<string>, x: string, k: nat, low: nat)
    requires x in g && k < |g[x]| && Following(g, r, s, open, x, k, low)
    requires g[x][k] in s.indices && g[x][k] !in s.stack
    ensures Following(g, r, s, open, x, k + 1, low)
  {
    hide Reach, IsCyclicComponent, InSome;
    assert forall n :: n in r.stack ==> n in s.stack by {
      forall n | n in r.stack ensures n in s.stack {
        assert n in Push(r, x).stack;
      }
    }
  }

  function Min(a: nat, b: nat): nat { if a <= b then a else b }

  lemma ChildLowBounds(g: Graph, r: Record, s: Record, s': Record, x: string, low: nat, child: nat)
    requires Numbered(g, s) && Numbered(g, s') && Grows(Push(r, x), s) && Grows(s, s')
    requires LowBoundsAbove(g, s, |r.stack|, low) && LowBounds(g, s', |s.stack|, child)
    ensures LowBoundsAbove(g, s', |r.stack|, Min(low, child))
  {
    forall i, j | |r.stack| < i < |s'.stack| && 0 <= j < |r.stack| && HasEdge(g, s'.stack[i], s'.stack[j])
      ensures Min(low, child) <= s'.indices[s'.stack[j]]
    {
      assert s.stack[j] == s'.stack[j];
      if i < |s.stack| {
        assert s.stack[i] == s'.stack[i];
      }
    }
  }

  lemma ChildWitness(g: Graph, s: Record, s': Record, x: string, t: string, low: nat, child: nat)
    requires Numbered(g, s) && Numbered(g, s') && HasEdge(g, x, t) && Visited(g, s, s', t, child)
    requires LowWitness(g, s, x, low) && low < s.index
    ensures LowWitness(g, s', x, Min(low, child))
  {
    hide Reach, IsCyclicComponent, InSome;
    if child < low {
      assert LowWitness(g, s', t, child);
      var y :| y in s'.stack && s'.indices[y] == child && Reach(g, t, y);
      ReachEdge(g, x, t);
      ReachTrans(g, x, t, y);
    } else {
      var y :| y in s.stack && s.indices[y] == low && Reach(g, x, y);
      assert y in s'.stack;
    }
  }

  /** Following an edge to an undiscovered node, by visiting it. */
  lemma FollowChild(g: Graph, r: Record, s: Record, s': Record, open: set<string>, x: string, k: nat, low: nat,
                    child: nat)
    requires x in g && k < |g[x]| && Following(g, r, s, open, x, k, low)
    requires Consistent(g, s', open + {x}) && Visited(g, s, s', g[x][k], child)
    requires g[x][k] !in s.indices && forall n :: n in r.stack ==> n in r.indices
    ensures Following(g, r, s', open, x, k + 1, Min(low, child))
  {
    hide Reach, Explored, Connected, Recorded, LowBounds, LowBoundsAbove, LowWitness;
    var t := g[x][k];
    var next := Min(low, child);
    GrowsTransitive(Push(r, x), s, s');
    assert HasEdge(g, x, t);
    ReachEdge(g, x, t);
    ChildWitness(g, s, s', x, t, low, child);
    ChildLowBounds(g, r, s, s', x, low, child);
    assert forall n :: n in r.indices ==> n in Push(r, x).indices && n in s.indices;
    assert t !in r.stack;
  }

  /** What remains to be done once every edge of x has been followed. */
  lemma Followed(g: Graph, r: Record, s: Record, open: set<string>, x: string, low: nat)
    requires x in g && x !in r.indices && Consistent(g, r, open)
    requires Following(g, r, s, open, x, |g[x]|, low)
    requires forall o :: o in open ==> Reach(g, o, x)
    ensures s.stack[..|r.stack|] == r.stack
    ensures EdgesFollowed(g, s, open, x, |r.stack|)
    ensures LowBounds(g, s, |r.stack|, low)
    ensures s.indices[x] == r.index
  {
    hide Reach, Explored, Recorded;
    var h := |r.stack|;
    assert Push(r, x).stack[h] == x && x in Push(r, x).indices;
    assert s.stack[h] == x && s.stack[..h] == r.stack;
    assert x !in open by { assert forall o :: o in open ==> o in r.stack && o in r.indices; }
    forall b | HasEdge(g, x, b) ensures b in s.indices {
      var i :| 0 <= i < |g[x]| && g[x][i] == b;
    }
    forall i, j | h <= i < |s.stack| && 0 <= j < h && HasEdge(g, s.stack[i], s.stack[j])
      ensures low <= s.indices[s.stack[j]]
    {
      if i == h {
        var e :| 0 <= e < |g[x]| && g[x][e] == s.stack[j];
        assert s.stack[j] == r.stack[j];
      }
    }
  }

  /** Ending a visit by popping the component that starts with x. */
  lemma FinishPop(g: Graph, r: Record, s: Record, open: set<string>, x: string, low: nat)
    requires x in g && x !in r.indices && Consistent(g, r, open) && Closed(g)
    requires Following(g, r, s, open, x, |g[x]|, low) && low == s.indices[x]
    requires forall o :: o in open ==> Reach(g, o, x)
    ensures |r.stack| < |s.stack| && s.stack[|r.stack|] == x && s.stack[..|r.stack|] == r.stack && Numbered(g, s)
    ensures var t := Pop(g, s, x, |r.stack|, Above(s, |r.stack|));
            Consistent(g, t, open) && Visited(g, r, t, x, low)
  {
    hide Reach, Explored, Connected, Recorded;
    Followed(g, r, s, open, x, low);
    PopConsistent(g, s, open, x, |r.stack|);
  }

  /** Ending a visit with x still on the stack. */
  lemma FinishKeep(g: Graph, r: Record, s: Record, open: set<string>, x: string, low: nat)
    requires x in g && x !in r.indices && Consistent(g, r, open)
    requires Following(g, r, s, open, x, |g[x]|, low) && low != s.indices[x]
    requires forall o :: o in open ==> Reach(g, o, x)
    ensures Consistent(g, s, open) && Visited(g, r, s, x, low)
  {
    hide Reach, Explored, Connected, Recorded;
    Followed(g, r, s, open, x, low);
    var y :| y in s.stack && s.indices[y] == low && Reach(g, x, y);
    KeepConsistent(g, s, open, x, |r.stack|, y);
  }

  lemma OpenReaches(g: Graph, open: set<string>, x: string, target: string)
    requires HasEdge(g, x, target) && forall o :: o in open ==> Reach(g, o, x)
    ensures forall o :: o in open + {x} ==> Reach(g, o, target)
  {
    ReachEdge(g, x, target);
    forall o | o in open ensures Reach(g, o, target) {
      ReachTrans(g, o, x, target);
    }
  }

  /** The search itself, with the variables its recursive visits share. */
  class ComponentSearch {
    const g: Graph
    var index: nat
    var stack: seq<string>
    var indices: map<string, nat>
    var lowlinks: map<string, nat>
    var onStack: set<string>
    var components: seq<set<string>>

    constructor (g: Graph)
      ensures this.g == g && Valid() && Now() == Record(0, [], map[], [])
    {
      this.g := g;
      index, stack, indices, lowlinks, onStack, components := 0, [], map[], map[], {}, [];
    }

    ghost function Now(): Record
      reads this
    {
      Record(index, stack, indices, components)
    }

    ghost predicate Valid()
      reads this
    {
      && onStack == (set n | n in stack)
      && lowlinks.Keys == indices.Keys
    }

    /** Pops the stack down to and including x, which is at height h. */
    method PopThrough(x: string, ghost h: nat) returns (component: set<string>)
      requires Valid() && Numbered(g, Now()) && h < |stack| && stack[h] == x
      modifies this`stack, this`onStack
      ensures Valid() && stack == old(stack)[..h]
      ensures component == Above(old(Now()), h)
    {
      hide Reach, IsCyclicComponent, InSome;
      ghost var r := Now();
      forall i, j | 0 <= i < j < |r.stack| ensures r.stack[i] != r.stack[j] { StackDistinct(g, r, i, j); }
      component := {};
      while true
        invariant h < |stack| <= |r.stack| && stack == r.stack[..|stack|]
        invariant component == Above(r, |stack|)
        invariant Valid()
        decreases |stack|
      {
        var target := stack[|stack| - 1];
        assert r.stack[|stack| - 1..] == [target] + r.stack[|stack|..];
        stack, onStack, component := stack[..|stack| - 1], onStack - {target}, component + {target};
        if target == x { break; }
      }
    }

    method Visit(x: string, ghost open: set<string>)
      requires Valid() && Closed(g) && Consistent(g, Now(), open)
      requires x in g && x !in indices && forall o :: o in open ==> Reach(g, o, x)
      modifies this
      ensures Valid() && Consistent(g, Now(), open)
      ensures x in indices && Visited(g, old(Now()), Now(), x, lowlinks[x])
      ensures forall n :: n in old(lowlinks) ==> n in lowlinks && lowlinks[n] == old(lowlinks[n])
      decreases g.Keys - indices.Keys, 0
    {
      hide Reach, Closed, Explored, Connected, Recorded, Following, Visited;
      ghost var r := Now();
      StartFollowing(g, r, open, x);
      indices, lowlinks := indices[x := index], lowlinks[x := index];
      index := index + 1;
      stack, onStack := stack + [x], onStack + {x};
      assert Now() == Push(r, x);
      var k := 0;
      while k < |g[x]|
        invariant 0 <= k <= |g[x]| && Valid() && x in lowlinks
        invariant Following(g, r, Now(), open, x, k, lowlinks[x])
        invariant r.indices.Keys + {x} <= indices.Keys
        invariant forall n :: n in old(lowlinks) ==> n in lowlinks && lowlinks[n] == old(lowlinks[n])
      {
        Follow(x, k, r, open);
        k := k + 1;
      }
      Leave(x, r, open);
    }

    /** Ends a visit: pops the component that starts with x, or leaves x on the stack. */
    method Leave(x: string, ghost r: Record, ghost open: set<string>)
      requires Valid() && Closed(g) && x in g && x !in r.indices && Consistent(g, r, open) && x in lowlinks
      requires Following(g, r, Now(), open, x, |g[x]|, lowlinks[x])
      requires forall o :: o in open ==> Reach(g, o, x)
      modifies this`stack, this`onStack, this`components
      ensures Valid() && Consistent(g, Now(), open) && Visited(g, r, Now(), x, lowlinks[x])
    {
      hide Reach, Closed, Explored, Connected, Recorded, Following, Visited;
      ghost var s := Now();
      if lowlinks[x] == indices[x] {
        FinishPop(g, r, s, open, x, lowlinks[x]);
        var component := PopThrough(x, |r.stack|);
        if |component| > 1 || x in g[x] {
          components := components + [component];
        }
        assert Now() == Pop(g, s, x, |r.stack|, Above(s, |r.stack|));
      } else {
        FinishKeep(g, r, s, open, x, lowlinks[x]);
      }
    }

    /** Follows the k-th edge out of x, visiting its target if that is new. */
    method Follow(x: string, k: nat, ghost r: Record, ghost open: set<string>)
      requires Valid() && Closed(g) && x in g && k < |g[x]| && x in lowlinks
      requires Following(g, r, Now(), open, x, k, lowlinks[x])
      requires forall o :: o in open ==> Reach(g, o, x)
      requires forall n :: n in r.stack ==> n in r.indices
      modifies this
      ensures Valid() && old(indices.Keys) <= indices.Keys && x in lowlinks
      ensures Following(g, r, Now(), open, x, k + 1, lowlinks[x])
      ensures forall n :: n in old(lowlinks) && n != x ==> n in lowlinks && lowlinks[n] == old(lowlinks[n])
      decreases g.Keys - indices.Keys, 2
    {
      hide Reach, Explored, Connected, Recorded, LowBounds, LowBoundsAbove, LowWitness, Visited;
      var target := g[x][k];
      assert HasEdge(g, x, target);
      if target !in indices {
        FollowNew(x, k, r, open);
      } else if target in onStack {
        FollowBack(g, r, Now(), open, x, k, lowlinks[x]);
        lowlinks := lowlinks[x := Min(lowlinks[x], indices[target])];
      } else {
        FollowDone(g, r, Now(), open, x, k, lowlinks[x]);
      }
    }

    method FollowNew(x: string, k: nat, ghost r: Record, ghost open: set<string>)
      requires Valid() && Closed(g) && x in g && k < |g[x]| && x in lowlinks
      requires Following(g, r, Now(), open, x, k, lowlinks[x]) && g[x][k] !in indices && g[x][k] in g
      requires forall o :: o in open ==> Reach(g, o, x)
      requires forall n :: n in r.stack ==> n in r.indices
      modifies this
      ensures Valid() && old(indices.Keys) <= indices.Keys && x in lowlinks
      ensures Following(g, r, Now(), open, x, k + 1, lowlinks[x])
      ensures forall n :: n in old(lowlinks) && n != x ==> n in lowlinks && lowlinks[n] == old(lowlinks[n])
      decreases g.Keys - indices.Keys, 1
    {
      hide Reach, Explored, Connected, Recorded, LowBounds, LowBoundsAbove, LowWitness, Visited;
      ghost var s, low := Now(), lowlinks[x];
      OpenReaches(g, open, x, g[x][k]);
      Visit(g[x][k], open + {x});
      FollowChild(g, r, s, Now(), open, x, k, low, lowlinks[g[x][k]]);
      lowlinks := lowlinks[x := Min(lowlinks[x], lowlinks[g[x][k]])];
    }
  }

  lemma NothingOpen(g: Graph, r: Record)
    requires Consistent(g, r, {})
    ensures r.stack == []
  {
    var anchored := r.stack != [] && Anchored(g, r, {}, r.stack[0]);
    assert !anchored;
  }

  lemma AllDone(g: Graph, r: Record)
    requires Consistent(g, r, {}) && r.indices.Keys == g.Keys
    ensures forall c :: c in r.components <==> IsCyclicComponent(g, c)
    ensures r.components == [] <==> Acyclic(g)
  {
    NothingOpen(g, r);
    assert r.Done() == g.Keys;
    forall c | IsCyclicComponent(g, c) ensures c in r.components {
      var a :| a in c && ReachPlus(g, a, a);
      assert InSome(r.components, a);
      var d :| d in r.components && a in d;
      assert IsComponent(g, d);
      assert forall b :: b in c ==> Reach(g, a, b) && Reach(g, b, a);
      assert forall b :: b in d ==> Reach(g, a, b) && Reach(g, b, a);
      assert c == d;
    }
    if r.components != [] {
      assert IsCyclicComponent(g, r.components[0]);
    } else {
      forall a ensures !ReachPlus(g, a, a) {
        assert a in g ==> !InSome(r.components, a);
      }
    }
  }

  /** Exactly the strongly connected components that contain a cycle, each once. */
  method CyclicComponents(g: Graph) returns (components: seq<set<string>>)
    requires Closed(g)
    ensures forall c :: c in components <==> IsCyclicComponent(g, c)
    ensures forall i, j :: 0 <= i < j < |components| ==> components[i] !! components[j]
    ensures components == [] <==> Acyclic(g)
  {
    var search := new ComponentSearch(g);
    var todo := g.Keys;
    while todo != {}
      invariant fresh(search) && search.g == g && search.Valid() && Consistent(g, search.Now(), {})
      invariant todo <= g.Keys && g.Keys <= todo + search.indices.Keys
    {
      var node :| node in todo;
      if node !in search.indices {
        search.Visit(node, {});
      }
      todo := todo - {node};
    }
    components := search.components;
    AllDone(g, search.Now());
  }
}
