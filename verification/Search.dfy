/** The worklist searches of the static graph checker: a stack of pending nodes and a set of
    nodes already expanded.  Each is proved against the existence of a path. */
module Search {
  import opened Paths

  /** Successors of expanded nodes are expanded or still pending. */
  ghost predicate Expanded(next: Graph, seen: set<string>, pending: seq<string>) {
    forall a, b :: a in seen && HasEdge(next, a, b) ==> b in seen || b in pending
  }

  ghost predicate ReachFromAny(g: Graph, starts: seq<string>, n: string) {
    exists s :: s in starts && Reach(g, s, n)
  }

  ghost predicate AvoidFromAny(g: Graph, starts: seq<string>, n: string, excluded: set<string>) {
    exists s :: s in starts && ReachAvoiding(g, s, n, excluded)
  }

  lemma ReachFromAnyStep(g: Graph, starts: seq<string>, a: string, b: string)
    requires ReachFromAny(g, starts, a) && HasEdge(g, a, b)
    ensures ReachFromAny(g, starts, b)
  {
    var s :| s in starts && Reach(g, s, a);
    ReachStep(g, s, a, b);
  }

  lemma ClosedUnderNext(starts: seq<string>, next: Graph, seen: set<string>)
    requires Expanded(next, seen, []) && forall s :: s in starts ==> s in seen
    ensures forall n :: ReachFromAny(next, starts, n) ==> n in seen
  {
    forall n | ReachFromAny(next, starts, n) ensures n in seen {
      var s :| s in starts && Reach(next, s, n);
      ClosedSetReach(next, seen, s, n);
    }
  }

  lemma ExpandNode(next: Graph, seen: set<string>, rest: seq<string>, node: string)
    requires node in next && Expanded(next, seen, rest + [node])
    ensures Expanded(next, seen + {node}, rest + next[node])
    ensures node in seen ==> Expanded(next, seen, rest)
  {}

  method ReachableFrom(starts: seq<string>, next: Graph) returns (seen: set<string>)
    requires Closed(next) && forall s :: s in starts ==> s in next
    ensures forall n :: n in seen <==> ReachFromAny(next, starts, n)
  {
    forall s | s in starts ensures ReachFromAny(next, starts, s) { ReachSelf(next, s); }
    var pending := starts;
    seen := {};
    assert Expanded(next, seen, pending);
    hide ReachFromAny, Expanded;
    while pending != []
      invariant seen <= next.Keys && forall n :: n in pending ==> n in next
      invariant forall s :: s in starts ==> s in seen || s in pending
      invariant Expanded(next, seen, pending)
      invariant forall n :: n in seen || n in pending ==> ReachFromAny(next, starts, n)
      decreases next.Keys - seen, |pending|
    {
      var node := pending[|pending| - 1];
      var rest := pending[..|pending| - 1];
      assert pending == rest + [node];
      ExpandNode(next, seen, rest, node);
      if node in seen {
        pending := rest;
      } else {
        forall b | b in next[node] ensures HasEdge(next, node, b) && ReachFromAny(next, starts, b) {
          ReachFromAnyStep(next, starts, node, b);
        }
        pending := rest + next[node];
        seen := seen + {node};
      }
    }
    ClosedUnderNext(starts, next, seen);
  }

  /** Whether a goal node can be reached: the search stops at the first one it expands. */
  method Reaches(start: string, next: Graph, goal: set<string>) returns (found: bool)
    requires Closed(next) && start in next
    ensures found <==> exists n :: n in goal && Reach(next, start, n)
  {
    var pending := [start];
    var seen := {};
    ReachSelf(next, start);
    while pending != []
      invariant seen <= next.Keys && forall n :: n in pending ==> n in next
      invariant start in seen || start in pending
      invariant Expanded(next, seen, pending)
      invariant seen !! goal
      invariant forall n :: n in seen || n in pending ==> Reach(next, start, n)
      decreases next.Keys - seen, |pending|
    {
      var node := pending[|pending| - 1];
      var rest := pending[..|pending| - 1];
      assert pending == rest + [node];
      if node in seen {
        pending := rest;
      } else {
        if node in goal {
          return true;
        }
        forall b | b in next[node] ensures HasEdge(next, node, b) && Reach(next, start, b) {
          ReachStep(next, start, node, b);
        }
        pending := rest + next[node];
        seen := seen + {node};
      }
    }
    forall n | Reach(next, start, n) ensures n in seen {
      ClosedSetReach(next, seen, start, n);
    }
    found := false;
  }

  lemma AvoidingStep(g: Graph, starts: seq<string>, a: string, b: string, excluded: set<string>)
    requires AvoidFromAny(g, starts, a, excluded) && HasEdge(g, a, b) && b !in excluded
    ensures AvoidFromAny(g, starts, b, excluded)
  {
    var s :| s in starts && ReachAvoiding(g, s, a, excluded);
    var p :| PathFromTo(g, p, s, a) && forall n :: n in p ==> n !in excluded;
    var q := p + [b];
    forall i | 0 <= i < |q| - 1 ensures HasEdge(g, q[i], q[i + 1]) {
      if i < |p| - 1 { assert HasEdge(g, p[i], p[i + 1]); }
    }
    assert PathFromTo(g, q, s, b);
  }

  lemma NotReachableWithout(starts: seq<string>, target: string, excluded: set<string>, next: Graph, seen: set<string>)
    requires target !in seen && forall s :: s in starts ==> s in seen || s in excluded
    requires forall a, b :: a in seen && HasEdge(next, a, b) ==> b in seen || b in excluded
    ensures !AvoidFromAny(next, starts, target, excluded)
  {
    if AvoidFromAny(next, starts, target, excluded) {
      var s :| s in starts && ReachAvoiding(next, s, target, excluded);
      var p :| PathFromTo(next, p, s, target) && forall n :: n in p ==> n !in excluded;
      assert p[0] in p && p[|p| - 1] in p;
      ClosedSet(next, seen, excluded, p);
      assert false;
    }
  }

  /** False exactly when every path from a start to the target meets the excluded set. */
  method ReachableWithout(starts: seq<string>, target: string, excluded: set<string>, next: Graph)
    returns (found: bool)
    requires Closed(next) && forall s :: s in starts ==> s in next
    ensures found <==> AvoidFromAny(next, starts, target, excluded)
  {
    var pending := starts;
    var seen := {};
    forall s | s in starts && s !in excluded ensures AvoidFromAny(next, starts, s, excluded) {
      assert PathFromTo(next, [s], s, s);
    }
    while pending != []
      invariant seen <= next.Keys && forall n :: n in pending ==> n in next
      invariant seen !! excluded && target !in seen
      invariant forall s :: s in starts ==> s in seen || s in pending || s in excluded
      invariant forall a, b :: a in seen && HasEdge(next, a, b) ==> b in seen || b in pending || b in excluded
      invariant forall n :: (n in seen || n in pending) && n !in excluded ==> AvoidFromAny(next, starts, n, excluded)
      decreases next.Keys - seen, |pending|
    {
      var node := pending[|pending| - 1];
      var rest := pending[..|pending| - 1];
      assert pending == rest + [node];
      if node in seen || node in excluded {
        pending := rest;
      } else {
        if node == target {
          return true;
        }
        forall b | b in next[node]
          ensures HasEdge(next, node, b) && (b !in excluded ==> AvoidFromAny(next, starts, b, excluded))
        {
          if b !in excluded { AvoidingStep(next, starts, node, b, excluded); }
        }
        pending := rest + next[node];
        seen := seen + {node};
      }
    }
    NotReachableWithout(starts, target, excluded, next, seen);
    found := false;
  }
}
