/** Path prefixes: the textual tests of the compiler and the gate, and what they mean for the
    components of a path. */
module Prefixes {
  import opened Text

  function Normal(prefix: string): string {
    var p := TrimEnd(prefix, '/');
    if p == "" then "/" else p
  }

  /** The compiler's test of a requested prefix against a permitted one. */
  predicate IsWithin(requested: string, permitted: string) {
    var p, r := Normal(permitted), Normal(requested);
    p == "/" || r == p || p + "/" <= r
  }

  /** The gate's test of a target against the prefix of a rule. */
  predicate TargetMatches(target: string, prefix: string) {
    var p := Normal(prefix);
    p == "/" || target == p || p + "/" <= target
  }

  // ---- components ----

  /** The texts between the slashes. */
  function Parts(path: string): (r: seq<string>)
    ensures r != []
  {
    if path == "" then [""]
    else
      var rest := Parts(path[1..]);
      if path[0] == '/' then [""] + rest else [[path[0]] + rest[0]] + rest[1..]
  }

  function Joined(parts: seq<string>): string
    requires parts != []
  {
    if |parts| == 1 then parts[0] else parts[0] + "/" + Joined(parts[1..])
  }

  /** The components of a prefix; slashes at its end add none. */
  function Steps(prefix: string): seq<string> {
    Pruned(Parts(prefix))
  }

  function Pruned(parts: seq<string>): (r: seq<string>)
    ensures r <= parts && (r == [] || r[|r| - 1] != "")
    ensures forall i :: |r| <= i < |parts| ==> parts[i] == ""
  {
    if parts != [] && parts[|parts| - 1] == "" then Pruned(parts[..|parts| - 1]) else parts
  }

  /** Components hold no slash, and joining them gives the path back. */
  lemma {:induction false} PartsJoin(path: string)
    ensures Joined(Parts(path)) == path
    ensures forall part :: part in Parts(path) ==> '/' !in part
  {
    if path != "" {
      PartsJoin(path[1..]);
      var rest := Parts(path[1..]);
      assert path == [path[0]] + path[1..];
      if path[0] == '/' {
        assert ([""] + rest)[1..] == rest;
      } else {
        var parts := [[path[0]] + rest[0]] + rest[1..];
        assert parts[1..] == rest[1..];
        assert rest[0] in rest;
      }
    }
  }

  /** No other components without slashes join to the same path. */
  lemma {:induction false} JoinParts(parts: seq<string>)
    requires parts != [] && forall part :: part in parts ==> '/' !in part
    ensures Parts(Joined(parts)) == parts
    decreases |parts|, |parts[0]|
  {
    var path := Joined(parts);
    if parts[0] == "" {
      if |parts| > 1 {
        JoinParts(parts[1..]);
        assert path[1..] == Joined(parts[1..]) && parts == [""] + parts[1..];
      } else {
        assert parts == [""];
      }
    } else {
      var shorter := [parts[0][1..]] + parts[1..];
      assert parts[0] in parts && forall c :: c in parts[0][1..] ==> c in parts[0];
      JoinParts(shorter);
      assert shorter[1..] == parts[1..];
      assert path[1..] == Joined(shorter) && path[0] == parts[0][0] && path[0] in parts[0];
      assert parts[0] == [path[0]] + shorter[0];
      assert parts == [parts[0]] + parts[1..];
    }
  }

  /** A path starts with another up to a slash exactly when its components do. */
  lemma {:induction false} PartsPrefix(p: string, path: string)
    ensures Parts(p) <= Parts(path) <==> path == p || p + "/" <= path
  {
    if p == "" {
      EmptyFirst(path);
    } else if path == "" {
      if p[0] == '/' { assert |Parts(p)| == 1 + |Parts(p[1..])|; } else { assert Parts(p)[0] != ""; }
    } else if p[0] != path[0] {
      FirstPart(p);
      FirstPart(path);
    } else {
      PartsPrefix(p[1..], path[1..]);
      var a, b := Parts(p[1..]), Parts(path[1..]);
      HeadsPrefix(a, b, p[0]);
      assert p == [p[0]] + p[1..] && path == [path[0]] + path[1..];
      assert p + "/" == [p[0]] + (p[1..] + "/");
      if p + "/" <= path { assert (p[1..] + "/") == (p + "/")[1..]; }
    }
  }

  lemma FirstPart(path: string)
    requires path != ""
    ensures if path[0] == '/' then Parts(path)[0] == "" else Parts(path)[0] != "" && Parts(path)[0][0] == path[0]
  {}

  lemma EmptyFirst(path: string)
    ensures [""] <= Parts(path) <==> path == "" || "/" <= path
  {}

  lemma HeadsPrefix(a: seq<string>, b: seq<string>, c: char)
    requires a != [] && b != []
    ensures a <= b <==> [""] + a <= [""] + b
    ensures a <= b <==> [[c] + a[0]] + a[1..] <= [[c] + b[0]] + b[1..]
  {
    var x, y := [""] + a, [""] + b;
    var u, v := [[c] + a[0]] + a[1..], [[c] + b[0]] + b[1..];
    if a <= b { assert a == b[..|a|]; }
    if x <= y { assert x[1..] == a && y[1..] == b; }
    if u <= v {
      assert u[0][1..] == a[0] && v[0][1..] == b[0];
      assert forall i :: 1 <= i < |a| ==> a[i] == u[i] && b[i] == v[i];
    }
  }

  lemma {:induction false} PartsSlash(p: string)
    ensures Parts(p + "/") == Parts(p) + [""]
  {
    if p == "" {
      assert Parts("/") == [""] + Parts("/"[1..]);
    } else {
      PartsSlash(p[1..]);
      assert (p + "/")[1..] == p[1..] + "/";
      var rest := Parts(p[1..]);
      if p[0] == '/' { assert [""] + (rest + [""]) == ([""] + rest) + [""]; }
    }
  }

  lemma {:induction false} LastPart(p: string)
    requires p != "" && p[|p| - 1] != '/'
    ensures var parts := Parts(p); parts[|parts| - 1] != ""
  {
    if |p| > 1 { LastPart(p[1..]); }
  }

  /** Trimming the slashes keeps the components; nothing is left of a prefix of slashes. */
  lemma {:induction false} StepsTrimmed(prefix: string)
    ensures var p := TrimEnd(prefix, '/'); Steps(prefix) == if p == "" then [] else Parts(p)
  {
    if prefix == "" {
      assert Pruned([""]) == Pruned([""][..0]);
    } else if prefix[|prefix| - 1] == '/' {
      var front := prefix[..|prefix| - 1];
      StepsTrimmed(front);
      assert prefix == front + "/";
      PartsSlash(front);
      assert (Parts(front) + [""])[..|Parts(front)|] == Parts(front);
    } else {
      LastPart(prefix);
    }
  }

  /** A stretch of the path between slashes. */
  predicate Between(path: string, i: nat, j: nat) {
    && i <= j <= |path| && (forall k :: i <= k < j ==> path[k] != '/')
    && (i == 0 || path[i - 1] == '/') && (j == |path| || path[j] == '/')
  }

  predicate PartFrom(path: string, i: nat, part: string) {
    i + |part| <= |path| && Between(path, i, i + |part|) && part == path[i..i + |part|]
  }

  lemma PartTail(path: string, i: nat, part: string)
    requires path != "" && i > 0
    ensures PartFrom(path, i, part)
            <==> PartFrom(path[1..], i - 1, part) && (i == 1 ==> path[0] == '/')
  {
    if i + |part| <= |path| {
      var rest := path[1..];
      assert forall k :: i <= k < i + |part| ==> path[k] == rest[k - 1];
      var here, there := path[i..i + |part|], rest[i - 1..i - 1 + |part|];
      assert forall k :: 0 <= k < |part| ==> here[k] == there[k];
      assert here == there;
    }
  }

  /** The first component is the stretch at the start, and the others are the later stretches. */
  lemma {:induction false} PartsBetween(path: string, part: string)
    ensures PartFrom(path, 0, Parts(path)[0])
    ensures part in Parts(path)[1..] <==> exists i: nat :: i > 0 && PartFrom(path, i, part)
  {
    hide PartFrom;
    if path == "" {
      EmptyStretch(part);
    } else {
      PartsBetween(path[1..], part);
      FirstStretch(path);
      var rest := Parts(path[1..]);
      forall i: nat | i > 0 ensures PartFrom(path, i, part) <==> PartFrom(path[1..], i - 1, part) && (i == 1 ==> path[0] == '/') {
        PartTail(path, i, part);
      }
      if path[0] == '/' {
        assert Parts(path)[1..] == rest && rest == [rest[0]] + rest[1..];
        if PartFrom(path[1..], 0, part) { SameStretch(path[1..], part, rest[0]); }
        if part == rest[0] { assert PartFrom(path, 1, part); }
        if exists i: nat :: i > 0 && PartFrom(path[1..], i, part) {
          var i: nat :| i > 0 && PartFrom(path[1..], i, part);
          assert PartFrom(path, i + 1, part) by { PartTail(path, i + 1, part); }
        }
      } else {
        assert Parts(path)[1..] == rest[1..];
        if exists i: nat :: i > 0 && PartFrom(path[1..], i, part) {
          var i: nat :| i > 0 && PartFrom(path[1..], i, part);
          assert PartFrom(path, i + 1, part) by { PartTail(path, i + 1, part); }
        }
      }
    }
  }

  lemma EmptyStretch(part: string)
    ensures PartFrom("", 0, "") && forall i: nat :: i > 0 ==> !PartFrom("", i, part)
  {}

  lemma SameStretch(path: string, a: string, b: string)
    requires PartFrom(path, 0, a) && PartFrom(path, 0, b)
    ensures a == b
  {}

  lemma FirstStretch(path: string)
    requires path != "" && PartFrom(path[1..], 0, Parts(path[1..])[0])
    ensures PartFrom(path, 0, Parts(path)[0])
  {
    var first := Parts(path[1..])[0];
    if path[0] != '/' {
      assert path[..1 + |first|] == [path[0]] + path[1..][..|first|];
    }
  }

  /** A component of a path is a stretch between slashes. */
  lemma PartsMeans(path: string, part: string)
    ensures part in Parts(path) <==> exists i: nat :: PartFrom(path, i, part)
  {
    hide PartFrom, Parts;
    PartsBetween(path, part);
    var parts := Parts(path);
    assert parts == [parts[0]] + parts[1..];
    if PartFrom(path, 0, part) { SameStretch(path, part, parts[0]); }
  }

  /** A target matches a prefix exactly when the prefix's components begin the target's. */
  lemma TargetByParts(target: string, prefix: string)
    ensures TargetMatches(target, prefix) <==> Steps(prefix) <= Parts(target)
  {
    StepsTrimmed(prefix);
    var p := TrimEnd(prefix, '/');
    if p != "" {
      assert p != "/";
      PartsPrefix(p, target);
    }
  }

  /** A prefix lies within another exactly when the other's components begin its own. */
  lemma WithinByParts(requested: string, permitted: string)
    ensures IsWithin(requested, permitted) <==> Steps(permitted) <= Steps(requested)
  {
    StepsTrimmed(permitted);
    StepsTrimmed(requested);
    var p, r := TrimEnd(permitted, '/'), TrimEnd(requested, '/');
    if p != "" {
      assert p != "/";
      if r == "" { assert !(p + "/" <= "/"); } else { PartsPrefix(p, r); }
    }
  }

  /** A target under a prefix lies under everything the prefix lies within. */
  lemma TargetTransitive(target: string, requested: string, permitted: string)
    requires TargetMatches(target, requested) && IsWithin(requested, permitted)
    ensures TargetMatches(target, permitted)
  {
    hide TargetMatches, IsWithin, Steps, Parts;
    TargetByParts(target, requested);
    TargetByParts(target, permitted);
    WithinByParts(requested, permitted);
  }

  /** Prefixes that share a target are nested. */
  lemma SharedTargetNests(target: string, a: string, b: string)
    requires TargetMatches(target, a) && TargetMatches(target, b)
    ensures IsWithin(a, b) || IsWithin(b, a)
  {
    hide TargetMatches, IsWithin, Steps, Parts;
    TargetByParts(target, a);
    TargetByParts(target, b);
    WithinByParts(a, b);
    WithinByParts(b, a);
    if |Steps(a)| <= |Steps(b)| { assert Steps(a) <= Steps(b); } else { assert Steps(b) <= Steps(a); }
  }
}
