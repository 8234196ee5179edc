/** The static check of a manifest: loops that collect findings, proved to find nothing
    exactly for the manifests described by Accepted. */
module StaticCheck {
  import opened GraphSchema
  import opened Paths
  import opened Tarjan
  import opened Search
  import opened Manifest

  datatype Finding =
    | DuplicateIdentities | UnknownEnd(edge: Edge) | InvalidPair(edge: Edge)
    | UnknownPort(edge: Edge) | IncompatiblePorts(edge: Edge)
    | NoEntry | Unreachable(id: string) | DeadEnd(id: string)
    | NoAuthorityEdge(id: string) | NoCapabilityPath(id: string) | NoReconciliation(id: string)
    | NoApprovalPath(id: string) | NoHumanExit(id: string)
    | NoRequirements | NoBarrier | NotAnAllJoin | MissingGuards(guards: set<string>) | AcceptBypass
    | NotAJoin(id: string) | JoinInputs(id: string) | UnboundedCycle(component: set<string>)
    | UntrustedInfluence(id: string) | NoProvenance(id: string) | NotNumeric(id: string) | ExceedsOrigin(id: string)

  /** Either a report, or the lookup failure the source lets escape. */
  datatype Validation = Report(findings: seq<Finding>) | Raised(id: string)

  method ListOf(s: set<string>) returns (l: seq<string>)
    ensures forall x :: x in l <==> x in s
  {
    l := [];
    var rest := s;
    while rest != {}
      invariant rest <= s && forall x :: x in l <==> x in s - rest
    {
      var x :| x in rest;
      l, rest := l + [x], rest - {x};
    }
  }

  method CheckIdentities(m: Manifest) returns (findings: seq<Finding>)
    ensures findings == [] <==> UniqueIds(m)
  {
    ghost var names := seq(|m.nodes|, i requires 0 <= i < |m.nodes| => m.nodes[i].node_id);
    SetSize(names);
    assert Ids(m) == set x | x in names by {
      forall x | x in Ids(m) ensures x in names {
        var i :| 0 <= i < |m.nodes| && m.nodes[i].node_id == x;
        assert names[i] == x;
      }
    }
    assert forall i :: 0 <= i < |names| ==> names[i] == m.nodes[i].node_id;
    if !UniqueIds(m) {
      var i, j :| 0 <= i < j < |m.nodes| && m.nodes[i].node_id == m.nodes[j].node_id;
      assert names[i] == names[j];
    }
    findings := if |Ids(m)| != |m.nodes| then [DuplicateIdentities] else [];
  }

  lemma {:induction false} SetSize(s: seq<string>)
    ensures |set x | x in s| <= |s|
    ensures |set x | x in s| == |s| <==> forall i, j :: 0 <= i < j < |s| ==> s[i] != s[j]
  {
    if s != [] {
      var k := |s| - 1;
      var front := s[..k];
      SetSize(front);
      assert (set x | x in s) == (set x | x in front) + {s[k]};
      if s[k] in front {
        assert (set x | x in s) == (set x | x in front);
        var i :| 0 <= i < k && front[i] == s[k];
        assert s[i] == s[k];
      } else {
        assert forall i :: 0 <= i < k ==> s[i] == front[i] && s[i] in front;
      }
    }
  }

  method CheckEdges(m: Manifest) returns (findings: seq<Finding>)
    ensures findings == [] <==> forall e :: e in m.edges ==> EdgeOk(m, e)
  {
    findings := [];
    var byId := ById(m.nodes);
    ByIdNodes(m.nodes);
    for i := 0 to |m.edges|
      invariant findings == [] <==> forall k :: 0 <= k < i ==> EdgeOk(m, m.edges[k])
    {
      var e := m.edges[i];
      if e.source !in Ids(m) || e.target !in Ids(m) {
        findings := findings + [UnknownEnd(e)];
      } else {
        var source, target := byId[e.source], byId[e.target];
        if !PairIsValid(source.node_type, e.edge_type, target.node_type) {
          findings := findings + [InvalidPair(e)];
        }
        if e.source_port != "" {
          var s, t := PortNamed(source.outputs, e.source_port), PortNamed(target.inputs, e.target_port);
          if s.None? || t.None? {
            findings := findings + [UnknownPort(e)];
          } else if s.value.schema != t.value.schema {
            findings := findings + [IncompatiblePorts(e)];
          }
        }
      }
    }
  }

  method CheckReachability(m: Manifest) returns (findings: seq<Finding>)
    ensures findings == [] <==> Entries(m) != {} && forall n :: n in m.nodes ==> NodeReachOk(m, n)
  {
    ForwardEdges(m);
    var entries := Entries(m);
    findings := if entries == {} then [NoEntry] else [];
    var starts := ListOf(entries);
    var reachable := ReachableFrom(starts, Forward(m));
    for i := 0 to |m.nodes|
      invariant findings == [] <==> entries != {} && forall k :: 0 <= k < i ==> NodeReachOk(m, m.nodes[k])
    {
      var n := m.nodes[i];
      assert n.node_id in reachable <==> Reachable(m, n.node_id);
      if n.node_id !in reachable {
        findings := findings + [Unreachable(n.node_id)];
      }
      if n.node_id in reachable && Outgoing(m, m.edges, n.node_id) == [] && n.effect != Terminal
         && n.effect != SideEffect && n.Meta("terminal") != "true" {
        findings := findings + [DeadEnd(n.node_id)];
      }
    }
  }

  method CheckRoles(m: Manifest) returns (v: Validation)
    ensures v.Raised? <==> exists n :: n in m.nodes && IsAccept(n) && BarrierRaises(m, n)
    ensures v == Report([]) <==> forall n :: n in m.nodes ==> NodeRolesOk(m, n)
  {
    hide EffectsOk, BarrierRaises, AcceptOk;
    var findings := [];
    for i := 0 to |m.nodes|
      invariant findings == [] <==> forall k :: 0 <= k < i ==> NodeRolesOk(m, m.nodes[k])
      invariant forall k :: 0 <= k < i ==> !(IsAccept(m.nodes[k]) && BarrierRaises(m, m.nodes[k]))
    {
      var n := m.nodes[i];
      assert n.node_id in Ids(m);
      var found := CheckEffects(m, n);
      if IsAccept(n) {
        var barrier := CheckAccept(m, n);
        if barrier.Raised? {
          return barrier;
        }
        found := found + barrier.findings;
      }
      findings := findings + found;
    }
    v := Report(findings);
  }

  method CheckEffects(m: Manifest, n: Node) returns (findings: seq<Finding>)
    requires n.node_id in Ids(m)
    ensures findings == [] <==> EffectsOk(m, n)
  {
    hide Forward, Backward, OfType, Recoveries, HumanExits, Node.Meta, Incoming;
    ForwardEdges(m);
    findings := [];
    if n.effect == SideEffect {
      var incoming := Incoming(m, m.edges, n.node_id);
      if !(exists e :: e in incoming && e.edge_type in AUTHORITY_EDGES) {
        findings := findings + [NoAuthorityEdge(n.node_id)];
      }
      BackwardEdges(m, AUTHORITY_EDGES);
      var capability := Reaches(n.node_id, Backward(m, AUTHORITY_EDGES), OfType(m, Capability, n.node_id));
      if !capability {
        findings := findings + [NoCapabilityPath(n.node_id)];
      }
      var recovery := Reaches(n.node_id, Forward(m), Recoveries(m));
      if !recovery {
        findings := findings + [NoReconciliation(n.node_id)];
      }
    }
    if n.Meta("approval_required") == "true" {
      BackwardEdges(m, {AuthorisedBy});
      var approval := Reaches(n.node_id, Backward(m, {AuthorisedBy}), OfType(m, Approval, n.node_id));
      if !approval {
        findings := findings + [NoApprovalPath(n.node_id)];
      }
    }
    if n.Meta("human_control") == "required" {
      var exit := Reaches(n.node_id, Forward(m), HumanExits(m, n.node_id));
      if !exit {
        findings := findings + [NoHumanExit(n.node_id)];
      }
    }
  }

  method CheckAccept(m: Manifest, n: Node) returns (v: Validation)
    ensures v.Raised? <==> BarrierRaises(m, n)
    ensures v == Report([]) <==> AcceptOk(m, n)
  {
    ForwardEdges(m);
    if n.required_guards == [] {
      return Report([NoRequirements]);
    }
    var barriers := Barriers(m, Incoming(m, m.edges, n.node_id));
    if |barriers| != 1 {
      return Report([NoBarrier]);
    }
    var join := FirstJoin(m.joins, barriers[0].source);
    if join.None? || join.value.policy != All {
      return Report([NotAnAllJoin]);
    }
    v := CheckBarrier(m, n, join.value);
  }

  method CheckBarrier(m: Manifest, n: Node, join: Join) returns (v: Validation)
    requires BarrierOk(m, n) && join == Barrier(m, n)
    ensures v.Raised? <==> BarrierRaises(m, n)
    ensures v == Report([]) <==> AcceptOk(m, n)
  {
    hide Forward, Barrier, BarrierOk, ReachAvoiding, AvoidFromAny;
    ForwardEdges(m);
    var guards := set p | p in join.predecessors;
    var byId := ById(m.nodes);
    var unknown := set p | p in guards && p !in byId;
    if unknown != {} {
      var p :| p in unknown;
      return Raised(p);
    }
    forall p | p in guards ensures p in byId {
      assert p !in unknown;
    }
    var findings := [];
    var actual := set p | p in guards :: byId[p].Meta("guard");
    var missing := set r | r in n.required_guards && r !in actual;
    if missing != {} {
      findings := findings + [MissingGuards(missing)];
    }
    var starts := ListOf(Entries(m) - guards);
    var bypass := ReachableWithout(starts, n.node_id, guards, Forward(m));
    AvoidFromEntries(m, n, guards, starts);
    if bypass {
      findings := findings + [AcceptBypass];
    }
    assert forall r :: r in n.required_guards ==> (r in missing <==> r !in actual);
    assert missing == {} <==>
      forall r :: r in n.required_guards ==> exists p :: p in guards && byId[p].Meta("guard") == r;
    v := Report(findings);
  }

  lemma AvoidFromEntries(m: Manifest, n: Node, guards: set<string>, starts: seq<string>)
    requires forall s :: s in starts <==> s in Entries(m) - guards
    ensures AvoidFromAny(Forward(m), starts, n.node_id, guards) <==>
              exists s :: s in Entries(m) && ReachAvoiding(Forward(m), s, n.node_id, guards)
  {
    forall s | ReachAvoiding(Forward(m), s, n.node_id, guards) ensures s !in guards {
      var p :| PathFromTo(Forward(m), p, s, n.node_id) && forall x :: x in p ==> x !in guards;
      assert p[0] in p;
    }
  }

  method CheckJoins(m: Manifest) returns (findings: seq<Finding>)
    ensures findings == [] <==> forall j :: j in m.joins ==> JoinOk(m, j)
  {
    findings := [];
    var byId := ById(m.nodes);
    for i := 0 to |m.joins|
      invariant findings == [] <==> forall k :: 0 <= k < i ==> JoinOk(m, m.joins[k])
    {
      var j := m.joins[i];
      if j.node_id !in byId || byId[j.node_id].node_type != JoinNode {
        findings := findings + [NotAJoin(j.node_id)];
      } else {
        var inputs := set p | p in Sources(Incoming(m, m.edges, j.node_id), {Satisfies});
        if inputs != set p | p in j.predecessors {
          findings := findings + [JoinInputs(j.node_id)];
        }
      }
    }
  }

  method CheckCycle(m: Manifest, c: set<string>) returns (ok: bool)
    requires c <= Ids(m)
    ensures ok <==> CycleOk(m, c)
  {
    ByIdNodes(m.nodes);
    var byId := ById(m.nodes);
    var bounded := forall id :: id in c ==> byId[id].budget.Some? && byId[id].timeout.Some?;
    var escapes := exists e :: e in m.edges && Known(m, e) && e.source in c && e.edge_type == EscalatesTo && e.target !in c;
    ok := bounded && escapes;
  }

  method CheckCycles(m: Manifest) returns (findings: seq<Finding>)
    ensures findings == [] <==> forall c :: IsCyclicComponent(Forward(m), c) ==> CycleOk(m, c)
  {
    ForwardEdges(m);
    var components := CyclicComponents(Forward(m));
    ListedCycles(m, components);
    hide IsCyclicComponent, Forward, Acyclic, CycleOk;
    findings := CheckCycleList(m, components);
  }

  lemma ListedCycles(m: Manifest, components: seq<set<string>>)
    requires forall c :: c in components <==> IsCyclicComponent(Forward(m), c)
    ensures forall i :: 0 <= i < |components| ==> components[i] <= Ids(m)
    ensures (forall c :: IsCyclicComponent(Forward(m), c) ==> CycleOk(m, c)) <==>
              forall i :: 0 <= i < |components| ==> CycleOk(m, components[i])
  {
    hide CycleOk;
    forall i | 0 <= i < |components| ensures components[i] <= Ids(m) && IsCyclicComponent(Forward(m), components[i]) {
      assert components[i] in components;
    }
    if forall i :: 0 <= i < |components| ==> CycleOk(m, components[i]) {
      forall c | IsCyclicComponent(Forward(m), c) ensures CycleOk(m, c) {
        assert c in components;
      }
    }
  }

  method CheckCycleList(m: Manifest, components: seq<set<string>>) returns (findings: seq<Finding>)
    requires forall i :: 0 <= i < |components| ==> components[i] <= Ids(m)
    ensures findings == [] <==> forall i :: 0 <= i < |components| ==> CycleOk(m, components[i])
  {
    hide CycleOk;
    findings := [];
    for i := 0 to |components|
      invariant findings == [] <==> forall k :: 0 <= k < i ==> CycleOk(m, components[k])
    {
      var ok := CheckCycle(m, components[i]);
      if !ok {
        findings := findings + [UnboundedCycle(components[i])];
      }
    }
  }

  method CheckTrust(m: Manifest) returns (findings: seq<Finding>)
    ensures findings == [] <==> forall n :: n in m.nodes ==> TrustOk(m, n)
  {
    ForwardEdges(m);
    findings := [];
    for i := 0 to |m.nodes|
      invariant findings == [] <==> forall k :: 0 <= k < i ==> TrustOk(m, m.nodes[k])
    {
      var n := m.nodes[i];
      assert n.node_id in Ids(m);
      if n.Meta("trust") == "untrusted" {
        var approval := Reaches(n.node_id, Forward(m), OfType(m, Approval, n.node_id));
        if approval {
          findings := findings + [UntrustedInfluence(n.node_id)];
        }
        var capability := Reaches(n.node_id, Forward(m), OfType(m, Capability, n.node_id));
        if capability {
          findings := findings + [UntrustedInfluence(n.node_id)];
        }
      }
    }
  }

  /** The nodes a memory node derives from, and what their authorities have to be. */
  lemma OriginsMean(m: Manifest, n: Node, parse: string -> Option<int>, origins: set<string>)
    requires n.node_type == Memory && n.authority != ""
    requires origins == set e | e in Incoming(m, m.edges, n.node_id) && e.edge_type == DerivedFrom :: e.source
    ensures forall o :: o in origins ==> o in ById(m.nodes)
    ensures MemoryOk(m, n, parse) <==>
              && origins != {} && parse(n.authority).Some?
              && forall o :: o in origins ==>
                   var authority := parse(ById(m.nodes)[o].authority);
                   authority.Some? && parse(n.authority).value <= authority.value
  {
    hide Incoming, ById;
    IncomingEdges(m, m.edges, n.node_id);
    ByIdNodes(m.nodes);
    assert forall e :: e in Incoming(m, m.edges, n.node_id) && e.edge_type == DerivedFrom ==> e.source in origins;
  }

  method CheckProvenance(m: Manifest, n: Node, parse: string -> Option<int>) returns (findings: seq<Finding>)
    requires n.node_type == Memory && n.authority != ""
    ensures findings == [] <==> MemoryOk(m, n, parse)
  {
    hide MemoryOk, Incoming, ById;
    var byId := ById(m.nodes);
    var origins := set e | e in Incoming(m, m.edges, n.node_id) && e.edge_type == DerivedFrom :: e.source;
    OriginsMean(m, n, parse, origins);
    findings := [];
    if origins == {} {
      findings := [NoProvenance(n.node_id)];
    } else if parse(n.authority).None? || exists o :: o in origins && parse(byId[o].authority).None? {
      findings := [NotNumeric(n.node_id)];
    } else if exists o :: o in origins && parse(n.authority).value > parse(byId[o].authority).value {
      findings := [ExceedsOrigin(n.node_id)];
    }
  }

  method CheckMemory(m: Manifest, parse: string -> Option<int>) returns (findings: seq<Finding>)
    ensures findings == [] <==> forall n :: n in m.nodes ==> MemoryOk(m, n, parse)
  {
    findings := [];
    for i := 0 to |m.nodes|
      invariant findings == [] <==> forall k :: 0 <= k < i ==> MemoryOk(m, m.nodes[k], parse)
    {
      var n := m.nodes[i];
      if n.node_type == Memory && n.authority != "" {
        var found := CheckProvenance(m, n, parse);
        findings := findings + found;
      }
    }
  }

  /** The static check: it reports no finding exactly for the accepted manifests, and raises
      exactly when the barrier of an accept decision names an unknown predecessor. */
  method Validate(m: Manifest, parse: string -> Option<int>) returns (v: Validation)
    ensures v.Raised? <==> exists n :: n in m.nodes && IsAccept(n) && BarrierRaises(m, n)
    ensures v == Report([]) <==> Accepted(m, parse)
  {
    hide UniqueIds, EdgeOk, Entries, NodeReachOk, NodeRolesOk, JoinOk, IsCyclicComponent, CycleOk, TrustOk,
         MemoryOk, BarrierRaises, Forward;
    var identities := CheckIdentities(m);
    var edges := CheckEdges(m);
    var reachability := CheckReachability(m);
    v := CheckRoles(m);
    if v.Report? {
      var joins := CheckJoins(m);
      var cycles := CheckCycles(m);
      var trust := CheckTrust(m);
      var memory := CheckMemory(m, parse);
      v := Report(identities + edges + reachability + v.findings + joins + cycles + trust + memory);
    }
  }
}
