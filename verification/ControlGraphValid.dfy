/** The constructors accept the parts of every laid out graph, and its edges join compatible ends. */
module ControlGraphValid {
  import opened GraphSchema
  import opened Text
  import opened Paths
  import opened Manifest
  import opened Monitor
  import opened ControlGraph
  import opened ControlGraphShape

  lemma ReceiptListed(p: Plan, name: string)
    requires name in p.guards || exists s :: s in p.specs && s.receipt == name
    ensures name in p.ReceiptNames()
  {
    if s :| s in p.specs && s.receipt == name {
      var i :| 0 <= i < |p.specs| && p.specs[i] == s;
      assert Receipts(p.specs)[i] == name;
    }
  }

  /** Both ends of every edge are laid out. */
  lemma ArcKnown(p: Plan, a: Arc)
    requires ArcInto(p, a)
    ensures HasRef(p, a.source) && HasRef(p, a.target)
  {
    match a.target
    case ReceiptOf(t) =>
      var s :| s in p.specs && a == ReceiptArc(p, s);
      ReceiptListed(p, s.receipt);
    case CriterionOf(i) =>
      ReceiptListed(p, p.guards[i]);
    case _ =>
  }

  lemma EdgeArc(p: Plan, e: Edge) returns (a: Arc)
    requires e in Edges(p)
    ensures ArcInto(p, a) && e == EdgeOf(a)
  {
    var i :| 0 <= i < |Edges(p)| && Edges(p)[i] == e;
    a := Arcs(p)[i];
    ArcsAre(p, a);
  }

  lemma ArcEdge(p: Plan, c: Contract, a: Arc)
    requires ArcInto(p, a)
    ensures EdgeOf(a) in Edges(p) && Known(Layout(p, c), EdgeOf(a))
  {
    hide ArcInto, HasRef;
    ArcsAre(p, a);
    var i :| 0 <= i < |Arcs(p)| && Arcs(p)[i] == a;
    assert Edges(p)[i] == EdgeOf(a);
    ArcKnown(p, a);
    IdsAre(p, c, a.source);
    IdsAre(p, c, a.target);
  }

  /** The edges into a position. */
  lemma IncomingArc(p: Plan, c: Contract, r: Ref, e: Edge) returns (a: Arc)
    requires e in Incoming(Layout(p, c), Edges(p), Name(r))
    ensures ArcInto(p, a) && a.target == r && e == EdgeOf(a)
  {
    hide ArcInto;
    IncomingEdges(Layout(p, c), Edges(p), Name(r));
    a := EdgeArc(p, e);
    NameInjective(a.target, r);
  }

  lemma ArcIncoming(p: Plan, c: Contract, a: Arc)
    requires ArcInto(p, a)
    ensures EdgeOf(a) in Incoming(Layout(p, c), Edges(p), Name(a.target))
    ensures EdgeOf(a) in Outgoing(Layout(p, c), Edges(p), Name(a.source))
    ensures HasEdge(Forward(Layout(p, c)), Name(a.source), Name(a.target))
  {
    hide ArcInto;
    ArcEdge(p, c, a);
    IncomingEdges(Layout(p, c), Edges(p), Name(a.target));
    OutgoingEdges(Layout(p, c), Edges(p), Name(a.source));
    ForwardEdges(Layout(p, c));
  }

  /** An edge of the graph as a path step, by position. */
  lemma StepArc(p: Plan, c: Contract, x: string, y: string) returns (a: Arc)
    requires HasEdge(Forward(Layout(p, c)), x, y)
    ensures ArcInto(p, a) && Name(a.source) == x && Name(a.target) == y
  {
    hide ArcInto;
    ForwardEdges(Layout(p, c));
    var e :| e in Edges(p) && e.source == x && e.target == y;
    a := EdgeArc(p, e);
  }

  // ---- constructors ----

  lemma NumberedPortsDistinct(prefix: string, schemaId: string, n: nat)
    requires exists c :: c in prefix && !IsSpace(c)
    ensures var ports := NumberedPorts(prefix, schemaId, n);
            && (forall q :: q in ports ==> !Blank(q.name))
            && forall i, j :: 0 <= i < j < |ports| ==> ports[i].name != ports[j].name
  {
    var ports := NumberedPorts(prefix, schemaId, n);
    forall i, j | 0 <= i < j < |ports| ensures ports[i].name != ports[j].name {
      if ports[i].name == ports[j].name {
        PrefixCancel(prefix, Decimal(i), Decimal(j));
        DecimalInjective(i, j);
      }
    }
    var c :| c in prefix && !IsSpace(c);
    forall q | q in ports ensures !Blank(q.name) {
      var i :| 0 <= i < n && q == P(prefix + Decimal(i), schemaId);
      assert c in q.name;
    }
  }

  lemma LeadingLetter(s: string)
    requires s != "" && 'a' <= s[0] <= 'z'
    ensures !Blank(s)
  {
    assert s[0] in s && !IsSpace(s[0]);
  }

  lemma NameNotBlank(r: Ref)
    ensures !Blank(Name(r))
  {
    LeadingLetter(Name(r));
  }

  ghost predicate PortsOk(ports: seq<Port>) {
    && (forall q :: q in ports ==> !Blank(q.name))
    && forall i, j :: 0 <= i < j < |ports| ==> ports[i].name != ports[j].name
  }

  lemma JoinPorts(prefix: string, schemaId: string, n: nat, last: Port)
    requires prefix != "" && 'a' <= prefix[0] <= 'z' && last.name != "" && 'a' <= last.name[0] <= 'z'
    requires |last.name| > |prefix| && last.name[..|prefix|] != prefix
    ensures PortsOk(NumberedPorts(prefix, schemaId, n) + [last])
  {
    LeadingLetter(last.name);
    assert !IsSpace(prefix[0]);
    NumberedPortsDistinct(prefix, schemaId, n);
    var ports := NumberedPorts(prefix, schemaId, n);
    forall i | 0 <= i < n ensures ports[i].name != last.name {
      assert ports[i].name[..|prefix|] == prefix;
    }
  }

  lemma OnePort(q: Port)
    requires q.name != "" && 'a' <= q.name[0] <= 'z'
    ensures PortsOk([q])
  {
    LeadingLetter(q.name);
  }

  lemma MorePorts(ports: seq<Port>, q: Port)
    requires PortsOk(ports) && q.name != "" && 'a' <= q.name[0] <= 'z'
    requires forall o :: o in ports ==> o.name != q.name
    ensures PortsOk(ports + [q])
  {
    LeadingLetter(q.name);
  }

  lemma PortsOfRef(p: Plan, r: Ref)
    ensures PortsOk(InputsOf(p, r) + OutputsOf(r))
  {
    hide PortsOk, InputsOf, OutputsOf;
    if r.RuleJoin? || r.AuthorityJoin? || r.GuardJoin? { JoinPortsOk(p, r); } else { FixedPorts(p, r); }
  }

  lemma JoinPortsOk(p: Plan, r: Ref)
    requires r.RuleJoin? || r.AuthorityJoin? || r.GuardJoin?
    ensures PortsOk(InputsOf(p, r) + OutputsOf(r))
  {
    hide PortsOk;
    if r.RuleJoin? {
      JoinPorts("intent.", INTENT, |p.rules|, P("matched_intent", INTENT));
    } else if r.AuthorityJoin? {
      assert "authorised_intent"[..10][7] == 's' && "authority."[7] == 't';
      JoinPorts("authority.", INTENT, |p.rules| + 1, P("authorised_intent", INTENT));
    } else {
      JoinPorts("guard.", GUARD, |p.guards|, P("barrier", BARRIER));
    }
  }

  lemma FixedPorts(p: Plan, r: Ref)
    requires !r.RuleJoin? && !r.AuthorityJoin? && !r.GuardJoin?
    ensures PortsOk(InputsOf(p, r) + OutputsOf(r))
  {
    hide PortsOk, InputsOf, OutputsOf;
    var ports := InputsOf(p, r) + OutputsOf(r);
    FixedPortNames(p, r);
    if |ports| == 0 {
      NoPorts();
      assert ports == [];
    } else {
      OnePort(ports[0]);
      if |ports| == 1 {
        assert ports == [ports[0]];
      } else {
        MorePorts([ports[0]], ports[1]);
        if |ports| == 2 {
          assert ports == [ports[0]] + [ports[1]];
        } else {
          MorePorts([ports[0]] + [ports[1]], ports[2]);
          assert ports == [ports[0]] + [ports[1]] + [ports[2]];
        }
      }
    }
  }

  /** At most three ports, with distinct names that start with a letter. */
  ghost predicate ShortPorts(ports: seq<Port>) {
    && |ports| <= 3
    && (|ports| >= 1 ==> ports[0].name != "" && 'a' <= ports[0].name[0] <= 'z')
    && (|ports| >= 2 ==> ports[1].name != "" && 'a' <= ports[1].name[0] <= 'z' && ports[0].name != ports[1].name)
    && (|ports| == 3 ==> (&& ports[2].name != "" && 'a' <= ports[2].name[0] <= 'z'
                          && ports[0].name != ports[2].name && ports[1].name != ports[2].name))
  }

  lemma FixedPortNames(p: Plan, r: Ref)
    requires !r.RuleJoin? && !r.AuthorityJoin? && !r.GuardJoin?
    ensures ShortPorts(InputsOf(p, r) + OutputsOf(r))
  {
    hide ShortPorts, InputsOf, OutputsOf;
    if KindOf(r) < 9 { EarlyPortNames(p, r); } else { LatePortNames(p, r); }
  }

  lemma EarlyPortNames(p: Plan, r: Ref)
    requires !r.RuleJoin? && !r.AuthorityJoin? && KindOf(r) < 9
    ensures ShortPorts(InputsOf(p, r) + OutputsOf(r))
  {}

  lemma LatePortNames(p: Plan, r: Ref)
    requires !r.GuardJoin? && KindOf(r) >= 9
    ensures ShortPorts(InputsOf(p, r) + OutputsOf(r))
  {}

  lemma NoPorts()
    ensures PortsOk([])
  {}

  lemma NodeWellFormed(p: Plan, s: Slot)
    ensures NodeOf(p, s).WellFormed()
  {
    NameNotBlank(s.ref);
    PortsOfRef(p, s.ref);
    if s.ref.ExecutorDispatch? {
      LeadingLetter("capability.execute");
    }
  }

  lemma NamesDistinct(refs: seq<Ref>)
    requires forall i, j :: 0 <= i < j < |refs| ==> refs[i] != refs[j]
    ensures var names := Names(refs); forall i, j :: 0 <= i < j < |names| ==> names[i] != names[j]
  {
    forall i, j | 0 <= i < j < |refs| ensures Name(refs[i]) != Name(refs[j]) {
      if Name(refs[i]) == Name(refs[j]) { NameInjective(refs[i], refs[j]); }
    }
  }

  lemma JoinsWellFormed(p: Plan)
    requires p.rules != [] && p.guards != []
    ensures forall j :: j in Joins(p) ==> j.WellFormed()
  {
    NameNotBlank(RuleJoin);
    NameNotBlank(AuthorityJoin);
    NameNotBlank(GuardJoin);
    hide Name;
    NamesDistinct(RuleRefs(p));
    NamesDistinct([PolicyDecision] + ApprovalRefs(p));
    NamesDistinct(CriterionRefs(p));
  }

  // ---- typed edges ----

  lemma {:induction false} DistinctPort(ports: seq<Port>, n: nat, i: nat)
    requires i < n <= |ports| && forall k, l :: 0 <= k < l < |ports| ==> ports[k].name != ports[l].name
    ensures PortAmong(ports, n, ports[i].name) == Some(ports[i])
  {
    if i < n - 1 {
      DistinctPort(ports, n - 1, i);
    }
  }

  lemma RefPort(p: Plan, r: Ref)
    ensures forall i :: 0 <= i < |InputsOf(p, r)| ==> PortNamed(InputsOf(p, r), InputsOf(p, r)[i].name) == Some(InputsOf(p, r)[i])
    ensures forall i :: 0 <= i < |OutputsOf(r)| ==> PortNamed(OutputsOf(r), OutputsOf(r)[i].name) == Some(OutputsOf(r)[i])
  {
    var inputs, outputs, ports := InputsOf(p, r), OutputsOf(r), InputsOf(p, r) + OutputsOf(r);
    PortsOfRef(p, r);
    hide InputsOf, OutputsOf;
    assert forall i :: 0 <= i < |inputs| ==> inputs[i] == ports[i];
    assert forall i :: 0 <= i < |outputs| ==> outputs[i] == ports[|inputs| + i];
    forall i | 0 <= i < |inputs| ensures PortNamed(inputs, inputs[i].name) == Some(inputs[i]) {
      DistinctPort(inputs, |inputs|, i);
    }
    forall i, j | 0 <= i < j < |outputs| ensures outputs[i].name != outputs[j].name {
      assert ports[|inputs| + i].name != ports[|inputs| + j].name;
    }
    forall i | 0 <= i < |outputs| ensures PortNamed(outputs, outputs[i].name) == Some(outputs[i]) {
      DistinctPort(outputs, |outputs|, i);
    }
  }

  /** The ports an edge names exist and carry the same schema. */
  ghost predicate PortsMatch(p: Plan, a: Arc) {
    a.source_port != "" ==>
      var s, t := PortNamed(OutputsOf(a.source), a.source_port), PortNamed(InputsOf(p, a.target), a.target_port);
      s.Some? && t.Some? && s.value.schema == t.value.schema
  }

  /** Everything about an edge that does not depend on the rest of the graph. */
  ghost predicate ArcGood(p: Plan, a: Arc) {
    && PortsMatch(p, a)
    && PairIsValid(TypeOf(a.source), a.edge_type, TypeOf(a.target))
    && (a.source_port == "" <==> a.target_port == "") && a.pred.WellFormed()
  }

  /** An edge from the i-th output of its source to the j-th input of its target. */
  lemma LinkGood(p: Plan, a: Arc, i: nat, j: nat)
    requires i < |OutputsOf(a.source)| && OutputsOf(a.source)[i].name == a.source_port
    requires j < |InputsOf(p, a.target)| && InputsOf(p, a.target)[j].name == a.target_port
    requires OutputsOf(a.source)[i].schema == InputsOf(p, a.target)[j].schema
    requires PairIsValid(TypeOf(a.source), a.edge_type, TypeOf(a.target))
    requires a.source_port != "" && a.target_port != "" && a.pred.WellFormed()
    ensures ArcGood(p, a)
  {
    hide InputsOf, OutputsOf, TypeOf, PortNamed;
    RefPort(p, a.source);
    RefPort(p, a.target);
  }

  lemma SelectionArcsGood(p: Plan, i: nat)
    requires i < |p.rules|
    ensures ArcGood(p, IntentArc(i)) && ArcGood(p, RuleArc(i))
  {
    hide ArcGood;
    LinkGood(p, IntentArc(i), 0, 0);
    LinkGood(p, RuleArc(i), 0, i);
  }

  lemma ApprovalArcsGood(p: Plan, i: nat)
    requires i < |p.rules|
    ensures ArcGood(p, ReviewArc(i)) && ArcGood(p, ApprovedArc(i))
  {
    hide ArcGood;
    LinkGood(p, ReviewArc(i), 0, 0);
    LinkGood(p, ApprovedArc(i), 0, i + 1);
  }

  lemma GuardArcsGood(p: Plan, i: nat)
    requires i < |p.guards|
    ensures ArcGood(p, GuardArc(i)) && ArcGood(p, CriterionArc(p, p.guards[i], i))
  {
    hide ArcGood;
    LinkGood(p, GuardArc(i), 0, i);
    LinkGood(p, CriterionArc(p, p.guards[i], i), 0, 0);
  }

  lemma EvaluateArcGood(p: Plan, s: Spec)
    ensures ArcGood(p, EvaluateArc(p, s))
  {
    hide ArcGood;
    LinkGood(p, EvaluateArc(p, s), 0, 0);
  }

  lemma SnapshotArcGood(p: Plan, s: Spec)
    ensures ArcGood(p, SnapshotArc(p, s))
  {
    hide ArcGood;
    LinkGood(p, SnapshotArc(p, s), 0, 1);
  }

  lemma ReceiptArcGood(p: Plan, s: Spec)
    ensures ArcGood(p, ReceiptArc(p, s))
  {
    hide ArcGood;
    LinkGood(p, ReceiptArc(p, s), 0, 0);
  }

  lemma SpecArcsGood(p: Plan, s: Spec)
    ensures ArcGood(p, EvaluateArc(p, s)) && ArcGood(p, SnapshotArc(p, s)) && ArcGood(p, ReceiptArc(p, s))
  {
    hide ArcGood, EvaluateArc, SnapshotArc, ReceiptArc;
    EvaluateArcGood(p, s);
    SnapshotArcGood(p, s);
    ReceiptArcGood(p, s);
  }

  lemma SingleArcsGood(p: Plan)
    ensures ArcGood(p, OPENING[0]) && ArcGood(p, OPENING[1]) && ArcGood(p, OPENING[2])
    ensures ArcGood(p, RULE_TO_POLICY) && ArcGood(p, ACCEPTANCE) && ArcGood(p, DIRECT)
  {
    hide ArcGood;
    LinkGood(p, OPENING[0], 0, 0);
    LinkGood(p, OPENING[1], 0, 0);
    LinkGood(p, OPENING[2], 0, 0);
    LinkGood(p, RULE_TO_POLICY, 0, 0);
    LinkGood(p, ACCEPTANCE, 0, 0);
    assert InputsOf(p, AuthorityJoin)[0].name == "authority." + Decimal(0) == "authority.0";
    LinkGood(p, DIRECT, 1, 0);
  }

  lemma DispatchArcsGood(p: Plan)
    ensures ArcGood(p, EXECUTION[0]) && ArcGood(p, EXECUTION[1]) && ArcGood(p, EXECUTION[2]) && ArcGood(p, EXECUTION[3])
  {
    hide ArcGood;
    LinkGood(p, EXECUTION[0], 0, 1);
    LinkGood(p, EXECUTION[1], 0, 0);
    LinkGood(p, EXECUTION[2], 0, 0);
    LinkGood(p, EXECUTION[3], 0, 0);
  }

  lemma DispatchArcGood(p: Plan)
    ensures ArcGood(p, EXECUTION[4])
  {
    hide ArcGood;
    LinkGood(p, EXECUTION[4], 0, 0);
  }

  lemma ResultArcGood(p: Plan)
    ensures ArcGood(p, EXECUTION[5])
  {
    hide ArcGood;
    LinkGood(p, EXECUTION[5], 0, 0);
  }

  lemma RequestArcGood(p: Plan)
    ensures ArcGood(p, EXECUTION[8])
  {
    hide ArcGood;
    LinkGood(p, EXECUTION[8], 0, 0);
  }

  lemma RecoveryArcsGood(p: Plan)
    ensures ArcGood(p, EXECUTION[6]) && ArcGood(p, EXECUTION[7])
  {}

  lemma ExecutionGood(p: Plan)
    ensures forall i :: 0 <= i < 9 ==> ArcGood(p, EXECUTION[i])
  {
    hide ArcGood;
    DispatchArcsGood(p);
    DispatchArcGood(p);
    ResultArcGood(p);
    RequestArcGood(p);
    RecoveryArcsGood(p);
    forall i | 0 <= i < 9 ensures ArcGood(p, EXECUTION[i]) {
      assert i in {0, 1, 2, 3, 4, 5, 6, 7, 8};
    }
  }

  lemma ArcIsGood(p: Plan, a: Arc)
    requires ArcInto(p, a)
    ensures ArcGood(p, a)
  {
    IntoGroup(p, a);
    hide ArcGood, ArcInto, IntentArc, RuleArc, ReviewArc, ApprovedArc, GuardArc, EvaluateArc, SnapshotArc,
         ReceiptArc, CriterionArc;
    SingleArcsGood(p);
    ExecutionGood(p);
    if a in OPENING {
      var i :| 0 <= i < 3 && a == OPENING[i];
      assert i in {0, 1, 2};
    } else if a in EXECUTION {
      var i :| 0 <= i < 9 && a == EXECUTION[i];
    }
    forall i: nat | i < |p.rules|
      ensures ArcGood(p, IntentArc(i)) && ArcGood(p, RuleArc(i)) && ArcGood(p, ReviewArc(i)) && ArcGood(p, ApprovedArc(i))
    {
      SelectionArcsGood(p, i);
      ApprovalArcsGood(p, i);
    }
    forall i: nat | i < |p.guards| ensures ArcGood(p, GuardArc(i)) && ArcGood(p, CriterionArc(p, p.guards[i], i)) {
      GuardArcsGood(p, i);
    }
    forall s | s in p.specs
      ensures ArcGood(p, EvaluateArc(p, s)) && ArcGood(p, SnapshotArc(p, s)) && ArcGood(p, ReceiptArc(p, s))
    {
      SpecArcsGood(p, s);
    }
  }

  lemma ArcEdgeOk(p: Plan, c: Contract, a: Arc)
    requires ArcInto(p, a)
    ensures EdgeOk(Layout(p, c), EdgeOf(a))
  {
    ArcIsGood(p, a);
    ArcEdge(p, c, a);
    ArcKnown(p, a);
    hide ArcInto, HasRef, TypeOf, InputsOf, OutputsOf, Name;
    var s := Lookup(p, c, a.source);
    var t := Lookup(p, c, a.target);
  }

  lemma LayoutWellFormed(p: Plan, c: Contract)
    requires p.rules != [] && p.guards != []
    ensures WellFormed(Layout(p, c))
  {
    JoinsWellFormed(p);
    forall n | n in Nodes(p) ensures n.WellFormed() {
      var s := NodeSlot(p, n);
      NodeWellFormed(p, s);
    }
    forall e | e in Edges(p) ensures e.WellFormed() {
      var a := EdgeArc(p, e);
      NameNotBlank(a.source);
      NameNotBlank(a.target);
      hide Name, ArcInto;
      ArcIsGood(p, a);
    }
  }

}
