/** The static check accepts exactly the compiled graphs whose tokens are distinct. */
module ControlGraphAccepted {
  import opened GraphSchema
  import opened Text
  import opened Paths
  import opened Search
  import opened Tarjan
  import opened Manifest
  import opened StaticCheck
  import opened Monitor
  import opened ControlGraph
  import opened ControlGraphShape
  import opened ControlGraphValid

  /** What the compiler guarantees of the plans it lays out. */
  ghost predicate PlanOk(p: Plan) {
    && p.rules != [] && p.guards != []
    && forall g :: g in p.guards ==> Spec(g, g) in p.specs
  }

  // ---- no cycle ----

  /** Every edge leads to a position of lower rank. */
  function Rank(kind: nat): nat {
    if kind < 2 then 21 - kind
    else if kind < 12 then 22 - kind
    else if kind == 12 then 2
    else if kind < 20 then 25 - kind
    else 1
  }

  lemma ArcRank(p: Plan, a: Arc)
    requires ArcInto(p, a)
    ensures Rank(KindOf(a.source)) > Rank(KindOf(a.target))
  {
    if KindOf(a.target) < 9 { EarlyArcRank(p, a); }
    else if KindOf(a.target) < 16 { MiddleArcRank(p, a); }
    else if a.target.EvaluatorOf? || a.target.ReceiptOf? { SpecArcRank(p, a); }
    else { LateArcRank(p, a); }
  }

  lemma EarlyArcRank(p: Plan, a: Arc)
    requires ArcInto(p, a) && KindOf(a.target) < 9
    ensures Rank(KindOf(a.source)) > Rank(KindOf(a.target))
  {}

  lemma MiddleArcRank(p: Plan, a: Arc)
    requires ArcInto(p, a) && 9 <= KindOf(a.target) < 16
    ensures Rank(KindOf(a.source)) > Rank(KindOf(a.target))
  {}

  lemma SpecArc(p: Plan, a: Arc) returns (s: Spec)
    requires ArcInto(p, a) && (a.target.EvaluatorOf? || a.target.ReceiptOf?)
    ensures s in p.specs && (a == EvaluateArc(p, s) || a == SnapshotArc(p, s) || a == ReceiptArc(p, s))
  {
    hide EvaluateArc, SnapshotArc, ReceiptArc, Plan.Tok;
    if a.target.EvaluatorOf? {
      s :| s in p.specs && (a == EvaluateArc(p, s) || a == SnapshotArc(p, s));
    } else {
      s :| s in p.specs && a == ReceiptArc(p, s);
    }
  }

  lemma SpecArcRank(p: Plan, a: Arc)
    requires ArcInto(p, a) && (a.target.EvaluatorOf? || a.target.ReceiptOf?)
    ensures Rank(KindOf(a.source)) > Rank(KindOf(a.target))
  {
    hide ArcInto;
    var s := SpecArc(p, a);
  }

  lemma LateArcRank(p: Plan, a: Arc)
    requires ArcInto(p, a) && KindOf(a.target) >= 18
    ensures Rank(KindOf(a.source)) > Rank(KindOf(a.target))
  {}

  lemma NoCycle(p: Plan, c: Contract)
    ensures Acyclic(Forward(Layout(p, c)))
  {
    var g := Forward(Layout(p, c));
    var rank := (s: string) => Rank(Kind(s));
    forall x, y | HasEdge(g, x, y) ensures rank(x) > rank(y) {
      var a := StepArc(p, c, x, y);
      ArcRank(p, a);
      KindOfName(a.source);
      KindOfName(a.target);
    }
    RankAcyclic(g, rank);
  }

  // ---- every node is reachable ----

  /** An edge into a position other than the entry. */
  lemma Parent(p: Plan, r: Ref) returns (a: Arc)
    requires PlanOk(p) && HasRef(p, r) && r != TaskContract
    ensures ArcInto(p, a) && a.target == r
  {
    match r {
      case PrincipalContract => a := OPENING[0];
      case ActionIntent => a := OPENING[1];
      case SnapshotRequest => a := OPENING[2];
      case ActionRule(i) => a := IntentArc(i);
      case RuleJoin => a := RuleArc(0);
      case PolicyDecision => a := RULE_TO_POLICY;
      case ApprovalRule(i) => a := ReviewArc(i);
      case AuthorityJoin => a := DIRECT;
      case CapabilityExecute => a := EXECUTION[0];
      case OperationPrepared => a := EXECUTION[2];
      case ExecutorDispatch => a := EXECUTION[3];
      case ExecutorResult => a := EXECUTION[4];
      case ArtifactManifest => a := EXECUTION[5];
      case OperationReconcile => a := EXECUTION[6];
      case EscalateDecision => a := EXECUTION[7];
      case SnapshotMaterialized => a := EXECUTION[8];
      case EvaluatorOf(t) => var s :| s in p.specs && t == p.Tok(s.check); a := EvaluateArc(p, s);
      case ReceiptOf(t) => var s := ReceiptSpec(p, t); a := ReceiptArc(p, s);
      case CriterionOf(i) => a := CriterionArc(p, p.guards[i], i);
      case GuardJoin => a := GuardArc(0);
      case AcceptDecision => a := ACCEPTANCE;
    }
  }

  lemma ReceiptSpec(p: Plan, t: string) returns (s: Spec)
    requires PlanOk(p) && HasRef(p, ReceiptOf(t))
    ensures s in p.specs && p.Tok(s.receipt) == t
  {
    var n :| n in p.ReceiptNames() && t == p.Tok(n);
    if n in p.guards {
      s := Spec(n, n);
    } else {
      var i :| 0 <= i < |p.specs| && Receipts(p.specs)[i] == n;
      s := p.specs[i];
    }
  }

  lemma ReachedFromTask(p: Plan, c: Contract, r: Ref)
    requires PlanOk(p) && HasRef(p, r)
    ensures Reach(Forward(Layout(p, c)), Name(TaskContract), Name(r))
    decreases 22 - Rank(KindOf(r))
  {
    hide Reach, ArcInto, HasRef, Forward, Name, PlanOk;
    var g := Forward(Layout(p, c));
    if r == TaskContract {
      ReachSelf(g, Name(r));
    } else {
      var a := Parent(p, r);
      ArcRank(p, a);
      ArcKnown(p, a);
      ReachedFromTask(p, c, a.source);
      ArcIncoming(p, c, a);
      ReachStep(g, Name(TaskContract), Name(a.source), Name(r));
    }
  }

  lemma OnlyEntry(p: Plan, c: Contract)
    requires PlanOk(p)
    ensures Entries(Layout(p, c)) == {Name(TaskContract)}
  {
    var m := Layout(p, c);
    hide ArcInto, HasRef, PlanOk, Name;
    forall id | id in Entries(m) ensures id == Name(TaskContract) {
      var r := IdHasRef(p, c, id);
      if r != TaskContract {
        var a := Parent(p, r);
        ArcIncoming(p, c, a);
      }
    }
    TaskHasNoEdge(p, c);
  }

  lemma TaskHasNoEdge(p: Plan, c: Contract)
    ensures Name(TaskContract) in Entries(Layout(p, c))
  {
    IdsAre(p, c, TaskContract);
    var incoming := Incoming(Layout(p, c), Edges(p), Name(TaskContract));
    if incoming != [] {
      var a := IncomingArc(p, c, TaskContract, incoming[0]);
      assert false;
    }
  }

  /** An edge out of a position that is not declared an end. */
  lemma Child(p: Plan, r: Ref) returns (a: Arc)
    requires PlanOk(p) && HasRef(p, r) && EffectOf(r).ReadOnly? && !r.ReceiptOf?
    ensures ArcInto(p, a) && a.source == r
  {
    SingleArcsInto(p);
    hide ArcInto;
    match r {
      case TaskContract => a := OPENING[0];
      case PrincipalContract => a := EXECUTION[0];
      case ActionIntent => RuleArcsInto(p, 0); a := IntentArc(0);
      case ActionRule(i) => RuleArcsInto(p, i); a := RuleArc(i);
      case RuleJoin => a := RULE_TO_POLICY;
      case PolicyDecision => a := DIRECT;
      case ApprovalRule(i) => RuleArcsInto(p, i); a := ApprovedArc(i);
      case AuthorityJoin => a := EXECUTION[1];
      case CapabilityExecute => a := EXECUTION[2];
      case OperationPrepared => a := EXECUTION[3];
      case ExecutorResult => a := EXECUTION[6];
      case OperationReconcile => a := EXECUTION[7];
      case SnapshotRequest => a := EXECUTION[8];
      case SnapshotMaterialized => var s := Spec(p.guards[0], p.guards[0]); SpecArcsInto(p, s); a := SnapshotArc(p, s);
      case ArtifactManifest => var s := Spec(p.guards[0], p.guards[0]); SpecArcsInto(p, s); a := EvaluateArc(p, s);
      case EvaluatorOf(t) => var s :| s in p.specs && t == p.Tok(s.check); SpecArcsInto(p, s); a := ReceiptArc(p, s);
      case CriterionOf(i) => GuardArcsInto(p, i); a := GuardArc(i);
      case GuardJoin => a := ACCEPTANCE;
    }
  }

  lemma SlotReachOk(p: Plan, c: Contract, s: Slot)
    requires PlanOk(p) && SlotOk(p, s)
    ensures NodeReachOk(Layout(p, c), NodeOf(p, s))
  {
    SlotRef(p, s);
    OnlyEntry(p, c);
    ReachedFromTask(p, c, s.ref);
    if EffectOf(s.ref).ReadOnly? && !s.ref.ReceiptOf? {
      var a := Child(p, s.ref);
      ArcIncoming(p, c, a);
    }
  }

  // ---- controls ----

  lemma NoControls(p: Plan, s: Slot)
    ensures var n := NodeOf(p, s);
            n.Meta("approval_required") == "" && n.Meta("human_control") == "" && n.Meta("trust") == ""
  {}

  /** An edge of the graph walked backwards. */
  lemma ArcBackward(p: Plan, c: Contract, a: Arc, kinds: set<EdgeType>)
    requires ArcInto(p, a) && a.edge_type in kinds
    ensures HasEdge(Backward(Layout(p, c), kinds), Name(a.target), Name(a.source))
    ensures exists e :: e in Incoming(Layout(p, c), Edges(p), Name(a.target)) && e.edge_type in kinds
  {
    hide ArcInto, Name, Backward;
    ArcIncoming(p, c, a);
    ArcEdge(p, c, a);
    BackwardEdges(Layout(p, c), kinds);
    assert EdgeOf(a).edge_type in kinds;
  }

  lemma DispatchAuthorised(p: Plan, c: Contract)
    ensures var m, d := Layout(p, c), Name(ExecutorDispatch);
            && (exists e :: e in Incoming(m, m.edges, d) && e.edge_type in AUTHORITY_EDGES)
            && ReachesGoal(Backward(m, AUTHORITY_EDGES), d, OfType(m, Capability, d))
  {
    hide ArcInto, Name, Backward, Reach, OfType, Incoming, Layout;
    SingleArcsInto(p);
    ArcBackward(p, c, EXECUTION[3], AUTHORITY_EDGES);
    LayoutEdges(p, c);
    CapabilityBehind(p, c);
    CapabilityTyped(p, c);
  }

  lemma LayoutEdges(p: Plan, c: Contract)
    ensures Layout(p, c).edges == Edges(p)
  {
    hide Edges;
  }

  lemma CapabilityBehind(p: Plan, c: Contract)
    ensures Reach(Backward(Layout(p, c), AUTHORITY_EDGES), Name(ExecutorDispatch), Name(CapabilityExecute))
  {
    hide ArcInto, Name, Backward, Reach, Layout;
    var b := Backward(Layout(p, c), AUTHORITY_EDGES);
    SingleArcsInto(p);
    ArcBackward(p, c, EXECUTION[3], AUTHORITY_EDGES);
    ArcBackward(p, c, EXECUTION[2], AUTHORITY_EDGES);
    ReachEdge(b, Name(ExecutorDispatch), Name(OperationPrepared));
    ReachStep(b, Name(ExecutorDispatch), Name(OperationPrepared), Name(CapabilityExecute));
  }

  lemma CapabilityTyped(p: Plan, c: Contract)
    ensures Name(CapabilityExecute) in OfType(Layout(p, c), Capability, Name(ExecutorDispatch))
  {
    hide Name;
    if Name(CapabilityExecute) == Name(ExecutorDispatch) { NameInjective(CapabilityExecute, ExecutorDispatch); }
    var s := Lookup(p, c, CapabilityExecute);
  }

  lemma DispatchRecoverable(p: Plan, c: Contract)
    ensures ReachesGoal(Forward(Layout(p, c)), Name(ExecutorDispatch), Recoveries(Layout(p, c)))
  {
    var g := Forward(Layout(p, c));
    SingleArcsInto(p);
    hide ArcInto, Name, Forward, Reach;
    ArcIncoming(p, c, EXECUTION[4]);
    ArcIncoming(p, c, EXECUTION[6]);
    ReachEdge(g, Name(ExecutorDispatch), Name(ExecutorResult));
    ReachStep(g, Name(ExecutorDispatch), Name(ExecutorResult), Name(OperationReconcile));
    var s := Lookup(p, c, OperationReconcile);
    assert Name(OperationReconcile) in Recoveries(Layout(p, c));
  }

  // ---- the accept decision ----

  lemma IncomingLast(m: Manifest, front: seq<Edge>, e: Edge)
    requires Known(m, e) && forall f :: f in front ==> f.target != e.target
    ensures Incoming(m, front + [e], e.target) == [e]
  {
    NoIncoming(m, front, e.target);
    assert (front + [e])[..|front|] == front;
  }

  lemma {:induction false} NoIncoming(m: Manifest, edges: seq<Edge>, id: string)
    requires forall f :: f in edges ==> f.target != id
    ensures Incoming(m, edges, id) == []
  {
    if edges != [] {
      NoIncoming(m, edges[..|edges| - 1], id);
    }
  }

  lemma OnlyBarrier(p: Plan, c: Contract)
    ensures Incoming(Layout(p, c), Edges(p), ACCEPT) == [EdgeOf(ACCEPTANCE)]
  {
    SingleArcsInto(p);
    hide ArcInto, FrontArcs;
    var front := ArcEdges(FrontArcs(p));
    assert Edges(p) == front + [EdgeOf(ACCEPTANCE)];
    assert Name(AcceptDecision) == ACCEPT;
    hide Name;
    forall e | e in front ensures e.target != ACCEPT {
      var i :| 0 <= i < |front| && front[i] == e;
      var a := FrontArcs(p)[i];
      ArcsAre(p, a);
      if Name(a.target) == ACCEPT { NameInjective(a.target, AcceptDecision); }
    }
    ArcEdge(p, c, ACCEPTANCE);
    IncomingLast(Layout(p, c), front, EdgeOf(ACCEPTANCE));
  }

  lemma CriterionNames(p: Plan)
    ensures forall id :: id in Names(CriterionRefs(p)) <==> exists i: nat :: i < |p.guards| && id == Name(CriterionOf(i))
  {
    var names := Names(CriterionRefs(p));
    forall i: nat | i < |p.guards| ensures Name(CriterionOf(i)) in names { assert names[i] == Name(CriterionOf(i)); }
    forall id | id in names ensures exists i: nat :: i < |p.guards| && id == Name(CriterionOf(i)) {
      var i :| 0 <= i < |names| && names[i] == id;
      assert id == Name(CriterionOf(i));
    }
  }

  lemma GuardJoinFirst(p: Plan)
    ensures FirstJoin(Joins(p), Name(GuardJoin)) == Some(Joins(p)[2])
  {
    KindOfName(RuleJoin);
    KindOfName(AuthorityJoin);
    KindOfName(GuardJoin);
    hide Name, Names;
    var js := Joins(p);
    assert js[1..][0] == js[1] && js[1..][1..] == js[2..] && js[2..][0] == js[2];
    assert FirstJoin(js[2..], Name(GuardJoin)) == Some(js[2]);
    assert FirstJoin(js[1..], Name(GuardJoin)) == Some(js[2]);
  }

  lemma OneBarrier(p: Plan, c: Contract)
    ensures Barriers(Layout(p, c), [EdgeOf(ACCEPTANCE)]) == [EdgeOf(ACCEPTANCE)]
  {
    hide Name, ById;
    var m, e := Layout(p, c), EdgeOf(ACCEPTANCE);
    var s := Lookup(p, c, GuardJoin);
    assert [e][..0] == [];
    assert Barriers(m, [e][..0]) == [];
  }

  /** The barrier of the accept decision is the join over the criteria. */
  lemma AcceptBarrier(p: Plan, c: Contract, n: Node)
    requires p.guards != [] && n.node_id == ACCEPT && n.required_guards == p.guards
    ensures BarrierOk(Layout(p, c), n) && Barrier(Layout(p, c), n) == Joins(p)[2]
  {
    hide Name, Names, FirstJoin, Barriers, Incoming, Edges;
    OnlyBarrier(p, c);
    OneBarrier(p, c);
    GuardJoinFirst(p);
  }

  lemma GuardOf(p: Plan, c: Contract, i: nat)
    requires i < |p.guards|
    ensures Name(CriterionOf(i)) in ById(Nodes(p)) && ById(Nodes(p))[Name(CriterionOf(i))].Meta("guard") == p.guards[i]
  {
    var s := Lookup(p, c, CriterionOf(i));
  }

  /** The nodes from which the accept decision is reached only through a criterion. */
  function Before(p: Plan, c: Contract): set<string> {
    Ids(Layout(p, c)) - {Name(GuardJoin), ACCEPT} - set id | id in Names(CriterionRefs(p))
  }

  lemma AcceptNamed()
    ensures Name(AcceptDecision) == ACCEPT
  {}

  lemma BeforeClosed(p: Plan, c: Contract, x: string, y: string)
    requires x in Before(p, c) && HasEdge(Forward(Layout(p, c)), x, y)
    ensures y in Before(p, c) || y in Names(CriterionRefs(p))
  {
    hide Name, Forward, Names, CriterionRefs, HasRef;
    ForwardEdges(Layout(p, c));
    CriterionNames(p);
    var a := StepArc(p, c, x, y);
    AcceptNamed();
    if y == Name(GuardJoin) {
      NameInjective(a.target, GuardJoin);
    }
    if y == ACCEPT {
      NameInjective(a.target, AcceptDecision);
    }
  }

  lemma TaskApart(p: Plan)
    ensures Name(TaskContract) != Name(GuardJoin) && Name(TaskContract) != ACCEPT
    ensures Name(TaskContract) !in Names(CriterionRefs(p))
  {
    AcceptNamed();
    CriterionNames(p);
    hide Name, Names, CriterionRefs;
    forall r: Ref | Name(r) == Name(TaskContract) ensures r == TaskContract { NameInjective(r, TaskContract); }
  }

  lemma EntryBefore(p: Plan, c: Contract, start: string)
    requires PlanOk(p) && start in Entries(Layout(p, c))
    ensures start in Before(p, c)
  {
    hide Name, Names, CriterionRefs, Layout, PlanOk;
    OnlyEntry(p, c);
    TaskApart(p);
    assert start in Ids(Layout(p, c));
  }

  /** Every path to the accept decision passes a criterion. */
  lemma NoBypass(p: Plan, c: Contract, start: string)
    requires PlanOk(p) && start in Entries(Layout(p, c))
    ensures !ReachAvoiding(Forward(Layout(p, c)), start, ACCEPT, set id | id in Names(CriterionRefs(p)))
  {
    var g := Forward(Layout(p, c));
    var criteria := set id | id in Names(CriterionRefs(p));
    EntryBefore(p, c, start);
    assert ACCEPT !in Before(p, c);
    hide Before, Forward, Names, ReachAvoiding, HasEdge;
    forall x, y | x in Before(p, c) && HasEdge(g, x, y) ensures y in Before(p, c) || y in criteria {
      BeforeClosed(p, c, x, y);
    }
    NotReachableWithout([start], ACCEPT, criteria, g, Before(p, c));
    assert start in [start];
  }

  lemma AcceptNodeOk(p: Plan, c: Contract, n: Node)
    requires PlanOk(p) && n.node_id == ACCEPT && n.required_guards == p.guards
    ensures AcceptOk(Layout(p, c), n)
  {
    hide ReachAvoiding, Forward, Entries, ById, Name, BarrierOk, Incoming;
    var m := Layout(p, c);
    AcceptBarrier(p, c, n);
    CriterionNames(p);
    var guards := set id | id in Barrier(m, n).predecessors;
    forall i: nat | i < |p.guards| ensures Name(CriterionOf(i)) in ById(m.nodes)
        && ById(m.nodes)[Name(CriterionOf(i))].Meta("guard") == p.guards[i] && Name(CriterionOf(i)) in guards {
      GuardOf(p, c, i);
    }
    forall r | r in n.required_guards ensures exists id :: id in guards && id in ById(m.nodes) && ById(m.nodes)[id].Meta("guard") == r {
      var i :| 0 <= i < |p.guards| && p.guards[i] == r;
      assert Name(CriterionOf(i)) in guards;
    }
    forall s | s in Entries(m) ensures !ReachAvoiding(Forward(m), s, n.node_id, guards) {
      NoBypass(p, c, s);
    }
  }

  lemma SlotRolesOk(p: Plan, c: Contract, s: Slot)
    requires PlanOk(p) && SlotOk(p, s)
    ensures NodeRolesOk(Layout(p, c), NodeOf(p, s))
  {
    NoControls(p, s);
    if s.ref.ExecutorDispatch? {
      DispatchAuthorised(p, c);
      DispatchRecoverable(p, c);
    }
    if IsAccept(NodeOf(p, s)) {
      NameInjective(s.ref, AcceptDecision);
      AcceptNodeOk(p, c, NodeOf(p, s));
    }
  }

  // ---- joins ----

  lemma JoinInputsOk(p: Plan, c: Contract, r: Ref, refs: seq<Ref>)
    requires TypeOf(r) == JoinNode && HasRef(p, r)
    requires forall a :: ArcInto(p, a) && a.target == r ==> a.edge_type == Satisfies && a.source in refs
    requires forall q :: q in refs ==> exists a :: ArcInto(p, a) && a.target == r && a.edge_type == Satisfies && a.source == q
    ensures forall policy, threshold :: JoinOk(Layout(p, c), Join(Name(r), Names(refs), policy, threshold))
  {
    hide ArcInto, Name, HasRef, Incoming, Sources, TypeOf;
    var m := Layout(p, c);
    var s := Lookup(p, c, r);
    var incoming := Incoming(m, m.edges, Name(r));
    var names := Names(refs);
    forall id | id in Sources(incoming, {Satisfies}) ensures id in names {
      var e :| e in incoming && e.source == id;
      var a := IncomingArc(p, c, r, e);
      var i :| 0 <= i < |refs| && refs[i] == a.source;
      assert names[i] == id;
    }
    forall id | id in names ensures id in Sources(incoming, {Satisfies}) {
      var i :| 0 <= i < |names| && names[i] == id;
      assert refs[i] in refs;
      var a :| ArcInto(p, a) && a.target == r && a.edge_type == Satisfies && a.source == refs[i];
      ArcIncoming(p, c, a);
    }
  }

  lemma RuleJoinOk(p: Plan, c: Contract)
    ensures JoinOk(Layout(p, c), Joins(p)[0])
  {
    hide JoinOk, Layout, Name, Names;
    IndexedRefs(p);
    forall q | q in RuleRefs(p)
      ensures exists a :: ArcInto(p, a) && a.target == RuleJoin && a.edge_type == Satisfies && a.source == q
    {
      assert ArcInto(p, RuleArc(q.index));
    }
    JoinInputsOk(p, c, RuleJoin, RuleRefs(p));
  }

  lemma AuthoritySources(p: Plan, q: Ref)
    requires q in [PolicyDecision] + ApprovalRefs(p)
    ensures exists a :: ArcInto(p, a) && a.target == AuthorityJoin && a.edge_type == Satisfies && a.source == q
  {
    IndexedRefs(p);
    if q == PolicyDecision { assert ArcInto(p, DIRECT); } else { assert ArcInto(p, ApprovedArc(q.index)); }
  }

  lemma IntoAuthority(p: Plan, a: Arc)
    requires ArcInto(p, a) && a.target == AuthorityJoin
    ensures a.edge_type == Satisfies && a.source in [PolicyDecision] + ApprovalRefs(p)
  {
    IndexedRefs(p);
    var refs := [PolicyDecision] + ApprovalRefs(p);
    assert refs[0] in refs && forall q :: q in ApprovalRefs(p) ==> q in refs;
  }

  lemma AuthorityJoinOk(p: Plan, c: Contract)
    ensures JoinOk(Layout(p, c), Joins(p)[1])
  {
    hide JoinOk, Layout, Name, Names, ArcInto, ApprovalRefs;
    var refs := [PolicyDecision] + ApprovalRefs(p);
    forall q | q in refs
      ensures exists a :: ArcInto(p, a) && a.target == AuthorityJoin && a.edge_type == Satisfies && a.source == q {
      AuthoritySources(p, q);
    }
    forall a | ArcInto(p, a) && a.target == AuthorityJoin ensures a.edge_type == Satisfies && a.source in refs {
      IntoAuthority(p, a);
    }
    AuthorityLaid(p);
    JoinInputsOk(p, c, AuthorityJoin, refs);
  }

  lemma AuthorityLaid(p: Plan)
    ensures HasRef(p, AuthorityJoin)
  {}

  lemma GuardJoinOk(p: Plan, c: Contract)
    ensures JoinOk(Layout(p, c), Joins(p)[2])
  {
    hide JoinOk, Layout, Name, Names;
    IndexedRefs(p);
    forall q | q in CriterionRefs(p)
      ensures exists a :: ArcInto(p, a) && a.target == GuardJoin && a.edge_type == Satisfies && a.source == q
    {
      assert ArcInto(p, GuardArc(q.index));
    }
    JoinInputsOk(p, c, GuardJoin, CriterionRefs(p));
  }

  lemma JoinsOk(p: Plan, c: Contract)
    ensures forall j :: j in Joins(p) ==> JoinOk(Layout(p, c), j)
  {
    RuleJoinOk(p, c);
    AuthorityJoinOk(p, c);
    GuardJoinOk(p, c);
  }

  // ---- the theorem ----

  lemma SlotMemoryOk(p: Plan, c: Contract, s: Slot, parse: string -> Option<int>)
    ensures MemoryOk(Layout(p, c), NodeOf(p, s), parse)
  {
    assert TypeOf(s.ref) != Memory;
  }

  /** The static check accepts a laid out graph exactly when its tokens are distinct. */
  lemma LayoutAccepted(p: Plan, c: Contract, parse: string -> Option<int>)
    requires PlanOk(p)
    ensures Accepted(Layout(p, c), parse) <==> TokensDistinct(p)
  {
    hide UniqueIds, EdgeOk, Entries, NodeReachOk, NodeRolesOk, JoinOk, TrustOk, MemoryOk, Forward, Name, SlotOk,
         ArcInto, PlanOk, CycleOk, IsCyclicComponent;
    var m := Layout(p, c);
    IdsUnique(p, c);
    OnlyEntry(p, c);
    NoCycle(p, c);
    JoinsOk(p, c);
    forall e | e in m.edges ensures EdgeOk(m, e) {
      var a := EdgeArc(p, e);
      ArcEdgeOk(p, c, a);
    }
    forall n | n in m.nodes ensures NodeReachOk(m, n) && NodeRolesOk(m, n) && TrustOk(m, n) && MemoryOk(m, n, parse) {
      var s := NodeSlot(p, n);
      SlotReachOk(p, c, s);
      SlotRolesOk(p, c, s);
      SlotTrustOk(p, c, s);
      SlotMemoryOk(p, c, s, parse);
    }
    NoComponents(Forward(m));
  }

  lemma NoComponents(g: Graph)
    requires Acyclic(g)
    ensures forall c :: !IsCyclicComponent(g, c)
  {}

  lemma SlotTrustOk(p: Plan, c: Contract, s: Slot)
    ensures TrustOk(Layout(p, c), NodeOf(p, s))
  {
    NoControls(p, s);
  }

  lemma {:induction false} AddedKeepsBase(specs: seq<Spec>, planned: seq<Spec>)
    requires AddPlanned(specs, planned).Some?
    ensures forall s :: s in specs ==> s in AddPlanned(specs, planned).value
    decreases planned
  {
    if planned != [] {
      AddedKeepsBase(if planned[0].check in Checks(specs) then specs else specs + [planned[0]], planned[1..]);
    }
  }

  lemma CompilerPlanOk(alnum: char -> bool, c: Contract, planned: seq<Spec>)
    requires c.WellFormed() && PlanOf(alnum, c, planned).Some?
    ensures PlanOk(PlanOf(alnum, c, planned).value)
  {
    var names := Dedupe(Flatten(c.required_verifiers)) + c.Guards();
    AddedKeepsBase(BaseSpecs(c), planned);
    forall g | g in c.Guards() ensures Spec(g, g) in BaseSpecs(c) {
      assert g in names;
      var i :| 0 <= i < |names| && names[i] == g;
      assert BaseSpecs(c)[i] == Spec(g, g);
    }
  }

  /** When compilation succeeds: planned receipts are named, distinct checks and receipt types keep
      distinct tokens, and the profile digest, if present, has the length of a digest. */
  predicate Compilable(alnum: char -> bool, c: Contract, planned: seq<Spec>) {
    && (forall s :: s in planned ==> !Blank(s.check) && !Blank(s.receipt))
    && PlanOf(alnum, c, planned).Some?
    && TokensDistinct(PlanOf(alnum, c, planned).value)
    && (c.profile_digest == "" || |c.profile_digest| == 64)
  }

  lemma {:induction false} NamedPlan(specs: seq<Spec>, planned: seq<Spec>)
    ensures AddPlanned(specs, planned).Some? <==> forall s :: s in planned ==> !Blank(s.check) && !Blank(s.receipt)
    decreases planned
  {
    if planned != [] {
      assert planned == [planned[0]] + planned[1..];
      NamedPlan(if planned[0].check in Checks(specs) then specs else specs + [planned[0]], planned[1..]);
    }
  }

  lemma {:induction false} AddedExtends(specs: seq<Spec>, planned: seq<Spec>)
    requires AddPlanned(specs, planned).Some?
    ensures specs <= AddPlanned(specs, planned).value
    decreases planned
  {
    if planned != [] {
      AddedExtends(if planned[0].check in Checks(specs) then specs else specs + [planned[0]], planned[1..]);
    }
  }

  /** A contract that names one of its guards as a required verifier does not compile. */
  lemma GuardAsVerifier(alnum: char -> bool, c: Contract, planned: seq<Spec>, guard: string)
    requires guard in Flatten(c.required_verifiers) && guard in c.Guards()
    ensures !Compilable(alnum, c, planned)
  {
    hide Token, Dedupe;
    if PlanOf(alnum, c, planned).Some? {
      var verifiers, specs := Dedupe(Flatten(c.required_verifiers)), PlanOf(alnum, c, planned).value.specs;
      AddedExtends(BaseSpecs(c), planned);
      var i :| 0 <= i < |verifiers| && verifiers[i] == guard;
      var j :| 0 <= j < |c.Guards()| && c.Guards()[j] == guard;
      assert BaseSpecs(c)[i].check == BaseSpecs(c)[|verifiers| + j].check == guard;
      assert specs[i].check == specs[|verifiers| + j].check;
    }
  }

  /** A contract its constructor accepts and no set of planned receipts compiles. */
  lemma RefusedContract(alnum: char -> bool, planned: seq<Spec>) returns (c: Contract)
    ensures c.WellFormed() && !Compilable(alnum, c, planned)
  {
    c := Contract(ZERO_DIGEST, "", ["tests"], [], [Rule("shell", "write", "/")], [["tests"]], map[]);
    assert c.required_verifiers[1..] == [] && Flatten(c.required_verifiers) == ["tests"] + Flatten([]);
    GuardAsVerifier(alnum, c, planned, "tests");
  }

  lemma LayoutDigest(p: Plan, c: Contract)
    ensures |Layout(p, c).profile_digest| == 64 <==> c.profile_digest == "" || |c.profile_digest| == 64
  {}

  lemma PlanNonEmpty(p: Plan)
    requires PlanOk(p)
    ensures p.rules != [] && p.guards != []
  {}

  /** Compilation with its closing self-check: it returns the laid out graph, which every
      constructor and the static check accept, or raises. */
  method Compile(alnum: char -> bool, c: Contract, planned: seq<Spec>, parse: string -> Option<int>)
    returns (r: Option<Manifest>)
    requires c.WellFormed()
    ensures r.Some? <==> Compilable(alnum, c, planned)
    ensures r.Some? ==> && r.value == Layout(PlanOf(alnum, c, planned).value, c)
                        && WellFormed(r.value) && Accepted(r.value, parse)
  {
    hide TokensDistinct, Accepted, WellFormed, BaseSpecs, PlanOk, Layout, AddPlanned, Contract.WellFormed;
    NamedPlan(BaseSpecs(c), planned);
    var plan := PlanOf(alnum, c, planned);
    if plan.None? {
      return None;
    }
    CompilerPlanOk(alnum, c, planned);
    LayoutDigest(plan.value, c);
    var p := plan.value;
    PlanNonEmpty(p);
    LayoutWellFormed(p, c);
    LayoutAccepted(p, c, parse);
    var m := Layout(p, c);
    if |m.profile_digest| != 64 {
      return None;
    }
    var v := Validate(m, parse);
    if v == Report([]) {
      r := Some(m);
    } else {
      r := None;
    }
  }
}
