/** The nodes and edges of a compiled control graph, by position instead of by name. */
module ControlGraphShape {
  import opened Manifest
  import opened ControlGraph

  /** The positions a plan lays out. */
  ghost predicate HasRef(p: Plan, r: Ref) {
    match r
    case ActionRule(i) => i < |p.rules|
    case ApprovalRule(i) => i < |p.rules|
    case CriterionOf(i) => i < |p.guards|
    case EvaluatorOf(t) => exists s :: s in p.specs && t == p.Tok(s.check)
    case ReceiptOf(t) => exists n :: n in p.ReceiptNames() && t == p.Tok(n)
    case _ => true
  }

  lemma FixedSlots(refs: seq<Ref>)
    ensures forall s :: s in Fixed(refs) <==> s.ref in refs && s.name == ""
  {
    forall s: Slot | s.ref in refs && s.name == "" ensures s in Fixed(refs) {
      var i :| 0 <= i < |refs| && refs[i] == s.ref;
      assert Fixed(refs)[i] == s;
    }
  }

  /** The slot of a position. */
  ghost predicate SlotOk(p: Plan, s: Slot) {
    match s.ref
    case EvaluatorOf(t) => t == p.Tok(s.name) && exists k :: k in p.specs && k.check == s.name
    case ReceiptOf(t) => t == p.Tok(s.name) && s.name in p.ReceiptNames()
    case CriterionOf(i) => i < |p.guards| && s.name == p.guards[i]
    case _ => HasRef(p, s.ref) && s.name == ""
  }

  lemma EvaluatorSlotsAre(p: Plan)
    ensures forall s :: s in EvaluatorSlots(p) <==> s.ref.EvaluatorOf? && SlotOk(p, s)
  {
    hide Plan.Tok;
    forall s: Slot | s.ref.EvaluatorOf? && SlotOk(p, s) ensures s in EvaluatorSlots(p) {
      var i :| 0 <= i < |p.specs| && p.specs[i].check == s.name;
      assert EvaluatorSlots(p)[i] == s;
    }
  }

  lemma ReceiptSlotsAre(p: Plan)
    ensures forall s :: s in ReceiptSlots(p) <==> s.ref.ReceiptOf? && SlotOk(p, s)
  {
    hide Plan.Tok, Plan.ReceiptNames;
    forall s: Slot | s.ref.ReceiptOf? && SlotOk(p, s) ensures s in ReceiptSlots(p) {
      var i :| 0 <= i < |p.ReceiptNames()| && p.ReceiptNames()[i] == s.name;
      assert ReceiptSlots(p)[i] == s;
    }
  }

  lemma CriterionSlotsAre(p: Plan)
    ensures forall s :: s in CriterionSlots(p) <==> s.ref.CriterionOf? && SlotOk(p, s)
  {
    forall s: Slot | s.ref.CriterionOf? && SlotOk(p, s) ensures s in CriterionSlots(p) {
      assert CriterionSlots(p)[s.ref.index] == s;
    }
  }

  lemma IndexedRefs(p: Plan)
    ensures forall r :: r in RuleRefs(p) <==> r.ActionRule? && r.index < |p.rules|
    ensures forall r :: r in ApprovalRefs(p) <==> r.ApprovalRule? && r.index < |p.rules|
    ensures forall r :: r in CriterionRefs(p) <==> r.CriterionOf? && r.index < |p.guards|
  {
    forall r: Ref | r.ActionRule? && r.index < |p.rules| ensures r in RuleRefs(p) { assert RuleRefs(p)[r.index] == r; }
    forall r: Ref | r.ApprovalRule? && r.index < |p.rules| ensures r in ApprovalRefs(p) { assert ApprovalRefs(p)[r.index] == r; }
    forall r: Ref | r.CriterionOf? && r.index < |p.guards| ensures r in CriterionRefs(p) { assert CriterionRefs(p)[r.index] == r; }
  }

  lemma FixedSlotsAre(p: Plan, s: Slot)
    ensures s in Fixed(FIRST) + Fixed(RuleRefs(p)) + Fixed(SELECTION) + Fixed(ApprovalRefs(p)) + Fixed(CORE) + Fixed(LAST)
            <==> SlotOk(p, s) && !s.ref.EvaluatorOf? && !s.ref.ReceiptOf? && !s.ref.CriterionOf?
  {
    hide SlotOk;
    FixedSlots(FIRST);
    FixedSlots(RuleRefs(p));
    FixedSlots(SELECTION);
    FixedSlots(ApprovalRefs(p));
    FixedSlots(CORE);
    FixedSlots(LAST);
    IndexedRefs(p);
    SlotOkFixed(p, s);
  }

  lemma SlotsAre(p: Plan, s: Slot)
    ensures s in Slots(p) <==> SlotOk(p, s)
  {
    hide SlotOk, Fixed, EvaluatorSlots, ReceiptSlots, CriterionSlots, RuleRefs, ApprovalRefs, FIRST, SELECTION, CORE, LAST;
    FixedSlotsAre(p, s);
    EvaluatorSlotsAre(p);
    ReceiptSlotsAre(p);
    CriterionSlotsAre(p);
  }

  lemma SlotOkFixed(p: Plan, s: Slot)
    ensures !s.ref.EvaluatorOf? && !s.ref.ReceiptOf? && !s.ref.CriterionOf? ==>
              (SlotOk(p, s) <==> s.name == "" && (s.ref.ActionRule? || s.ref.ApprovalRule? ==> s.ref.index < |p.rules|))
  {}

  lemma RefHasSlot(p: Plan, r: Ref) returns (s: Slot)
    requires HasRef(p, r)
    ensures s in Slots(p) && s.ref == r
  {
    match r {
      case EvaluatorOf(t) => var k :| k in p.specs && t == p.Tok(k.check); s := Slot(r, k.check);
      case ReceiptOf(t) => var n :| n in p.ReceiptNames() && t == p.Tok(n); s := Slot(r, n);
      case CriterionOf(i) => s := Slot(r, p.guards[i]);
      case _ => s := Slot(r, "");
    }
    SlotsAre(p, s);
  }

  // ---- identities ----

  predicate DistinctRefs(slots: seq<Slot>) {
    forall i, j :: 0 <= i < j < |slots| ==> slots[i].ref != slots[j].ref
  }

  predicate KindsIn(slots: seq<Slot>, lo: nat, hi: nat) {
    forall s :: s in slots ==> lo <= KindOf(s.ref) < hi
  }

  lemma AppendDistinct(a: seq<Slot>, b: seq<Slot>, lo: nat, mid: nat, hi: nat)
    requires lo <= mid <= hi && KindsIn(a, lo, mid) && KindsIn(b, mid, hi)
    ensures KindsIn(a + b, lo, hi)
    ensures DistinctRefs(a + b) <==> DistinctRefs(a) && DistinctRefs(b)
  {
    var c := a + b;
    assert forall i :: 0 <= i < |a| ==> a[i] == c[i];
    assert forall i :: 0 <= i < |b| ==> b[i] == c[|a| + i];
    forall i, j | 0 <= i < |a| && |a| <= j < |c| ensures c[i].ref != c[j].ref {
      assert c[i] in a && c[j] in b;
    }
    if DistinctRefs(c) {
      forall i, j | 0 <= i < j < |b| ensures b[i].ref != b[j].ref {
        assert c[|a| + i].ref != c[|a| + j].ref;
      }
    }
    if DistinctRefs(a) && DistinctRefs(b) {
      forall i, j | 0 <= i < j < |c| ensures c[i].ref != c[j].ref {
        if i >= |a| {
          assert b[i - |a|].ref != b[j - |a|].ref;
        }
      }
    }
  }

  /** The names the compiler must keep apart: evaluators by check, receipts by type. */
  predicate TokensDistinct(p: Plan) {
    && (forall i, j :: 0 <= i < j < |p.specs| ==> p.Tok(p.specs[i].check) != p.Tok(p.specs[j].check))
    && (var names := p.ReceiptNames();
        forall i, j :: 0 <= i < j < |names| ==> p.Tok(names[i]) != p.Tok(names[j]))
  }

  /** Positions whose kinds count up are distinct. */
  lemma FixedKinds(refs: seq<Ref>, lo: nat)
    requires forall i :: 0 <= i < |refs| ==> KindOf(refs[i]) == lo + i
    ensures KindsIn(Fixed(refs), lo, lo + |refs|) && DistinctRefs(Fixed(refs))
  {
    var slots := Fixed(refs);
    assert forall i :: 0 <= i < |slots| ==> slots[i].ref == refs[i];
    forall s | s in slots ensures lo <= KindOf(s.ref) < lo + |refs| {
      var i :| 0 <= i < |slots| && slots[i] == s;
    }
  }

  lemma RuleKinds(p: Plan)
    ensures KindsIn(Fixed(RuleRefs(p)), 3, 4) && DistinctRefs(Fixed(RuleRefs(p)))
  {}

  lemma ApprovalKinds(p: Plan)
    ensures KindsIn(Fixed(ApprovalRefs(p)), 6, 7) && DistinctRefs(Fixed(ApprovalRefs(p)))
  {}

  lemma CriterionKinds(p: Plan)
    ensures KindsIn(CriterionSlots(p), 18, 19) && DistinctRefs(CriterionSlots(p))
  {}

  lemma EvaluatorKinds(p: Plan)
    ensures KindsIn(EvaluatorSlots(p), 16, 17)
    ensures DistinctRefs(EvaluatorSlots(p)) <==>
              forall i, j :: 0 <= i < j < |p.specs| ==> p.Tok(p.specs[i].check) != p.Tok(p.specs[j].check)
  {
    var es := EvaluatorSlots(p);
    if DistinctRefs(es) {
      forall i, j | 0 <= i < j < |p.specs| ensures p.Tok(p.specs[i].check) != p.Tok(p.specs[j].check) {
        assert es[i].ref != es[j].ref;
      }
    }
  }

  lemma ReceiptKinds(p: Plan, names: seq<string>)
    ensures KindsIn(NamedReceipts(p, names), 17, 18)
    ensures DistinctRefs(NamedReceipts(p, names)) <==>
              forall i, j :: 0 <= i < j < |names| ==> p.Tok(names[i]) != p.Tok(names[j])
  {
    hide Plan.Tok;
    var rs := NamedReceipts(p, names);
    assert forall i :: 0 <= i < |names| ==> rs[i].ref == ReceiptOf(p.Tok(names[i]));
    if DistinctRefs(rs) {
      forall i, j | 0 <= i < j < |names| ensures p.Tok(names[i]) != p.Tok(names[j]) {
        assert rs[i].ref != rs[j].ref;
      }
    }
  }

  lemma SlotsDistinct(p: Plan)
    ensures DistinctRefs(Slots(p)) <==> TokensDistinct(p)
  {
    hide KindsIn, DistinctRefs, Fixed, Slots, KindOf;
    RuleKinds(p);
    ApprovalKinds(p);
    CriterionKinds(p);
    EvaluatorKinds(p);
    ReceiptKinds(p, p.ReceiptNames());
    ConstantKinds();
    JoinSegments(p);
  }

  lemma ConstantKinds()
    ensures KindsIn(Fixed(FIRST), 0, 3) && DistinctRefs(Fixed(FIRST))
    ensures KindsIn(Fixed(SELECTION), 4, 6) && DistinctRefs(Fixed(SELECTION))
    ensures KindsIn(Fixed(CORE), 7, 16) && DistinctRefs(Fixed(CORE))
    ensures KindsIn(Fixed(LAST), 19, 22) && DistinctRefs(Fixed(LAST))
  {
    hide KindsIn, DistinctRefs, Fixed;
    FixedKinds(FIRST, 0);
    FixedKinds(SELECTION, 4);
    FixedKinds(CORE, 7);
    FixedKinds(LAST, 19);
  }

  lemma JoinSegments(p: Plan)
    requires KindsIn(Fixed(FIRST), 0, 3) && KindsIn(Fixed(RuleRefs(p)), 3, 4) && KindsIn(Fixed(SELECTION), 4, 6)
    requires KindsIn(Fixed(ApprovalRefs(p)), 6, 7) && KindsIn(Fixed(CORE), 7, 16) && KindsIn(EvaluatorSlots(p), 16, 17)
    requires KindsIn(ReceiptSlots(p), 17, 18) && KindsIn(CriterionSlots(p), 18, 19) && KindsIn(Fixed(LAST), 19, 22)
    requires DistinctRefs(Fixed(FIRST)) && DistinctRefs(Fixed(RuleRefs(p))) && DistinctRefs(Fixed(SELECTION))
    requires DistinctRefs(Fixed(ApprovalRefs(p))) && DistinctRefs(Fixed(CORE)) && DistinctRefs(CriterionSlots(p))
    requires DistinctRefs(Fixed(LAST))
    ensures DistinctRefs(Slots(p)) <==> DistinctRefs(EvaluatorSlots(p)) && DistinctRefs(ReceiptSlots(p))
  {
    hide DistinctRefs, KindsIn, Fixed, EvaluatorSlots, ReceiptSlots, CriterionSlots, RuleRefs, ApprovalRefs;
    var s1 := Fixed(FIRST) + Fixed(RuleRefs(p));
    var s2 := s1 + Fixed(SELECTION);
    var s3 := s2 + Fixed(ApprovalRefs(p));
    var s4 := s3 + Fixed(CORE);
    var s5 := s4 + EvaluatorSlots(p);
    var s6 := s5 + ReceiptSlots(p);
    var s7 := s6 + CriterionSlots(p);
    AppendDistinct(Fixed(FIRST), Fixed(RuleRefs(p)), 0, 3, 4);
    AppendDistinct(s1, Fixed(SELECTION), 0, 4, 6);
    AppendDistinct(s2, Fixed(ApprovalRefs(p)), 0, 6, 7);
    AppendDistinct(s3, Fixed(CORE), 0, 7, 16);
    AppendDistinct(s4, EvaluatorSlots(p), 0, 16, 17);
    AppendDistinct(s5, ReceiptSlots(p), 0, 17, 18);
    AppendDistinct(s6, CriterionSlots(p), 0, 18, 19);
    AppendDistinct(s7, Fixed(LAST), 0, 19, 22);
  }

  /** Identities are unique exactly when the tokens are. */
  lemma IdsUnique(p: Plan, c: Contract)
    ensures UniqueIds(Layout(p, c)) <==> TokensDistinct(p)
  {
    hide TokensDistinct, Slots, Name;
    SlotsDistinct(p);
    var slots, nodes := Slots(p), Nodes(p);
    if DistinctRefs(slots) {
      forall i, j | 0 <= i < j < |nodes| ensures nodes[i].node_id != nodes[j].node_id {
        if nodes[i].node_id == nodes[j].node_id { NameInjective(slots[i].ref, slots[j].ref); }
      }
    } else {
      var i, j :| 0 <= i < j < |slots| && slots[i].ref == slots[j].ref;
      assert nodes[i].node_id == nodes[j].node_id;
    }
  }

  /** A node of the graph comes from a slot. */
  lemma NodeSlot(p: Plan, n: Node) returns (s: Slot)
    requires n in Nodes(p)
    ensures SlotOk(p, s) && n == NodeOf(p, s)
  {
    var i :| 0 <= i < |Nodes(p)| && Nodes(p)[i] == n;
    s := Slots(p)[i];
    SlotsAre(p, s);
  }

  lemma SlotRef(p: Plan, s: Slot)
    requires SlotOk(p, s)
    ensures HasRef(p, s.ref)
  {}

  lemma SlotNode(p: Plan, s: Slot)
    requires SlotOk(p, s)
    ensures NodeOf(p, s) in Nodes(p)
  {
    SlotsAre(p, s);
    var i :| 0 <= i < |Slots(p)| && Slots(p)[i] == s;
    assert Nodes(p)[i] == NodeOf(p, s);
  }

  /** The identities of the graph are the names of its positions. */
  lemma IdsAre(p: Plan, c: Contract, r: Ref)
    ensures Name(r) in Ids(Layout(p, c)) <==> HasRef(p, r)
  {
    if HasRef(p, r) {
      var s := RefHasSlot(p, r);
      SlotsAre(p, s);
      SlotNode(p, s);
    }
    if Name(r) in Ids(Layout(p, c)) {
      var n :| n in Nodes(p) && n.node_id == Name(r);
      var s := NodeSlot(p, n);
      NameInjective(r, s.ref);
      SlotRef(p, s);
    }
  }

  lemma IdHasRef(p: Plan, c: Contract, id: string) returns (r: Ref)
    requires id in Ids(Layout(p, c))
    ensures HasRef(p, r) && Name(r) == id
  {
    var n :| n in Nodes(p) && n.node_id == id;
    var s := NodeSlot(p, n);
    SlotRef(p, s);
    r := s.ref;
  }

  /** Looking a position up finds a node laid out for it. */
  lemma Lookup(p: Plan, c: Contract, r: Ref) returns (s: Slot)
    requires HasRef(p, r)
    ensures Name(r) in ById(Nodes(p)) && ById(Nodes(p))[Name(r)] == NodeOf(p, s)
    ensures s.ref == r && SlotOk(p, s)
  {
    IdsAre(p, c, r);
    ByIdNodes(Nodes(p));
    s := NodeSlot(p, ById(Nodes(p))[Name(r)]);
    NameInjective(r, s.ref);
  }

  // ---- edges ----

  /** The edges into each position. */
  ghost predicate ArcInto(p: Plan, a: Arc) {
    match a.target
    case TaskContract => false
    case PrincipalContract => a == OPENING[0]
    case ActionIntent => a == OPENING[1]
    case SnapshotRequest => a == OPENING[2]
    case ActionRule(i) => i < |p.rules| && a == IntentArc(i)
    case RuleJoin => a.source.ActionRule? && a.source.index < |p.rules| && a == RuleArc(a.source.index)
    case PolicyDecision => a == RULE_TO_POLICY
    case ApprovalRule(i) => i < |p.rules| && a == ReviewArc(i)
    case AuthorityJoin => a == DIRECT || (a.source.ApprovalRule? && a.source.index < |p.rules| && a == ApprovedArc(a.source.index))
    case CapabilityExecute => a == EXECUTION[0] || a == EXECUTION[1]
    case OperationPrepared => a == EXECUTION[2]
    case ExecutorDispatch => a == EXECUTION[3]
    case ExecutorResult => a == EXECUTION[4]
    case ArtifactManifest => a == EXECUTION[5]
    case OperationReconcile => a == EXECUTION[6]
    case EscalateDecision => a == EXECUTION[7]
    case SnapshotMaterialized => a == EXECUTION[8]
    case EvaluatorOf(t) => exists s :: s in p.specs && t == p.Tok(s.check) && (a == EvaluateArc(p, s) || a == SnapshotArc(p, s))
    case ReceiptOf(t) => exists s :: s in p.specs && a == ReceiptArc(p, s)
    case CriterionOf(i) => i < |p.guards| && a == CriterionArc(p, p.guards[i], i)
    case GuardJoin => a.source.CriterionOf? && a.source.index < |p.guards| && a == GuardArc(a.source.index)
    case AcceptDecision => a == ACCEPTANCE
  }

  lemma IndexedArcs(n: nat, arc: nat -> Arc)
    ensures forall a :: a in PerIndex(n, arc) <==> exists i: nat :: i < n && a == arc(i)
  {
    forall i: nat | i < n ensures arc(i) in PerIndex(n, arc) { assert PerIndex(n, arc)[i] == arc(i); }
  }

  lemma SpecArcs(p: Plan, arc: (Plan, Spec) -> Arc)
    ensures forall a :: a in PerSpec(p, arc) <==> exists s :: s in p.specs && a == arc(p, s)
  {
    forall s | s in p.specs ensures arc(p, s) in PerSpec(p, arc) {
      var i :| 0 <= i < |p.specs| && p.specs[i] == s;
      assert PerSpec(p, arc)[i] == arc(p, s);
    }
  }

  lemma GuardedArcs(p: Plan)
    ensures forall a :: a in CriterionArcs(p) <==> exists i: nat :: i < |p.guards| && a == CriterionArc(p, p.guards[i], i)
  {
    forall i: nat | i < |p.guards| ensures CriterionArc(p, p.guards[i], i) in CriterionArcs(p) {
      assert CriterionArcs(p)[i] == CriterionArc(p, p.guards[i], i);
    }
  }

  /** An edge by the group of the list it belongs to. */
  ghost predicate InGroups(p: Plan, a: Arc) {
    || a in OPENING || a in EXECUTION || a == RULE_TO_POLICY || a == DIRECT
    || (exists i: nat :: i < |p.rules| && a == IntentArc(i))
    || (exists i: nat :: i < |p.rules| && a == RuleArc(i))
    || (exists i: nat :: i < |p.rules| && a == ReviewArc(i))
    || (exists i: nat :: i < |p.rules| && a == ApprovedArc(i))
    || (exists i: nat :: i < |p.guards| && a == GuardArc(i))
    || (exists i: nat :: i < |p.guards| && a == CriterionArc(p, p.guards[i], i))
    || (exists s :: s in p.specs && a == EvaluateArc(p, s))
    || (exists s :: s in p.specs && a == SnapshotArc(p, s))
    || (exists s :: s in p.specs && a == ReceiptArc(p, s))
  }

  lemma GroupsAre(p: Plan, a: Arc)
    ensures a in FrontArcs(p) <==> InGroups(p, a)
  {
    IndexedArcs(|p.rules|, IntentArc);
    IndexedArcs(|p.rules|, RuleArc);
    IndexedArcs(|p.rules|, ReviewArc);
    IndexedArcs(|p.rules|, ApprovedArc);
    IndexedArcs(|p.guards|, GuardArc);
    SpecArcs(p, EvaluateArc);
    SpecArcs(p, SnapshotArc);
    SpecArcs(p, ReceiptArc);
    GuardedArcs(p);
    hide IntentArc, RuleArc, ReviewArc, ApprovedArc, GuardArc, EvaluateArc, SnapshotArc, ReceiptArc, CriterionArc,
         PerIndex, PerSpec, CriterionArcs;
  }

  lemma OpeningInto(p: Plan, i: nat)
    requires i < 3
    ensures ArcInto(p, OPENING[i]) && !OPENING[i].target.AcceptDecision?
  {
    assert i == 0 || i == 1 || i == 2;
  }

  lemma ExecutionInto(p: Plan, i: nat)
    requires i < 9
    ensures ArcInto(p, EXECUTION[i]) && !EXECUTION[i].target.AcceptDecision?
  {
    assert i in {0, 1, 2, 3, 4, 5, 6, 7, 8};
  }

  lemma FixedInto(p: Plan, a: Arc)
    requires a in OPENING || a in EXECUTION || a == RULE_TO_POLICY || a == DIRECT
    ensures ArcInto(p, a) && !a.target.AcceptDecision?
  {
    if a in OPENING {
      var i :| 0 <= i < 3 && a == OPENING[i];
      OpeningInto(p, i);
    } else if a in EXECUTION {
      var i :| 0 <= i < 9 && a == EXECUTION[i];
      ExecutionInto(p, i);
    }
  }

  lemma SingleArcsInto(p: Plan)
    ensures forall i :: 0 <= i < 3 ==> ArcInto(p, OPENING[i])
    ensures forall i :: 0 <= i < 9 ==> ArcInto(p, EXECUTION[i])
    ensures ArcInto(p, RULE_TO_POLICY) && ArcInto(p, DIRECT) && ArcInto(p, ACCEPTANCE)
  {
    assert ArcInto(p, ACCEPTANCE);
    hide ArcInto;
    forall i | 0 <= i < 3 ensures ArcInto(p, OPENING[i]) { OpeningInto(p, i); }
    forall i | 0 <= i < 9 ensures ArcInto(p, EXECUTION[i]) { ExecutionInto(p, i); }
    FixedInto(p, RULE_TO_POLICY);
    FixedInto(p, DIRECT);
  }

  lemma RuleArcsInto(p: Plan, i: nat)
    requires i < |p.rules|
    ensures ArcInto(p, IntentArc(i)) && ArcInto(p, RuleArc(i)) && ArcInto(p, ReviewArc(i)) && ArcInto(p, ApprovedArc(i))
  {}

  lemma GuardArcsInto(p: Plan, i: nat)
    requires i < |p.guards|
    ensures ArcInto(p, GuardArc(i)) && ArcInto(p, CriterionArc(p, p.guards[i], i))
  {}

  lemma SpecArcsInto(p: Plan, s: Spec)
    requires s in p.specs
    ensures ArcInto(p, EvaluateArc(p, s)) && ArcInto(p, SnapshotArc(p, s)) && ArcInto(p, ReceiptArc(p, s))
  {}

  lemma GroupInto(p: Plan, a: Arc)
    requires InGroups(p, a)
    ensures ArcInto(p, a) && !a.target.AcceptDecision?
  {
    hide ArcInto;
    if a in OPENING || a in EXECUTION || a == RULE_TO_POLICY || a == DIRECT {
      FixedInto(p, a);
    }
    forall i: nat | i < |p.rules|
      ensures ArcInto(p, IntentArc(i)) && ArcInto(p, RuleArc(i)) && ArcInto(p, ReviewArc(i)) && ArcInto(p, ApprovedArc(i))
    {
      RuleArcsInto(p, i);
    }
    forall i: nat | i < |p.guards| ensures ArcInto(p, GuardArc(i)) && ArcInto(p, CriterionArc(p, p.guards[i], i)) {
      GuardArcsInto(p, i);
    }
    forall s | s in p.specs
      ensures ArcInto(p, EvaluateArc(p, s)) && ArcInto(p, SnapshotArc(p, s)) && ArcInto(p, ReceiptArc(p, s))
    {
      SpecArcsInto(p, s);
    }
  }

  lemma IntoGroup(p: Plan, a: Arc)
    requires ArcInto(p, a)
    ensures InGroups(p, a) || a == ACCEPTANCE
  {
    match a.target
    case EvaluatorOf(t) =>
    case ReceiptOf(t) =>
    case _ =>
  }

  lemma ArcsAre(p: Plan, a: Arc)
    ensures a in Arcs(p) <==> ArcInto(p, a)
    ensures a in FrontArcs(p) ==> !a.target.AcceptDecision?
  {
    assert ArcInto(p, ACCEPTANCE);
    hide InGroups, ArcInto, FrontArcs;
    GroupsAre(p, a);
    if InGroups(p, a) { GroupInto(p, a); }
    if ArcInto(p, a) { IntoGroup(p, a); }
  }
}
