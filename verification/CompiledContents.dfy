/** What a compiled control graph holds, read off the contract: its checks, its nodes with their owners
    and metadata, and its edges with their conditions. */
module CompiledContents {
  import opened GraphSchema
  import opened Text
  import opened Manifest
  import opened ControlGraph
  import opened ControlGraphShape

  // ---- checks ----

  /** The contract itself names the check, as a required verifier or as a guard. */
  predicate NamedBy(c: Contract, check: string) {
    (exists names :: names in c.required_verifiers && check in names) || check in c.Guards()
  }

  lemma {:induction false} FlattenMembers(names: seq<seq<string>>, name: string)
    ensures name in Flatten(names) <==> exists part :: part in names && name in part
  {
    if names != [] {
      FlattenMembers(names[1..], name);
      assert names == [names[0]] + names[1..];
    }
  }

  lemma BaseSpecsAre(c: Contract, s: Spec)
    ensures s in BaseSpecs(c) <==> s.receipt == s.check && NamedBy(c, s.check)
  {
    FlattenMembers(c.required_verifiers, s.check);
    var names := Dedupe(Flatten(c.required_verifiers)) + c.Guards();
    if s.receipt == s.check && s.check in names {
      var i :| 0 <= i < |names| && names[i] == s.check;
      assert BaseSpecs(c)[i] == s;
    }
  }

  predicate Checked(specs: seq<Spec>, check: string) {
    exists s :: s in specs && s.check == check
  }

  lemma CheckedListed(specs: seq<Spec>, check: string)
    ensures Checked(specs, check) <==> check in Checks(specs)
  {
    if s :| s in specs && s.check == check {
      var i :| 0 <= i < |specs| && specs[i] == s;
      assert Checks(specs)[i] == check;
    }
    if check in Checks(specs) {
      var i :| 0 <= i < |specs| && Checks(specs)[i] == check;
      assert specs[i] in specs;
    }
  }

  /** The first planned evaluator of its check. */
  predicate FirstPlanned(planned: seq<Spec>, s: Spec) {
    exists i :: 0 <= i < |planned| && planned[i] == s && forall k :: 0 <= k < i ==> planned[k].check != s.check
  }

  lemma FirstPlannedNext(planned: seq<Spec>, s: Spec)
    requires planned != []
    ensures FirstPlanned(planned, s) <==> planned[0] == s || (planned[0].check != s.check && FirstPlanned(planned[1..], s))
  {
    if planned[0] == s { assert FirstPlanned(planned, s); }
    if planned[0].check != s.check && FirstPlanned(planned[1..], s) {
      var i :| 0 <= i < |planned[1..]| && planned[1..][i] == s && forall k :: 0 <= k < i ==> planned[1..][k].check != s.check;
      assert planned[i + 1] == s && forall k :: 0 < k < i + 1 ==> planned[k] == planned[1..][k - 1];
    }
    if FirstPlanned(planned, s) && planned[0] != s {
      var i :| 0 <= i < |planned| && planned[i] == s && forall k :: 0 <= k < i ==> planned[k].check != s.check;
      assert planned[1..][i - 1] == s && forall k :: 0 <= k < i - 1 ==> planned[1..][k] == planned[k + 1];
    }
  }

  lemma {:induction false} AddedAre(specs: seq<Spec>, planned: seq<Spec>, s: Spec)
    requires AddPlanned(specs, planned).Some?
    ensures s in AddPlanned(specs, planned).value
            <==> s in specs || (!Checked(specs, s.check) && FirstPlanned(planned, s))
    decreases planned
  {
    hide FirstPlanned, Checked;
    if planned == [] {
      NothingPlanned(s);
    } else {
      var next := if planned[0].check in Checks(specs) then specs else specs + [planned[0]];
      AddedAre(next, planned[1..], s);
      FirstPlannedNext(planned, s);
      CheckedListed(specs, planned[0].check);
      CheckedNext(specs, planned[0], s.check);
    }
  }

  lemma NothingPlanned(s: Spec)
    ensures !FirstPlanned([], s)
  {}

  lemma CheckedNext(specs: seq<Spec>, next: Spec, check: string)
    ensures Checked(specs + [next], check) <==> Checked(specs, check) || next.check == check
  {}

  /** A check is evaluated exactly if the contract names it, which proves it under its own name, or if
      it is planned, and then under the receipt it is first planned with. */
  lemma SpecsAre(alnum: char -> bool, c: Contract, planned: seq<Spec>, s: Spec)
    requires PlanOf(alnum, c, planned).Some?
    ensures s in PlanOf(alnum, c, planned).value.specs
            <==> if NamedBy(c, s.check) then s.receipt == s.check else FirstPlanned(planned, s)
  {
    hide FirstPlanned, NamedBy, BaseSpecs, AddPlanned;
    AddedAre(BaseSpecs(c), planned, s);
    BaseSpecsAre(c, s);
    BaseSpecsAre(c, Spec(s.check, s.check));
    if NamedBy(c, s.check) { assert Spec(s.check, s.check) in BaseSpecs(c); }
    forall t | t in BaseSpecs(c) && t.check == s.check ensures NamedBy(c, s.check) { BaseSpecsAre(c, t); }
  }

  /** The rules are the contract's, and the guards its completion guards, or without any its success
      conditions. */
  lemma PlanIs(alnum: char -> bool, c: Contract, planned: seq<Spec>)
    requires PlanOf(alnum, c, planned).Some?
    ensures var p := PlanOf(alnum, c, planned).value;
            && p.alnum == alnum && p.rules == c.allowed_actions && p.bindings == c.bindings
            && (|c.completion_guards| > 0 ==> p.guards == c.completion_guards)
            && (|c.completion_guards| == 0 ==> p.guards == c.success_conditions)
  {}

  /** There is a receipt for every guard and for whatever a check proves. */
  lemma ReceiptsAre(p: Plan, name: string)
    ensures name in p.ReceiptNames() <==> name in p.guards || exists s :: s in p.specs && s.receipt == name
  {
    if s :| s in p.specs && s.receipt == name {
      var i :| 0 <= i < |p.specs| && p.specs[i] == s;
      assert Receipts(p.specs)[i] == name;
    }
    if name in Receipts(p.specs) {
      var i :| 0 <= i < |p.specs| && Receipts(p.specs)[i] == name;
      assert p.specs[i] in p.specs;
    }
  }

  // ---- names ----

  /** A token is the name from its first to its last letter or digit, with dashes in between. */
  predicate TokenFrom(alnum: char -> bool, value: string, i: nat, j: nat, token: string) {
    && i < j <= |value| && |token| == j - i && alnum(value[i]) && alnum(value[j - 1])
    && (forall k :: 0 <= k < |value| && (k < i || k >= j) ==> !alnum(value[k]))
    && forall k :: i <= k < j ==> token[k - i] == if alnum(value[k]) then value[k] else '-'
  }

  lemma {:induction false} MapCharsAt(alnum: char -> bool, s: string)
    ensures |MapChars(alnum, s)| == |s|
    ensures forall k :: 0 <= k < |s| ==> MapChars(alnum, s)[k] == if alnum(s[k]) then s[k] else '-'
  {
    if s != [] { MapCharsAt(alnum, s[1..]); }
  }

  lemma {:induction false} TrimmedStart(s: string, c: char)
    ensures var r := TrimStart(s, c); |r| <= |s| && r == s[|s| - |r|..] && forall k :: 0 <= k < |s| - |r| ==> s[k] == c
  {
    if s != [] && s[0] == c { TrimmedStart(s[1..], c); }
  }

  /** The token before the empty one is replaced: the mapped name between its outer dashes. */
  lemma Trimmed(mapped: string)
    ensures var ahead := TrimStart(mapped, '-');
            var (t, i) := (TrimEnd(ahead, '-'), |mapped| - |ahead|);
            && i >= 0 && i + |t| <= |mapped| && t == mapped[i..i + |t|]
            && (forall k :: 0 <= k < |mapped| && (k < i || k >= i + |t|) ==> mapped[k] == '-')
            && (t != "" ==> t[0] != '-' && t[|t| - 1] != '-')
  {
    hide TrimStart, TrimEnd;
    var ahead := TrimStart(mapped, '-');
    TrimmedStart(mapped, '-');
    var t, i := TrimEnd(ahead, '-'), |mapped| - |ahead|;
    assert forall k :: 0 <= k < |ahead| ==> ahead[k] == mapped[i + k];
    forall k | i + |t| <= k < |mapped| ensures mapped[k] == '-' { assert ahead[k - i] == mapped[k]; }
    if t != "" { assert t[0] == ahead[0]; }
  }

  /** Of a name without letters and digits nothing is left, and the source says so. */
  lemma TokenMeans(alnum: char -> bool, value: string)
    requires !alnum('-')
    ensures if exists k :: 0 <= k < |value| && alnum(value[k])
            then exists i: nat, j: nat :: TokenFrom(alnum, value, i, j, Token(alnum, value))
            else Token(alnum, value) == "unnamed"
  {
    hide TrimStart, TrimEnd, MapChars;
    var mapped := MapChars(alnum, value);
    MapCharsAt(alnum, value);
    Trimmed(mapped);
    var ahead := TrimStart(mapped, '-');
    var t, i: nat := TrimEnd(ahead, '-'), |mapped| - |ahead|;
    forall k | 0 <= k < |value| ensures alnum(value[k]) <==> mapped[k] != '-' {}
    if t != "" {
      assert t[0] == mapped[i] && t[|t| - 1] == mapped[i + |t| - 1];
      assert forall k :: i <= k < i + |t| ==> t[k - i] == mapped[k];
      var j: nat := i + |t|;
      assert TokenFrom(alnum, value, i, j, t) && Token(alnum, value) == t;
    } else {
      forall k | 0 <= k < |value| ensures !alnum(value[k]) { assert mapped[k] == '-'; }
    }
  }

  // ---- nodes ----

  /** What a node is, without its ports. */
  datatype Sheet = Sheet(id: string, node_type: NodeType, effect: Effect, authority: string, guards: seq<string>,
                         metadata: map<string, string>)

  function SheetOf(n: Node): Sheet {
    Sheet(n.node_id, n.node_type, n.effect, n.authority, n.required_guards, n.metadata)
  }

  function Plain(id: string, t: NodeType, role: string): Sheet {
    Sheet(id, t, ReadOnly, "", [], map["producer_role" := role])
  }

  /** The positions that depend on nothing in the contract. */
  predicate Standing(r: Ref) {
    !(r.ActionRule? || r.ApprovalRule? || r.EvaluatorOf? || r.ReceiptOf? || r.CriterionOf?)
  }

  /** The nodes every graph has. */
  function StandingSheet(p: Plan, r: Ref): Sheet
    requires Standing(r)
  {
    match r
    case TaskContract => Plain("task.contract", Task, "controller")
    case PrincipalContract => Sheet("principal.contract", Principal, ReadOnly, "1", [], map["producer_role" := "policy"])
    case ActionIntent => Plain("action.intent", Action, "controller")
    case RuleJoin => Plain("join.action.rule.any", JoinNode, "scheduler")
    case PolicyDecision => Sheet("policy.decision", Capability, ReadOnly, "policy-gate", [], map["producer_role" := "policy"])
    case AuthorityJoin => Plain("join.action.authority.any", JoinNode, "scheduler")
    case CapabilityExecute => Sheet("capability.execute", Capability, ReadOnly, "policy-gate", [], map["producer_role" := "policy"])
    case OperationPrepared => Plain("operation.prepared", Operation, "executor-supervisor")
    case ExecutorDispatch =>
      Sheet("executor.dispatch", Executor, SideEffect, "capability.execute", [], map["producer_role" := "controller"])
    case ExecutorResult => Plain("executor.result", Executor, "executor-supervisor")
    case OperationReconcile =>
      Sheet("operation.reconcile", Operation, ReadOnly, "", [], map["producer_role" := "executor-supervisor", "recovery" := "true"])
    case SnapshotRequest => Plain("snapshot.request", Snapshot, "controller")
    case SnapshotMaterialized => Plain("snapshot.materialized", Snapshot, "snapshot-service")
    case ArtifactManifest => Plain("artifact.manifest", Artifact, "artifact-validator")
    case GuardJoin => Plain("join.guards.all", JoinNode, "scheduler")
    case AcceptDecision =>
      Sheet("decision.accept", Decision, Terminal, "", p.guards, map["producer_role" := "execution-validator"])
    case EscalateDecision => Sheet("decision.escalate", Decision, Terminal, "", [], map["producer_role" := "controller"])
  }

  function RuleSheet(p: Plan, i: nat): Sheet
    requires i < |p.rules|
  {
    Sheet("action.rule." + Decimal(i), Action, ReadOnly, "", [],
          map["producer_role" := "policy", "rule_index" := Decimal(i), "tool" := p.rules[i].tool,
              "effect" := p.rules[i].effect, "target_prefix" := p.rules[i].target_prefix])
  }

  function ApprovalSheet(i: nat): Sheet {
    Sheet("approval.rule." + Decimal(i), Approval, ReadOnly, "human-review", [],
          map["producer_role" := "approval-verifier", "rule_index" := Decimal(i), "dynamic" := "true"])
  }

  function EvaluatorSheet(p: Plan, check: string): Sheet {
    Sheet("evaluator." + p.Tok(check), Evaluator, ReadOnly, "", [],
          map["producer_role" := "evaluator/" + p.Tok(check), "check_name" := check])
  }

  function ReceiptSheet(p: Plan, name: string): Sheet {
    Sheet("receipt." + p.Tok(name), Receipt, ReadOnly, "", [],
          map["producer_role" := "receipt-verifier", "receipt_type" := name, "terminal" := "true"])
  }

  /** A criterion asks for the checks its condition is bound to, or for the condition itself. */
  function CriterionSheet(p: Plan, i: nat): Sheet
    requires i < |p.guards|
  {
    Sheet("criterion." + Decimal(i), Criterion, ReadOnly, "", [],
          map["producer_role" := "criterion-verifier", "guard" := p.guards[i],
              "required_checks" := CommaJoin(if p.guards[i] in p.bindings then p.bindings[p.guards[i]] else [p.guards[i]])])
  }

  /** Names are joined by single commas, in order. */
  lemma {:induction false} CommaJoined(names: seq<string>, last: string)
    ensures CommaJoin([]) == "" && CommaJoin([last]) == last
    ensures names != [] ==> CommaJoin(names + [last]) == CommaJoin(names) + "," + last
  {
    if names != [] {
      CommaJoined(names[1..], last);
      assert (names + [last])[1..] == names[1..] + [last];
    }
  }

  /** The nodes a graph has for its contract. */
  ghost predicate Listed(p: Plan, sheet: Sheet) {
    || (exists r :: Standing(r) && sheet == StandingSheet(p, r))
    || (exists i: nat :: i < |p.rules| && sheet == RuleSheet(p, i))
    || (exists i: nat :: i < |p.rules| && sheet == ApprovalSheet(i))
    || (exists s :: s in p.specs && sheet == EvaluatorSheet(p, s.check))
    || (exists name :: name in p.ReceiptNames() && sheet == ReceiptSheet(p, name))
    || (exists i: nat :: i < |p.guards| && sheet == CriterionSheet(p, i))
  }

  lemma StandingNode(p: Plan, r: Ref)
    requires Standing(r)
    ensures SheetOf(NodeOf(p, Slot(r, ""))) == StandingSheet(p, r)
  {}

  lemma RuleNode(p: Plan, i: nat)
    requires i < |p.rules|
    ensures SheetOf(NodeOf(p, Slot(ActionRule(i), ""))) == RuleSheet(p, i)
    ensures SheetOf(NodeOf(p, Slot(ApprovalRule(i), ""))) == ApprovalSheet(i)
  {
    hide Token, CommaJoin, Decimal, InputsOf, OutputsOf;
  }

  lemma CheckNode(p: Plan, name: string)
    ensures SheetOf(NodeOf(p, Slot(EvaluatorOf(p.Tok(name)), name))) == EvaluatorSheet(p, name)
    ensures SheetOf(NodeOf(p, Slot(ReceiptOf(p.Tok(name)), name))) == ReceiptSheet(p, name)
  {
    hide Plan.Tok, CommaJoin, Decimal, InputsOf, OutputsOf;
  }

  lemma CriterionNode(p: Plan, i: nat)
    requires i < |p.guards|
    ensures SheetOf(NodeOf(p, Slot(CriterionOf(i), p.guards[i]))) == CriterionSheet(p, i)
  {
    hide Token, CommaJoin, Decimal, InputsOf, OutputsOf;
  }

  lemma SheetListed(p: Plan, s: Slot)
    requires SlotOk(p, s)
    ensures Listed(p, SheetOf(NodeOf(p, s)))
  {
    hide NodeOf, StandingSheet, RuleSheet, ApprovalSheet, EvaluatorSheet, ReceiptSheet, CriterionSheet, Plan.Tok, Plan.ReceiptNames;
    if Standing(s.ref) { StandingNode(p, s.ref); }
    else if s.ref.CriterionOf? { CriterionNode(p, s.ref.index); }
    else if s.ref.EvaluatorOf? || s.ref.ReceiptOf? { CheckNode(p, s.name); }
    else { RuleNode(p, s.ref.index); }
  }

  lemma ListedSlot(p: Plan, sheet: Sheet) returns (s: Slot)
    requires Listed(p, sheet)
    ensures SlotOk(p, s) && SheetOf(NodeOf(p, s)) == sheet
  {
    hide NodeOf, StandingSheet, RuleSheet, ApprovalSheet, EvaluatorSheet, ReceiptSheet, CriterionSheet, Plan.Tok, Plan.ReceiptNames;
    if r :| Standing(r) && sheet == StandingSheet(p, r) {
      s := Slot(r, "");
      StandingNode(p, r);
    } else if i: nat :| i < |p.rules| && sheet == RuleSheet(p, i) {
      s := Slot(ActionRule(i), "");
      RuleNode(p, i);
    } else if i: nat :| i < |p.rules| && sheet == ApprovalSheet(i) {
      s := Slot(ApprovalRule(i), "");
      RuleNode(p, i);
    } else if k :| k in p.specs && sheet == EvaluatorSheet(p, k.check) {
      s := Slot(EvaluatorOf(p.Tok(k.check)), k.check);
      CheckNode(p, k.check);
    } else if name :| name in p.ReceiptNames() && sheet == ReceiptSheet(p, name) {
      s := Slot(ReceiptOf(p.Tok(name)), name);
      CheckNode(p, name);
    } else {
      var i: nat :| i < |p.guards| && sheet == CriterionSheet(p, i);
      s := Slot(CriterionOf(i), p.guards[i]);
      CriterionNode(p, i);
    }
  }

  /** A compiled graph has exactly the nodes listed, for its contract's rules, guards, checks and receipts. */
  lemma NodesAre(p: Plan, c: Contract, sheet: Sheet)
    ensures (exists n :: n in Layout(p, c).nodes && SheetOf(n) == sheet) <==> Listed(p, sheet)
  {
    hide NodeOf, Listed, SlotOk, Nodes, SheetOf;
    if n :| n in Nodes(p) && SheetOf(n) == sheet {
      var s := NodeSlot(p, n);
      SheetListed(p, s);
    }
    if Listed(p, sheet) {
      var s := ListedSlot(p, sheet);
      SlotNode(p, s);
    }
  }

  /** No node has a budget or a timeout. */
  lemma NodesUnbounded(p: Plan, c: Contract, n: Node)
    requires n in Layout(p, c).nodes
    ensures n.budget.None? && n.timeout.None?
  {
    var s := NodeSlot(p, n);
  }

  // ---- edges ----

  function Edged(source: string, target: string, k: EdgeType, sp: string, tp: string): Edge {
    Edge(source, target, k, Unconditional, sp, tp, Always)
  }

  /** The edges every graph has: out of the contract, along the execution, and around the authority join
      and the barrier. */
  const START_EDGES: seq<Edge> :=
    [Edged("task.contract", "principal.contract", DependsOn, "contract", "contract"),
     Edged("task.contract", "action.intent", DependsOn, "contract", "contract"),
     Edged("task.contract", "snapshot.request", DependsOn, "contract", "contract")]

  const EXECUTION_EDGES: seq<Edge> :=
    [Edged("principal.contract", "capability.execute", AuthorisedBy, "authority", "authority"),
     Edged("join.action.authority.any", "capability.execute", Satisfies, "authorised_intent", "intent"),
     Edged("capability.execute", "operation.prepared", AuthorisedBy, "capability", "capability"),
     Edged("operation.prepared", "executor.dispatch", DispatchedTo, "operation", "operation"),
     Edged("executor.dispatch", "executor.result", Produced, "dispatch", "dispatch"),
     Edge("executor.result", "artifact.manifest", Produced, ExecutionSuccess, "result", "result", Always),
     Edge("executor.result", "operation.reconcile", Reconciles, OutcomeUnknownOrFailed, "", "", Always),
     Edged("operation.reconcile", "decision.escalate", EscalatesTo, "", ""),
     Edged("snapshot.request", "snapshot.materialized", DependsOn, "request", "request")]

  const JOINING_EDGES: seq<Edge> :=
    [Edged("join.action.rule.any", "policy.decision", DependsOn, "matched_intent", "intent"),
     Edge("policy.decision", "join.action.authority.any", Satisfies, Unconditional, "direct_intent", "authority.0",
          FieldEquals("approval_required", "false")),
     Edged("join.guards.all", "decision.accept", Satisfies, "barrier", "barrier")]

  /** The edges of one action rule and its approval. */
  function RuleEdges(i: nat): set<Edge> {
    var (rule, approval) := ("action.rule." + Decimal(i), "approval.rule." + Decimal(i));
    {Edge("action.intent", rule, DependsOn, Unconditional, "intent", "intent", FieldEquals("rule_index", Decimal(i))),
     Edged(rule, "join.action.rule.any", Satisfies, "matched_intent", "intent." + Decimal(i)),
     Edge("policy.decision", approval, AuthorisedBy, Unconditional, "decision", "decision", FieldEquals("approval_required", "true")),
     Edged(approval, "join.action.authority.any", Satisfies, "approved_intent", "authority." + Decimal(i + 1))}
  }

  /** The edges of one check: it judges the artifact of a success on the snapshot, and proves a receipt. */
  function CheckEdges(p: Plan, s: Spec): set<Edge> {
    var evaluator := "evaluator." + p.Tok(s.check);
    {Edge("artifact.manifest", evaluator, VerifiedBy, ExecutionSuccess, "manifest", "artifact", Always),
     Edged("snapshot.materialized", evaluator, Requires, "snapshot", "snapshot"),
     Edged(evaluator, "receipt." + p.Tok(s.receipt), Produced, "receipt", "receipt")}
  }

  /** The edges of one guard: its receipt proves its criterion, which must pass. */
  function GuardEdges(p: Plan, i: nat): set<Edge>
    requires i < |p.guards|
  {
    {Edged("receipt." + p.Tok(p.guards[i]), "criterion." + Decimal(i), VerifiedBy, "verified", "receipt"),
     Edge("criterion." + Decimal(i), "join.guards.all", Satisfies, GuardPass, "guard", "guard." + Decimal(i), Always)}
  }

  ghost predicate EdgeListed(p: Plan, e: Edge) {
    || e in START_EDGES || e in EXECUTION_EDGES || e in JOINING_EDGES
    || (exists i: nat :: i < |p.rules| && e in RuleEdges(i))
    || (exists s :: s in p.specs && e in CheckEdges(p, s))
    || (exists i: nat :: i < |p.guards| && e in GuardEdges(p, i))
  }

  const JOINING: seq<Arc> := [RULE_TO_POLICY, DIRECT, ACCEPTANCE]

  lemma StartEdge(i: nat)
    requires i < 3
    ensures EdgeOf(OPENING[i]) == START_EDGES[i] && EdgeOf(JOINING[i]) == JOINING_EDGES[i]
  {}

  lemma ExecutionEdge(i: nat)
    requires i < 9
    ensures EdgeOf(EXECUTION[i]) == EXECUTION_EDGES[i]
  {
    hide EdgeOf;
    if i < 5 { AuthorityEdge(i); } else { OutcomeEdge(i); }
  }

  lemma AuthorityEdge(i: nat)
    requires i < 5
    ensures EdgeOf(EXECUTION[i]) == EXECUTION_EDGES[i]
  {}

  lemma OutcomeEdge(i: nat)
    requires 5 <= i < 9
    ensures EdgeOf(EXECUTION[i]) == EXECUTION_EDGES[i]
  {}

  lemma StandingListed(a: Arc)
    requires a in OPENING || a in EXECUTION || a in JOINING
    ensures EdgeOf(a) in START_EDGES || EdgeOf(a) in EXECUTION_EDGES || EdgeOf(a) in JOINING_EDGES
  {
    hide EdgeOf;
    if i: nat :| i < 3 && OPENING[i] == a { StartEdge(i); }
    else if i: nat :| i < 9 && EXECUTION[i] == a { ExecutionEdge(i); }
    else { var i: nat :| i < 3 && JOINING[i] == a; StartEdge(i); }
  }

  lemma StandingArc(e: Edge) returns (a: Arc)
    requires e in START_EDGES || e in EXECUTION_EDGES || e in JOINING_EDGES
    ensures (a in OPENING || a in EXECUTION || a in JOINING) && EdgeOf(a) == e
  {
    hide EdgeOf;
    if i: nat :| i < 3 && START_EDGES[i] == e { StartEdge(i); a := OPENING[i]; }
    else if i: nat :| i < 9 && EXECUTION_EDGES[i] == e { ExecutionEdge(i); a := EXECUTION[i]; }
    else { var i: nat :| i < 3 && JOINING_EDGES[i] == e; StartEdge(i); a := JOINING[i]; }
  }

  lemma RuleArcsListed(i: nat, e: Edge)
    ensures e in RuleEdges(i) <==> e in {EdgeOf(IntentArc(i)), EdgeOf(RuleArc(i)), EdgeOf(ReviewArc(i)), EdgeOf(ApprovedArc(i))}
  {}

  lemma CheckArcsListed(p: Plan, s: Spec, e: Edge)
    ensures e in CheckEdges(p, s) <==> e in {EdgeOf(EvaluateArc(p, s)), EdgeOf(SnapshotArc(p, s)), EdgeOf(ReceiptArc(p, s))}
  {
    hide Plan.Tok;
  }

  lemma GuardArcsListed(p: Plan, i: nat, e: Edge)
    requires i < |p.guards|
    ensures e in GuardEdges(p, i) <==> e in {EdgeOf(CriterionArc(p, p.guards[i], i)), EdgeOf(GuardArc(i))}
  {
    hide Plan.Tok;
  }

  lemma ArcListed(p: Plan, a: Arc)
    requires InGroups(p, a) || a == ACCEPTANCE
    ensures EdgeListed(p, EdgeOf(a))
  {
    hide EdgeOf, RuleEdges, CheckEdges, GuardEdges, START_EDGES, EXECUTION_EDGES, JOINING_EDGES;
    hide IntentArc, RuleArc, ReviewArc, ApprovedArc, GuardArc, CriterionArc, EvaluateArc, SnapshotArc, ReceiptArc;
    if a in OPENING || a in EXECUTION || a in JOINING {
      StandingListed(a);
    } else if i: nat :| i < |p.rules| && a in {IntentArc(i), RuleArc(i), ReviewArc(i), ApprovedArc(i)} {
      RuleArcsListed(i, EdgeOf(a));
      assert EdgeOf(a) in RuleEdges(i);
    } else if s :| s in p.specs && a in {EvaluateArc(p, s), SnapshotArc(p, s), ReceiptArc(p, s)} {
      CheckArcsListed(p, s, EdgeOf(a));
      assert EdgeOf(a) in CheckEdges(p, s);
    } else {
      var i: nat :| i < |p.guards| && a in {CriterionArc(p, p.guards[i], i), GuardArc(i)};
      GuardArcsListed(p, i, EdgeOf(a));
      assert EdgeOf(a) in GuardEdges(p, i);
    }
  }

  lemma ListedArc(p: Plan, e: Edge) returns (a: Arc)
    requires EdgeListed(p, e)
    ensures (InGroups(p, a) || a == ACCEPTANCE) && EdgeOf(a) == e
  {
    hide EdgeOf, RuleEdges, CheckEdges, GuardEdges, START_EDGES, EXECUTION_EDGES, JOINING_EDGES;
    hide IntentArc, RuleArc, ReviewArc, ApprovedArc, GuardArc, CriterionArc, EvaluateArc, SnapshotArc, ReceiptArc;
    if e in START_EDGES || e in EXECUTION_EDGES || e in JOINING_EDGES {
      a := StandingArc(e);
    } else if i: nat :| i < |p.rules| && e in RuleEdges(i) {
      RuleArcsListed(i, e);
      a :| a in {IntentArc(i), RuleArc(i), ReviewArc(i), ApprovedArc(i)} && EdgeOf(a) == e;
    } else if s :| s in p.specs && e in CheckEdges(p, s) {
      CheckArcsListed(p, s, e);
      a :| a in {EvaluateArc(p, s), SnapshotArc(p, s), ReceiptArc(p, s)} && EdgeOf(a) == e;
    } else {
      var i: nat :| i < |p.guards| && e in GuardEdges(p, i);
      GuardArcsListed(p, i, e);
      a :| a in {CriterionArc(p, p.guards[i], i), GuardArc(i)} && EdgeOf(a) == e;
    }
  }

  /** A compiled graph has exactly the edges listed. */
  lemma EdgesAre(p: Plan, c: Contract, e: Edge)
    ensures e in Layout(p, c).edges <==> EdgeListed(p, e)
  {
    hide EdgeListed, InGroups, EdgeOf, FrontArcs, ACCEPTANCE;
    if e in Edges(p) {
      var i :| 0 <= i < |Edges(p)| && Edges(p)[i] == e;
      var a := Arcs(p)[i];
      assert a in FrontArcs(p) || a == ACCEPTANCE;
      GroupsAre(p, a);
      ArcListed(p, a);
    }
    if EdgeListed(p, e) {
      var a := ListedArc(p, e);
      GroupsAre(p, a);
      assert a in Arcs(p);
      var i :| 0 <= i < |Arcs(p)| && Arcs(p)[i] == a;
      assert Edges(p)[i] == e;
    }
  }

  // ---- the rest ----

  function RuleNames(n: nat): seq<string> {
    seq(n, i requires 0 <= i < n => "action.rule." + Decimal(i))
  }

  function ApprovalNames(n: nat): seq<string> {
    seq(n, i requires 0 <= i < n => "approval.rule." + Decimal(i))
  }

  function CriterionNames(n: nat): seq<string> {
    seq(n, i requires 0 <= i < n => "criterion." + Decimal(i))
  }

  /** One rule suffices, one authority suffices, and every criterion is needed; the digests are the
      contract's, an absent profile reading as 64 zeros. */
  lemma RestIs(p: Plan, c: Contract)
    ensures var m := Layout(p, c);
            && m.joins == [Join("join.action.rule.any", RuleNames(|p.rules|), AnyOf, None),
                           Join("join.action.authority.any", ["policy.decision"] + ApprovalNames(|p.rules|), AnyOf, None),
                           Join("join.guards.all", CriterionNames(|p.guards|), All, None)]
            && m.contract_digest == c.contract_digest
            && (c.profile_digest != "" ==> m.profile_digest == c.profile_digest)
            && (c.profile_digest == "" ==> |m.profile_digest| == 64 && forall k :: 0 <= k < 64 ==> m.profile_digest[k] == '0')
  {
    hide Nodes, Edges;
    assert Names(RuleRefs(p)) == RuleNames(|p.rules|);
    assert Names([PolicyDecision] + ApprovalRefs(p)) == ["policy.decision"] + ApprovalNames(|p.rules|);
    assert Names(CriterionRefs(p)) == CriterionNames(|p.guards|);
    assert ZERO_DIGEST == Zeros(64);
    forall k | 0 <= k < 64 ensures Zeros(64)[k] == '0' { assert Zeros(64)[k] in Zeros(64); }
  }
}
