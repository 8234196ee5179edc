/** The compiler from a task contract to the control graph. */
module ControlGraph {
  import opened GraphSchema
  import opened Text
  import opened Manifest

  /** One server-owned action rule, as far as the graph records it. */
  datatype Rule = Rule(tool: string, effect: string, target_prefix: string)

  /** The parts of a task contract the compiler reads. */
  datatype Contract = Contract(
    contract_digest: string, profile_digest: string,
    success_conditions: seq<string>, completion_guards: seq<string>, allowed_actions: seq<Rule>,
    required_verifiers: seq<seq<string>>, bindings: map<string, seq<string>>)
  {
    /** What the contract's constructor and its digest guarantee. */
    predicate WellFormed() {
      success_conditions != [] && allowed_actions != [] && |contract_digest| == 64
    }

    function Guards(): seq<string> {
      if completion_guards != [] then completion_guards else success_conditions
    }
  }

  /** A check with the type of the receipt that proves it. */
  datatype Spec = Spec(check: string, receipt: string)

  // ---- names ----

  function MapChars(alnum: char -> bool, s: string): string {
    if s == [] then [] else [if alnum(s[0]) then s[0] else '-'] + MapChars(alnum, s[1..])
  }

  /** The identity-safe form of a name; alnum is the source's isalnum(). */
  function Token(alnum: char -> bool, value: string): string {
    var t := TrimEnd(TrimStart(MapChars(alnum, value), '-'), '-');
    if t == "" then "unnamed" else t
  }

  function Dedupe(names: seq<string>): (r: seq<string>)
    ensures forall n :: n in r <==> n in names
    ensures forall i, j :: 0 <= i < j < |r| ==> r[i] != r[j]
  {
    if names == [] then []
    else
      var front, last := Dedupe(names[..|names| - 1]), names[|names| - 1];
      assert names == names[..|names| - 1] + [last];
      if last in front then front else front + [last]
  }

  function Flatten(names: seq<seq<string>>): seq<string> {
    if names == [] then [] else names[0] + Flatten(names[1..])
  }

  function Checks(specs: seq<Spec>): seq<string> {
    seq(|specs|, i requires 0 <= i < |specs| => specs[i].check)
  }

  function Receipts(specs: seq<Spec>): seq<string> {
    seq(|specs|, i requires 0 <= i < |specs| => specs[i].receipt)
  }

  /** Adds the planned evaluators not already present; a blank identity raises. */
  function AddPlanned(specs: seq<Spec>, planned: seq<Spec>): Option<seq<Spec>>
    decreases planned
  {
    if planned == [] then Some(specs)
    else if Blank(planned[0].check) || Blank(planned[0].receipt) then None
    else AddPlanned(if planned[0].check in Checks(specs) then specs else specs + [planned[0]], planned[1..])
  }

  function BaseSpecs(c: Contract): seq<Spec> {
    SelfReceipts(Dedupe(Flatten(c.required_verifiers)) + c.Guards())
  }

  function SelfReceipts(names: seq<string>): seq<Spec> {
    seq(|names|, i requires 0 <= i < |names| => Spec(names[i], names[i]))
  }

  /** What the graph is laid out from. */
  datatype Plan = Plan(alnum: char -> bool, rules: seq<Rule>, guards: seq<string>, specs: seq<Spec>,
                       bindings: map<string, seq<string>>)
  {
    function Tok(name: string): string { Token(alnum, name) }
    function ReceiptNames(): seq<string> { Dedupe(Receipts(specs) + guards) }
  }

  // ---- node identities ----

  datatype Ref =
    | TaskContract | PrincipalContract | ActionIntent | ActionRule(index: nat) | RuleJoin
    | PolicyDecision | ApprovalRule(index: nat) | AuthorityJoin | CapabilityExecute
    | OperationPrepared | ExecutorDispatch | ExecutorResult | OperationReconcile
    | SnapshotRequest | SnapshotMaterialized | ArtifactManifest
    | EvaluatorOf(token: string) | ReceiptOf(token: string) | CriterionOf(index: nat)
    | GuardJoin | AcceptDecision | EscalateDecision

  function Name(r: Ref): string {
    match r
    case TaskContract => "task.contract"
    case PrincipalContract => "principal.contract"
    case ActionIntent => "action.intent"
    case ActionRule(i) => "action.rule." + Decimal(i)
    case RuleJoin => "join.action.rule.any"
    case PolicyDecision => "policy.decision"
    case ApprovalRule(i) => "approval.rule." + Decimal(i)
    case AuthorityJoin => "join.action.authority.any"
    case CapabilityExecute => "capability.execute"
    case OperationPrepared => "operation.prepared"
    case ExecutorDispatch => "executor.dispatch"
    case ExecutorResult => "executor.result"
    case OperationReconcile => "operation.reconcile"
    case SnapshotRequest => "snapshot.request"
    case SnapshotMaterialized => "snapshot.materialized"
    case ArtifactManifest => "artifact.manifest"
    case EvaluatorOf(t) => "evaluator." + t
    case ReceiptOf(t) => "receipt." + t
    case CriterionOf(i) => "criterion." + Decimal(i)
    case GuardJoin => "join.guards.all"
    case AcceptDecision => ACCEPT
    case EscalateDecision => "decision.escalate"
  }

  /** Which constructor a name comes from, read off characters of its fixed part. */
  function Kind(s: string): nat {
    if |s| < 8 then 99
    else match s[0]
      case 't' => 0
      case 'p' => if s[1] == 'r' then 1 else 5
      case 'a' => if s[1] == 'r' then 15 else if s[1] == 'p' then 6 else if s[7] == 'i' then 2 else 3
      case 'j' => if s[5] == 'g' then 19 else if |s| == 20 then 4 else 7
      case 'c' => if s[1] == 'a' then 8 else 18
      case 'o' => if |s| == 18 then 9 else 12
      case 'e' => if s[1] == 'v' then 16 else if |s| == 17 then 10 else 11
      case 's' => if |s| == 16 then 13 else 14
      case 'r' => 17
      case 'd' => if |s| == 15 then 20 else 21
      case _ => 99
  }

  function KindOf(r: Ref): nat {
    match r
    case TaskContract => 0
    case PrincipalContract => 1
    case ActionIntent => 2
    case ActionRule(_) => 3
    case RuleJoin => 4
    case PolicyDecision => 5
    case ApprovalRule(_) => 6
    case AuthorityJoin => 7
    case CapabilityExecute => 8
    case OperationPrepared => 9
    case ExecutorDispatch => 10
    case ExecutorResult => 11
    case OperationReconcile => 12
    case SnapshotRequest => 13
    case SnapshotMaterialized => 14
    case ArtifactManifest => 15
    case EvaluatorOf(_) => 16
    case ReceiptOf(_) => 17
    case CriterionOf(_) => 18
    case GuardJoin => 19
    case AcceptDecision => 20
    case EscalateDecision => 21
  }

  lemma KindOfName(r: Ref)
    ensures Kind(Name(r)) == KindOf(r)
  {}

  lemma PrefixCancel(p: string, a: string, b: string)
    requires p + a == p + b
    ensures a == b
  {
    assert (p + a)[|p|..] == a && (p + b)[|p|..] == b;
  }

  /** Distinct graph positions have distinct identities. */
  lemma NameInjective(a: Ref, b: Ref)
    requires Name(a) == Name(b)
    ensures a == b
  {
    KindOfName(a);
    KindOfName(b);
    match a
    case ActionRule(i) => PrefixCancel("action.rule.", Decimal(i), Decimal(b.index)); DecimalInjective(i, b.index);
    case ApprovalRule(i) => PrefixCancel("approval.rule.", Decimal(i), Decimal(b.index)); DecimalInjective(i, b.index);
    case EvaluatorOf(t) => PrefixCancel("evaluator.", t, b.token);
    case ReceiptOf(t) => PrefixCancel("receipt.", t, b.token);
    case CriterionOf(i) => PrefixCancel("criterion.", Decimal(i), Decimal(b.index)); DecimalInjective(i, b.index);
    case _ =>
  }

  // ---- nodes ----

  function P(name: string, schemaId: string): Port {
    Port(name, SchemaDigest(schemaId))
  }

  const CONTRACT := "TaskContract.v1"
  const PRINCIPAL := "PrincipalAuthority.v1"
  const INTENT := "ActionIntent.v1"
  const POLICY := "PolicyDecision.v1"
  const CAPABILITY := "Capability.v1"
  const OPERATION := "PreparedOperation.v1"
  const RESULT := "SupervisorResult.v1"
  const ARTIFACT := "ArtifactManifest.v2"
  const SNAPSHOT := "WorkspaceSnapshot.v1"
  const RECEIPT := "SignedEvaluationReceipt.v2"
  const GUARD := "VerifiedGuard.v1"
  const BARRIER := "AllGuardsBarrier.v1"

  function NumberedPorts(prefix: string, schemaId: string, n: nat): seq<Port> {
    seq(n, i requires 0 <= i < n => P(prefix + Decimal(i), schemaId))
  }

  function TypeOf(r: Ref): NodeType {
    match r
    case TaskContract => Task
    case PrincipalContract => Principal
    case ActionIntent => Action
    case ActionRule(_) => Action
    case RuleJoin => JoinNode
    case PolicyDecision => Capability
    case ApprovalRule(_) => Approval
    case AuthorityJoin => JoinNode
    case CapabilityExecute => Capability
    case OperationPrepared => Operation
    case ExecutorDispatch => Executor
    case ExecutorResult => Executor
    case OperationReconcile => Operation
    case SnapshotRequest => Snapshot
    case SnapshotMaterialized => Snapshot
    case ArtifactManifest => Artifact
    case EvaluatorOf(_) => Evaluator
    case ReceiptOf(_) => Receipt
    case CriterionOf(_) => Criterion
    case GuardJoin => JoinNode
    case AcceptDecision => Decision
    case EscalateDecision => Decision
  }

  function InputsOf(p: Plan, r: Ref): seq<Port> {
    match r
    case TaskContract => []
    case PrincipalContract => [P("contract", CONTRACT)]
    case ActionIntent => [P("contract", CONTRACT)]
    case ActionRule(_) => [P("intent", INTENT)]
    case RuleJoin => NumberedPorts("intent.", INTENT, |p.rules|)
    case PolicyDecision => [P("intent", INTENT)]
    case ApprovalRule(_) => [P("decision", POLICY)]
    case AuthorityJoin => NumberedPorts("authority.", INTENT, |p.rules| + 1)
    case CapabilityExecute => [P("intent", INTENT), P("authority", PRINCIPAL)]
    case OperationPrepared => [P("capability", CAPABILITY)]
    case ExecutorDispatch => [P("operation", OPERATION)]
    case ExecutorResult => [P("dispatch", OPERATION)]
    case OperationReconcile => []
    case SnapshotRequest => [P("contract", CONTRACT)]
    case SnapshotMaterialized => [P("request", CONTRACT)]
    case ArtifactManifest => [P("result", RESULT)]
    case EvaluatorOf(_) => [P("artifact", ARTIFACT), P("snapshot", SNAPSHOT)]
    case ReceiptOf(_) => [P("receipt", RECEIPT)]
    case CriterionOf(_) => [P("receipt", RECEIPT)]
    case GuardJoin => NumberedPorts("guard.", GUARD, |p.guards|)
    case AcceptDecision => [P("barrier", BARRIER)]
    case EscalateDecision => []
  }

  function OutputsOf(r: Ref): seq<Port> {
    match r
    case TaskContract => [P("contract", CONTRACT)]
    case PrincipalContract => [P("authority", PRINCIPAL)]
    case ActionIntent => [P("intent", INTENT)]
    case ActionRule(_) => [P("matched_intent", INTENT)]
    case RuleJoin => [P("matched_intent", INTENT)]
    case PolicyDecision => [P("decision", POLICY), P("direct_intent", INTENT)]
    case ApprovalRule(_) => [P("approved_intent", INTENT)]
    case AuthorityJoin => [P("authorised_intent", INTENT)]
    case CapabilityExecute => [P("capability", CAPABILITY)]
    case OperationPrepared => [P("operation", OPERATION)]
    case ExecutorDispatch => [P("dispatch", OPERATION)]
    case ExecutorResult => [P("result", RESULT)]
    case OperationReconcile => []
    case SnapshotRequest => [P("request", CONTRACT)]
    case SnapshotMaterialized => [P("snapshot", SNAPSHOT)]
    case ArtifactManifest => [P("manifest", ARTIFACT)]
    case EvaluatorOf(_) => [P("receipt", RECEIPT)]
    case ReceiptOf(_) => [P("verified", RECEIPT)]
    case CriterionOf(_) => [P("guard", GUARD)]
    case GuardJoin => [P("barrier", BARRIER)]
    case AcceptDecision => []
    case EscalateDecision => []
  }

  function EffectOf(r: Ref): Effect {
    match r
    case ExecutorDispatch => SideEffect
    case AcceptDecision => Terminal
    case EscalateDecision => Terminal
    case _ => ReadOnly
  }

  function AuthorityOf(r: Ref): string {
    match r
    case PrincipalContract => "1"
    case PolicyDecision => "policy-gate"
    case ApprovalRule(_) => "human-review"
    case CapabilityExecute => "policy-gate"
    case ExecutorDispatch => "capability.execute"
    case _ => ""
  }

  /** The role that alone may produce a node's completion. */
  function RoleOf(r: Ref): string {
    match r
    case TaskContract => "controller"
    case PrincipalContract => "policy"
    case ActionIntent => "controller"
    case ActionRule(_) => "policy"
    case RuleJoin => "scheduler"
    case PolicyDecision => "policy"
    case ApprovalRule(_) => "approval-verifier"
    case AuthorityJoin => "scheduler"
    case CapabilityExecute => "policy"
    case OperationPrepared => "executor-supervisor"
    case ExecutorDispatch => "controller"
    case ExecutorResult => "executor-supervisor"
    case OperationReconcile => "executor-supervisor"
    case SnapshotRequest => "controller"
    case SnapshotMaterialized => "snapshot-service"
    case ArtifactManifest => "artifact-validator"
    case EvaluatorOf(t) => "evaluator/" + t
    case ReceiptOf(_) => "receipt-verifier"
    case CriterionOf(_) => "criterion-verifier"
    case GuardJoin => "scheduler"
    case AcceptDecision => "execution-validator"
    case EscalateDecision => "controller"
  }

  function CommaJoin(names: seq<string>): string {
    if names == [] then "" else if |names| == 1 then names[0] else names[0] + "," + CommaJoin(names[1..])
  }

  /** A node to lay out: its position, and the name it was made from where that is not determined by it. */
  datatype Slot = Slot(ref: Ref, name: string)

  function MetadataOf(p: Plan, s: Slot): map<string, string> {
    var own := map["producer_role" := RoleOf(s.ref)];
    match s.ref
    case ActionRule(i) =>
      if i < |p.rules| then
        own["rule_index" := Decimal(i)]["tool" := p.rules[i].tool]["effect" := p.rules[i].effect]["target_prefix" := p.rules[i].target_prefix]
      else own
    case ApprovalRule(i) => own["rule_index" := Decimal(i)]["dynamic" := "true"]
    case OperationReconcile => own["recovery" := "true"]
    case EvaluatorOf(_) => own["check_name" := s.name]
    case ReceiptOf(_) => own["receipt_type" := s.name]["terminal" := "true"]
    case CriterionOf(_) =>
      own["guard" := s.name]["required_checks" :=
        CommaJoin(if s.name in p.bindings then p.bindings[s.name] else [s.name])]
    case _ => own
  }

  function NodeOf(p: Plan, s: Slot): Node {
    Node(Name(s.ref), TypeOf(s.ref), EffectOf(s.ref), AuthorityOf(s.ref), None, None,
         if s.ref.AcceptDecision? then p.guards else [],
         InputsOf(p, s.ref), OutputsOf(s.ref), MetadataOf(p, s))
  }

  function Fixed(refs: seq<Ref>): seq<Slot> {
    seq(|refs|, i requires 0 <= i < |refs| => Slot(refs[i], ""))
  }

  function EvaluatorSlots(p: Plan): seq<Slot> {
    seq(|p.specs|, i requires 0 <= i < |p.specs| => Slot(EvaluatorOf(p.Tok(p.specs[i].check)), p.specs[i].check))
  }

  function ReceiptSlots(p: Plan): seq<Slot> {
    NamedReceipts(p, p.ReceiptNames())
  }

  function NamedReceipts(p: Plan, names: seq<string>): seq<Slot> {
    seq(|names|, i requires 0 <= i < |names| => Slot(ReceiptOf(p.Tok(names[i])), names[i]))
  }

  function CriterionSlots(p: Plan): seq<Slot> {
    seq(|p.guards|, i requires 0 <= i < |p.guards| => Slot(CriterionOf(i), p.guards[i]))
  }

  const FIRST: seq<Ref> := [TaskContract, PrincipalContract, ActionIntent]
  const SELECTION: seq<Ref> := [RuleJoin, PolicyDecision]
  const CORE: seq<Ref> :=
    [AuthorityJoin, CapabilityExecute, OperationPrepared, ExecutorDispatch, ExecutorResult,
     OperationReconcile, SnapshotRequest, SnapshotMaterialized, ArtifactManifest]
  const LAST: seq<Ref> := [GuardJoin, AcceptDecision, EscalateDecision]

  /** Every node of the graph, in declaration order. */
  function Slots(p: Plan): seq<Slot> {
    Fixed(FIRST) + Fixed(RuleRefs(p)) + Fixed(SELECTION) + Fixed(ApprovalRefs(p)) + Fixed(CORE)
    + EvaluatorSlots(p) + ReceiptSlots(p) + CriterionSlots(p) + Fixed(LAST)
  }

  // ---- edges ----

  datatype Arc = Arc(source: Ref, target: Ref, edge_type: EdgeType, condition: Condition,
                     source_port: string, target_port: string, pred: Predicate)

  function Link(s: Ref, t: Ref, k: EdgeType, sp: string, tp: string): Arc {
    Arc(s, t, k, Unconditional, sp, tp, Always)
  }

  function When(s: Ref, t: Ref, k: EdgeType, sp: string, tp: string, field: string, value: string): Arc {
    Arc(s, t, k, Unconditional, sp, tp, FieldEquals(field, value))
  }

  function IntentArc(i: nat): Arc {
    When(ActionIntent, ActionRule(i), DependsOn, "intent", "intent", "rule_index", Decimal(i))
  }

  function RuleArc(i: nat): Arc {
    Link(ActionRule(i), RuleJoin, Satisfies, "matched_intent", "intent." + Decimal(i))
  }

  function ReviewArc(i: nat): Arc {
    When(PolicyDecision, ApprovalRule(i), AuthorisedBy, "decision", "decision", "approval_required", "true")
  }

  function ApprovedArc(i: nat): Arc {
    Link(ApprovalRule(i), AuthorityJoin, Satisfies, "approved_intent", "authority." + Decimal(i + 1))
  }

  function EvaluateArc(p: Plan, s: Spec): Arc {
    Arc(ArtifactManifest, EvaluatorOf(p.Tok(s.check)), VerifiedBy, ExecutionSuccess, "manifest", "artifact", Always)
  }

  function SnapshotArc(p: Plan, s: Spec): Arc {
    Link(SnapshotMaterialized, EvaluatorOf(p.Tok(s.check)), Requires, "snapshot", "snapshot")
  }

  function ReceiptArc(p: Plan, s: Spec): Arc {
    Link(EvaluatorOf(p.Tok(s.check)), ReceiptOf(p.Tok(s.receipt)), Produced, "receipt", "receipt")
  }

  function CriterionArc(p: Plan, guard: string, i: nat): Arc {
    Link(ReceiptOf(p.Tok(guard)), CriterionOf(i), VerifiedBy, "verified", "receipt")
  }

  function GuardArc(i: nat): Arc {
    Arc(CriterionOf(i), GuardJoin, Satisfies, GuardPass, "guard", "guard." + Decimal(i), Always)
  }

  function PerSpec(p: Plan, arc: (Plan, Spec) -> Arc): seq<Arc> {
    seq(|p.specs|, i requires 0 <= i < |p.specs| => arc(p, p.specs[i]))
  }

  function PerIndex(n: nat, arc: nat -> Arc): seq<Arc> {
    seq(n, i requires 0 <= i < n => arc(i))
  }

  function CriterionArcs(p: Plan): seq<Arc> {
    seq(|p.guards|, i requires 0 <= i < |p.guards| => CriterionArc(p, p.guards[i], i))
  }

  const OPENING: seq<Arc> :=
    [Link(TaskContract, PrincipalContract, DependsOn, "contract", "contract"),
     Link(TaskContract, ActionIntent, DependsOn, "contract", "contract"),
     Link(TaskContract, SnapshotRequest, DependsOn, "contract", "contract")]

  const RULE_TO_POLICY: Arc := Link(RuleJoin, PolicyDecision, DependsOn, "matched_intent", "intent")

  const DIRECT: Arc :=
    When(PolicyDecision, AuthorityJoin, Satisfies, "direct_intent", "authority.0", "approval_required", "false")

  const EXECUTION: seq<Arc> :=
    [Link(PrincipalContract, CapabilityExecute, AuthorisedBy, "authority", "authority"),
     Link(AuthorityJoin, CapabilityExecute, Satisfies, "authorised_intent", "intent"),
     Link(CapabilityExecute, OperationPrepared, AuthorisedBy, "capability", "capability"),
     Link(OperationPrepared, ExecutorDispatch, DispatchedTo, "operation", "operation"),
     Link(ExecutorDispatch, ExecutorResult, Produced, "dispatch", "dispatch"),
     Arc(ExecutorResult, ArtifactManifest, Produced, ExecutionSuccess, "result", "result", Always),
     Arc(ExecutorResult, OperationReconcile, Reconciles, OutcomeUnknownOrFailed, "", "", Always),
     Link(OperationReconcile, EscalateDecision, EscalatesTo, "", ""),
     Link(SnapshotRequest, SnapshotMaterialized, DependsOn, "request", "request")]

  const ACCEPTANCE: Arc := Link(GuardJoin, AcceptDecision, Satisfies, "barrier", "barrier")

  /** Every edge but the last, in declaration order. */
  function FrontArcs(p: Plan): seq<Arc> {
    OPENING + PerIndex(|p.rules|, IntentArc) + PerIndex(|p.rules|, RuleArc) + [RULE_TO_POLICY]
    + PerIndex(|p.rules|, ReviewArc) + [DIRECT] + PerIndex(|p.rules|, ApprovedArc) + EXECUTION
    + PerSpec(p, EvaluateArc) + PerSpec(p, SnapshotArc) + PerSpec(p, ReceiptArc)
    + CriterionArcs(p) + PerIndex(|p.guards|, GuardArc)
  }

  /** Every edge of the graph, in declaration order. */
  function Arcs(p: Plan): seq<Arc> {
    FrontArcs(p) + [ACCEPTANCE]
  }

  function EdgeOf(a: Arc): Edge {
    Edge(Name(a.source), Name(a.target), a.edge_type, a.condition, a.source_port, a.target_port, a.pred)
  }

  // ---- the manifest ----

  function Nodes(p: Plan): seq<Node> {
    SlotNodes(p, Slots(p))
  }

  function SlotNodes(p: Plan, slots: seq<Slot>): seq<Node> {
    seq(|slots|, i requires 0 <= i < |slots| => NodeOf(p, slots[i]))
  }

  function Edges(p: Plan): seq<Edge> {
    ArcEdges(Arcs(p))
  }

  function ArcEdges(arcs: seq<Arc>): seq<Edge> {
    seq(|arcs|, i requires 0 <= i < |arcs| => EdgeOf(arcs[i]))
  }

  function Names(refs: seq<Ref>): seq<string> {
    seq(|refs|, i requires 0 <= i < |refs| => Name(refs[i]))
  }

  function RuleRefs(p: Plan): seq<Ref> { seq(|p.rules|, i requires 0 <= i < |p.rules| => ActionRule(i)) }

  function ApprovalRefs(p: Plan): seq<Ref> { seq(|p.rules|, i requires 0 <= i < |p.rules| => ApprovalRule(i)) }

  function CriterionRefs(p: Plan): seq<Ref> { seq(|p.guards|, i requires 0 <= i < |p.guards| => CriterionOf(i)) }

  function Joins(p: Plan): seq<Join> {
    [Join(Name(RuleJoin), Names(RuleRefs(p)), AnyOf, None),
     Join(Name(AuthorityJoin), Names([PolicyDecision] + ApprovalRefs(p)), AnyOf, None),
     Join(Name(GuardJoin), Names(CriterionRefs(p)), All, None)]
  }

  const ZERO_DIGEST: string := Zeros(64)

  function Layout(p: Plan, c: Contract): Manifest {
    Manifest(c.contract_digest, if c.profile_digest == "" then ZERO_DIGEST else c.profile_digest,
             Nodes(p), Edges(p), Joins(p))
  }

  /** The plan the compiler lays out, or None where a planned receipt has a blank identity. */
  function PlanOf(alnum: char -> bool, c: Contract, planned: seq<Spec>): Option<Plan> {
    var specs := AddPlanned(BaseSpecs(c), planned);
    if specs.None? then None else Some(Plan(alnum, c.allowed_actions, c.Guards(), specs.value, c.bindings))
  }
}
