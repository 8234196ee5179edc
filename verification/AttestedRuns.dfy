/** From stored acceptance back to the signed statements of the nodes' owners. */
module AttestedRuns {
  import opened GraphSchema
  import opened Text
  import opened Manifest
  import opened Monitor
  import opened ControlGraph
  import opened ControlGraphShape
  import opened ControlGraphValid
  import opened ControlGraphAccepted
  import opened CompiledSafety
  import opened Attestations
  import opened Scheduler
  import opened SchedulerSafety
  import opened CertifiedRuns

  /** No call lays its own success or verdict over a signed completion. */
  predicate Unlaid(u: Setup, c: Call) {
    Signed(u, c).Some? ==> "success" !in Laid(c) && "passed" !in Laid(c)
  }

  /** The positions left to the controller and to the scheduler's joins. */
  predicate Internal(r: Ref) {
    || r.TaskContract? || r.ActionIntent? || r.ExecutorDispatch? || r.SnapshotRequest? || r.EscalateDecision?
    || r.RuleJoin? || r.AuthorityJoin? || r.GuardJoin?
  }

  /** The owner of a position signed, for this very instance, the completion its row records. */
  ghost predicate AttestedBy(u: Setup, calls: seq<Call>, key: Key, r: Ref, i: nat) {
    && i < |calls| && SchedulerSafety.Accepted(u, calls, i) && Signed(u, calls[i]).Some? && Owned(u, calls[i])
    && Records(u, DbRun(u, calls), key, Name(r), calls[i])
  }

  /** Under a verifier exactly the other positions need a completion of their owner. */
  lemma PositionExternal(u: Setup, p: Plan, c: Contract, r: Ref)
    requires u.manifest == Layout(p, c) && HasRef(p, r)
    ensures External(u, Name(r)) <==> u.verifier.Some? && !Internal(r)
  {
    hide Name, Nodes, ById, HasRef, RoleOf, SlotOk;
    var s := Lookup(p, c, r);
    OwnRole(p, s);
    InternalRoles(r);
  }

  lemma InternalRoles(r: Ref)
    ensures RoleOf(r) in {"controller", "scheduler"} <==> Internal(r)
  {
    if r.EvaluatorOf? { assert RoleOf(r)[0] == 'e'; }
  }

  lemma OwnRole(p: Plan, s: Slot)
    ensures Role(NodeOf(p, s)) == RoleOf(s.ref)
  {
    hide Name, CommaJoin, InputsOf, OutputsOf;
    assert |"producer_role"| == 13 && |"rule_index"| == 10 && |"tool"| == 4 && |"effect"| == 6 && |"dynamic"| == 7
           && |"recovery"| == 8 && |"check_name"| == 10 && |"receipt_type"| == 12 && |"terminal"| == 8
           && |"guard"| == 5 && |"required_checks"| == 15;
    assert "target_prefix"[0] != "producer_role"[0];
  }

  lemma DoneAttested(u: Setup, p: Plan, c: Contract, calls: seq<Call>, key: Key, r: Ref) returns (i: nat)
    requires PlanOk(p) && u.manifest == Layout(p, c) && u.verifier.Some? && HasRef(p, r) && !Internal(r)
    requires key in DbRun(u, calls).rows && Done(DbRun(u, calls).rows[key].state, r)
    ensures AttestedBy(u, calls, key, r, i)
  {
    hide PlanOk, Layout, HasRef, Internal, WellFormed, External, DbRun, Name, Records, Owned;
    CompiledWellFormed(p, c);
    PositionExternal(u, p, c, r);
    i := ExternalByOwner(u, calls, key, Name(r));
  }

  // ---- who owns what ----

  /** The deployment assigns the nodes the roles the graph gives them. */
  predicate FollowsGraph(u: Setup) {
    u.verifier.Some? && forall n :: n in ById(u.manifest.nodes) && n in u.verifier.value.owners ==>
      u.verifier.value.owners[n] == Role(ById(u.manifest.nodes)[n])
  }

  /** Attested, under ownership that follows the graph, in a given role. */
  ghost predicate AttestedAs(u: Setup, calls: seq<Call>, key: Key, r: Ref, role: string, i: nat) {
    AttestedBy(u, calls, key, r, i) && (FollowsGraph(u) ==> Signed(u, calls[i]).value.role == role)
  }

  ghost predicate SignedAs(u: Setup, calls: seq<Call>, key: Key, r: Ref, role: string) {
    exists i: nat :: AttestedAs(u, calls, key, r, role, i)
  }

  lemma DoneSigned(u: Setup, p: Plan, c: Contract, calls: seq<Call>, key: Key, r: Ref)
    returns (i: nat)
    requires PlanOk(p) && u.manifest == Layout(p, c) && u.verifier.Some? && HasRef(p, r) && !Internal(r)
    requires key in DbRun(u, calls).rows && Done(DbRun(u, calls).rows[key].state, r)
    ensures AttestedAs(u, calls, key, r, RoleOf(r), i)
  {
    hide PlanOk, Layout, HasRef, Internal, DbRun, Name, Records, FollowsGraph, RoleOf, Owned, NodeOf, Role;
    i := DoneAttested(u, p, c, calls, key, r);
    LaidRole(p, c, r);
    AttestedNode(u, calls, key, r, i);
    RoleFollowed(u, calls[i], RoleOf(r));
  }

  lemma LaidRole(p: Plan, c: Contract, r: Ref)
    requires HasRef(p, r)
    ensures Name(r) in ById(Layout(p, c).nodes) && Role(ById(Layout(p, c).nodes)[Name(r)]) == RoleOf(r)
  {
    hide Name, Nodes, ById, HasRef, RoleOf, SlotOk;
    var s := Lookup(p, c, r);
    OwnRole(p, s);
  }

  lemma AttestedNode(u: Setup, calls: seq<Call>, key: Key, r: Ref, i: nat)
    requires AttestedBy(u, calls, key, r, i)
    ensures calls[i].node == Name(r) && !calls[i].Reserving?
  {
    hide Owned, Name, DbRun, MoveOf;
  }

  lemma RoleFollowed(u: Setup, c: Call, role: string)
    requires Signed(u, c).Some? && !c.Reserving? && Owned(u, c)
    requires c.node in ById(u.manifest.nodes) && Role(ById(u.manifest.nodes)[c.node]) == role
    ensures FollowsGraph(u) ==> Signed(u, c).value.role == role
  {
    hide InstanceId;
  }

  /** What the row records of a field is what the completion says. */
  lemma RecordedField(u: Setup, calls: seq<Call>, key: Key, r: Ref, i: nat)
    requires AttestedBy(u, calls, key, r, i) && Unlaid(u, calls[i]) && Done(DbRun(u, calls).rows[key].state, r)
    ensures var s, signed := DbRun(u, calls).rows[key].state, Signed(u, calls[i]).value;
            && Recorded(s, r, "success") == Bool(signed.result == Succeeded)
            && (Recorded(s, r, "passed") == Bool(true) ==> "passed" in signed.facts && signed.facts["passed"] == "true")
  {
    hide DbRun, Name, Owned, SchedulerSafety.Accepted, CompletionPayload;
    var signed := Signed(u, calls[i]).value;
    PayloadFields(signed, u.seal(signed), Laid(calls[i]));
  }

  lemma PayloadFields(c: Completion, seal: string, payload: Payload)
    requires "success" !in payload && "passed" !in payload
    ensures var recorded := CompletionPayload(c, seal, payload);
            && Get(recorded, "success") == Bool(c.result == Succeeded)
            && (Get(recorded, "passed") == Bool(true) ==> "passed" in c.facts && c.facts["passed"] == "true")
  {
    assert |"success"| == 7 && |"passed"| == 6 && |"completion_digest"| == 17 && |"producer_identity"| == 17
           && |"producer_role"| == 13 && |"artifact_digest"| == 15;
    assert "passed"[0] != "result"[0];
  }

  /** No call lays its own answer over whether an approval is required. */
  predicate Undisputed(u: Setup, c: Call) {
    Signed(u, c).Some? ==> "approval_required" !in Laid(c)
  }

  // ---- the dispatch ----

  /** The policy owner's signed statement that no approval is required. */
  ghost predicate SignedDirect(u: Setup, calls: seq<Call>, key: Key, i: nat) {
    && AttestedAs(u, calls, key, PolicyDecision, "policy", i)
    && "approval_required" in Signed(u, calls[i]).value.facts
    && Signed(u, calls[i]).value.facts["approval_required"] == "false"
  }

  /** The signatures a touched dispatch has behind it, with the role of each. */
  ghost predicate DispatchSigned(u: Setup, p: Plan, calls: seq<Call>, key: Key) {
    && SignedAs(u, calls, key, PrincipalContract, "policy")
    && SignedAs(u, calls, key, PolicyDecision, "policy")
    && SignedAs(u, calls, key, CapabilityExecute, "policy")
    && SignedAs(u, calls, key, OperationPrepared, "executor-supervisor")
    && RuleSigned(u, p, calls, key)
    && (RecordedDirect(u, calls, key) || ReviewSigned(u, p, calls, key))
  }

  ghost predicate RecordedDirect(u: Setup, calls: seq<Call>, key: Key) {
    && key in DbRun(u, calls).rows && Done(DbRun(u, calls).rows[key].state, PolicyDecision)
    && Render(Recorded(DbRun(u, calls).rows[key].state, PolicyDecision, "approval_required")) == "false"
  }

  ghost predicate ReviewSigned(u: Setup, p: Plan, calls: seq<Call>, key: Key) {
    exists k: nat :: k < |p.rules| && SignedAs(u, calls, key, ApprovalRule(k), "approval-verifier")
  }

  /** The rule the intent named, and no other, was selected by the policy owner. */
  ghost predicate RuleSigned(u: Setup, p: Plan, calls: seq<Call>, key: Key) {
    exists i: nat :: i < |p.rules| && SignedAs(u, calls, key, ActionRule(i), "policy") && RuleNamed(u, calls, key, i)
  }

  ghost predicate RuleNamed(u: Setup, calls: seq<Call>, key: Key, i: nat) {
    && key in DbRun(u, calls).rows && Done(DbRun(u, calls).rows[key].state, ActionIntent)
    && Render(Recorded(DbRun(u, calls).rows[key].state, ActionIntent, "rule_index")) == Decimal(i)
  }

  /** Either an approval verifier signed an approval, or the policy owner signed that none is required. */
  ghost predicate ApprovalSigned(u: Setup, p: Plan, calls: seq<Call>, key: Key) {
    ReviewSigned(u, p, calls, key) || exists i: nat :: SignedDirect(u, calls, key, i)
  }

  lemma DispatchEvidence(u: Setup, p: Plan, c: Contract, calls: seq<Call>, key: Key)
    requires PlanOk(p) && u.manifest == Layout(p, c)
    requires key in DbRun(u, calls).rows && Active(DbRun(u, calls).rows[key].state, ExecutorDispatch)
    ensures DispatchAuthority(p, DbRun(u, calls).rows[key].state)
  {
    hide PlanOk, Layout, DispatchAuthority, Run, DbRun, WellFormed;
    CompiledWellFormed(p, c);
    var moves := RowsAreRuns(u, calls, key);
    NoEffectWithoutCapability(p, c, moves);
  }

  lemma FixedRefs(p: Plan)
    ensures HasRef(p, PrincipalContract) && HasRef(p, PolicyDecision) && HasRef(p, CapabilityExecute)
    ensures HasRef(p, OperationPrepared) && HasRef(p, ExecutorResult) && HasRef(p, ArtifactManifest)
    ensures HasRef(p, SnapshotMaterialized) && HasRef(p, OperationReconcile) && HasRef(p, AcceptDecision)
  {}

  /** Dispatch is attested: every touched dispatch of a compiled graph has behind it signed completions
      of the principal, the policy decision, the capability, the prepared operation and the rule its
      intent named, and a signed approval unless the policy decision was recorded as needing none; if no
      call lays that answer over a completion, it was signed as needing none. */
  lemma DispatchAttested(u: Setup, p: Plan, c: Contract, calls: seq<Call>, key: Key)
    requires PlanOk(p) && u.manifest == Layout(p, c) && u.verifier.Some?
    requires key in DbRun(u, calls).rows && Active(DbRun(u, calls).rows[key].state, ExecutorDispatch)
    ensures DispatchSigned(u, p, calls, key)
    ensures (forall call :: call in calls ==> Undisputed(u, call)) ==> ApprovalSigned(u, p, calls, key)
  {
    hide PlanOk, Layout, DbRun, Name, AttestedAs, FollowsGraph, HasRef, RuleSigned, ApprovalSigned, RecordedDirect, ReviewSigned,
         Undisputed, Render;
    DispatchEvidence(u, p, c, calls, key);
    FixedRefs(p);
    var i := DoneSigned(u, p, c, calls, key, PrincipalContract);
    i := DoneSigned(u, p, c, calls, key, PolicyDecision);
    i := DoneSigned(u, p, c, calls, key, CapabilityExecute);
    i := DoneSigned(u, p, c, calls, key, OperationPrepared);
    RuleAttested(u, p, c, calls, key);
    ApprovalAttested(u, p, c, calls, key);
  }

  lemma RuleAttested(u: Setup, p: Plan, c: Contract, calls: seq<Call>, key: Key)
    requires PlanOk(p) && u.manifest == Layout(p, c) && u.verifier.Some?
    requires key in DbRun(u, calls).rows && DispatchAuthority(p, DbRun(u, calls).rows[key].state)
    ensures RuleSigned(u, p, calls, key)
  {
    hide PlanOk, Layout, DbRun, Name, AttestedAs, FollowsGraph, Approved, Render;
    var s := DbRun(u, calls).rows[key].state;
    var i: nat :| i < |p.rules| && Done(s, ActionRule(i)) && Render(Recorded(s, ActionIntent, "rule_index")) == Decimal(i);
    var j := DoneSigned(u, p, c, calls, key, ActionRule(i));
    assert RuleNamed(u, calls, key, i);
  }

  lemma ApprovalAttested(u: Setup, p: Plan, c: Contract, calls: seq<Call>, key: Key)
    requires PlanOk(p) && u.manifest == Layout(p, c) && u.verifier.Some?
    requires key in DbRun(u, calls).rows && Approved(p, DbRun(u, calls).rows[key].state)
    ensures RecordedDirect(u, calls, key) || ReviewSigned(u, p, calls, key)
    ensures (forall call :: call in calls ==> Undisputed(u, call)) ==> ApprovalSigned(u, p, calls, key)
  {
    hide PlanOk, Layout, DbRun, Name, FollowsGraph, Render, Owned, Records, SchedulerSafety.Accepted, Undisputed;
    var s := DbRun(u, calls).rows[key].state;
    if k: nat :| k < |p.rules| && Done(s, ApprovalRule(k)) {
      var i := DoneSigned(u, p, c, calls, key, ApprovalRule(k));
    } else {
      var i := DoneSigned(u, p, c, calls, key, PolicyDecision);
      if forall call :: call in calls ==> Undisputed(u, call) {
        DirectField(u, calls, key, i);
        assert SignedDirect(u, calls, key, i);
      }
    }
  }

  lemma DirectField(u: Setup, calls: seq<Call>, key: Key, i: nat)
    requires AttestedBy(u, calls, key, PolicyDecision, i) && Undisputed(u, calls[i])
    requires Done(DbRun(u, calls).rows[key].state, PolicyDecision)
    requires Render(Recorded(DbRun(u, calls).rows[key].state, PolicyDecision, "approval_required")) == "false"
    ensures var facts := Signed(u, calls[i]).value.facts; "approval_required" in facts && facts["approval_required"] == "false"
  {
    hide DbRun, Name, Owned, SchedulerSafety.Accepted, CompletionPayload, Render;
    var signed := Signed(u, calls[i]).value;
    DirectPayload(signed, u.seal(signed), Laid(calls[i]));
  }

  lemma DirectPayload(c: Completion, seal: string, payload: Payload)
    requires "approval_required" !in payload
    requires Render(Get(CompletionPayload(c, seal, payload), "approval_required")) == "false"
    ensures "approval_required" in c.facts && c.facts["approval_required"] == "false"
  {
    assert |"approval_required"| == 17 && |"producer_identity"| == 17 && |"completion_digest"| == 17;
    assert "approval_required"[0] == 'a' && "producer_identity"[0] == 'p' && "completion_digest"[0] == 'c';
    assert |"success"| == 7 && |"result"| == 6 && |"producer_role"| == 13 && |"artifact_digest"| == 15 && |"passed"| == 6;
  }

  // ---- acceptance ----

  /** The signatures behind one guard: its criterion, signed as passed, its receipt, and every
      evaluator of that receipt. */
  ghost predicate GuardSigned(u: Setup, p: Plan, calls: seq<Call>, key: Key, g: nat)
    requires g < |p.guards|
  {
    && (exists i: nat :: AttestedPassed(u, calls, key, CriterionOf(g), i))
    && SignedAs(u, calls, key, ReceiptOf(p.Tok(p.guards[g])), "receipt-verifier")
    && forall k :: k in p.specs && p.Tok(k.receipt) == p.Tok(p.guards[g]) ==>
         SignedAs(u, calls, key, EvaluatorOf(p.Tok(k.check)), "evaluator/" + p.Tok(k.check))
  }

  ghost predicate AttestedPassed(u: Setup, calls: seq<Call>, key: Key, r: Ref, i: nat) {
    && AttestedAs(u, calls, key, r, "criterion-verifier", i)
    && "passed" in Signed(u, calls[i]).value.facts && Signed(u, calls[i]).value.facts["passed"] == "true"
  }

  ghost predicate AttestedSuccess(u: Setup, calls: seq<Call>, key: Key, r: Ref, role: string, i: nat) {
    AttestedAs(u, calls, key, r, role, i) && Signed(u, calls[i]).value.result == Succeeded
  }

  lemma GuardAttested(u: Setup, p: Plan, c: Contract, calls: seq<Call>, key: Key, g: nat)
    requires PlanOk(p) && u.manifest == Layout(p, c) && u.verifier.Some?
    requires forall call :: call in calls ==> Unlaid(u, call)
    requires key in DbRun(u, calls).rows && g < |p.guards| && GuardEvidence(p, DbRun(u, calls).rows[key].state, g)
    ensures GuardSigned(u, p, calls, key, g)
  {
    hide PlanOk, Layout, DbRun, Name, Unlaid, Owned, Records, FollowsGraph, SchedulerSafety.Accepted, Plan.Tok, Plan.ReceiptNames;
    var i := DoneSigned(u, p, c, calls, key, CriterionOf(g));
    RecordedField(u, calls, key, CriterionOf(g), i);
    assert AttestedPassed(u, calls, key, CriterionOf(g), i);
    GuardReceiptLaid(p, g);
    var j := DoneSigned(u, p, c, calls, key, ReceiptOf(p.Tok(p.guards[g])));
    forall k | k in p.specs && p.Tok(k.receipt) == p.Tok(p.guards[g])
      ensures SignedAs(u, calls, key, EvaluatorOf(p.Tok(k.check)), "evaluator/" + p.Tok(k.check)) {
      var e := DoneSigned(u, p, c, calls, key, EvaluatorOf(p.Tok(k.check)));
    }
  }

  lemma GuardReceiptLaid(p: Plan, g: nat)
    requires g < |p.guards|
    ensures HasRef(p, ReceiptOf(p.Tok(p.guards[g])))
  {
    hide Plan.Tok;
    ReceiptListed(p, p.guards[g]);
  }

  lemma SuccessAttested(u: Setup, p: Plan, c: Contract, calls: seq<Call>, key: Key, r: Ref) returns (i: nat)
    requires PlanOk(p) && u.manifest == Layout(p, c) && u.verifier.Some? && HasRef(p, r) && !Internal(r)
    requires forall call :: call in calls ==> Unlaid(u, call)
    requires key in DbRun(u, calls).rows && Done(DbRun(u, calls).rows[key].state, r)
    requires Recorded(DbRun(u, calls).rows[key].state, r, "success") == Bool(true)
    ensures AttestedSuccess(u, calls, key, r, RoleOf(r), i)
  {
    hide PlanOk, Layout, DbRun, Name, Unlaid, Owned, Records, FollowsGraph, SchedulerSafety.Accepted, RoleOf, Internal, HasRef;
    i := DoneSigned(u, p, c, calls, key, r);
    RecordedField(u, calls, key, r, i);
  }

  /** Acceptance is attested: if no call overlays signed results, every accepting row of a compiled
      graph has, for each guard, its criterion signed as passed, its receipt and its evaluators, and
      further the snapshot, the artifact manifest and the executor result, the last two signed as
      succeeded; each by the owner of that very instance in the role named. */
  lemma AcceptanceAttested(u: Setup, p: Plan, c: Contract, calls: seq<Call>, key: Key)
    requires PlanOk(p) && u.manifest == Layout(p, c) && u.verifier.Some?
    requires forall call :: call in calls ==> Unlaid(u, call)
    requires key in DbRun(u, calls).rows && Active(DbRun(u, calls).rows[key].state, AcceptDecision)
    ensures forall g: nat :: g < |p.guards| ==> GuardSigned(u, p, calls, key, g)
    ensures SignedAs(u, calls, key, SnapshotMaterialized, "snapshot-service")
    ensures exists i: nat :: AttestedSuccess(u, calls, key, ArtifactManifest, "artifact-validator", i)
    ensures exists i: nat :: AttestedSuccess(u, calls, key, ExecutorResult, "executor-supervisor", i)
  {
    hide PlanOk, Layout, DbRun, Name, Unlaid, DispatchAuthority, AttestedAs, AttestedSuccess, GuardEvidence, GuardSigned, HasRef;
    StoredAcceptEvidenced(u, p, c, calls, key);
    forall g: nat | g < |p.guards| ensures GuardSigned(u, p, calls, key, g) { GuardAttested(u, p, c, calls, key, g); }
    FixedRefs(p);
    var i := SuccessAttested(u, p, c, calls, key, ExecutorResult);
    var j := SuccessAttested(u, p, c, calls, key, ArtifactManifest);
    var k := DoneSigned(u, p, c, calls, key, SnapshotMaterialized);
  }

  /** A completed accept decision is itself signed, and so is the reconciliation behind an escalation. */
  lemma DecisionsAttested(u: Setup, p: Plan, c: Contract, calls: seq<Call>, key: Key)
    requires PlanOk(p) && u.manifest == Layout(p, c) && u.verifier.Some? && key in DbRun(u, calls).rows
    ensures Done(DbRun(u, calls).rows[key].state, AcceptDecision) ==>
              SignedAs(u, calls, key, AcceptDecision, "execution-validator")
    ensures Active(DbRun(u, calls).rows[key].state, EscalateDecision) ==>
              && SignedAs(u, calls, key, OperationReconcile, "executor-supervisor")
              && SignedAs(u, calls, key, ExecutorResult, "executor-supervisor")
  {
    hide PlanOk, Layout, DbRun, Name, AttestedAs, HasRef, Run, WellFormed, Inv;
    var s := DbRun(u, calls).rows[key].state;
    FixedRefs(p);
    if Done(s, AcceptDecision) { var i := DoneSigned(u, p, c, calls, key, AcceptDecision); }
    if Active(s, EscalateDecision) {
      CompiledWellFormed(p, c);
      var moves := RowsAreRuns(u, calls, key);
      RunInv(Layout(p, c), moves);
      EscalateBehind(p, c, s);
      var i := DoneSigned(u, p, c, calls, key, OperationReconcile);
      var j := DoneSigned(u, p, c, calls, key, ExecutorResult);
    }
  }
}
