/** What every run of a compiled control graph guarantees. */
module CompiledSafety {
  import opened GraphSchema
  import opened Text
  import opened Manifest
  import opened Monitor
  import opened ControlGraph
  import opened ControlGraphShape
  import opened ControlGraphValid
  import opened ControlGraphAccepted

  predicate IsJoin(r: Ref) {
    r.RuleJoin? || r.AuthorityJoin? || r.GuardJoin?
  }

  lemma JoinOf(p: Plan, r: Ref)
    ensures LastJoin(Joins(p), Name(r)) ==
              (if r.RuleJoin? then Some(Joins(p)[0])
               else if r.AuthorityJoin? then Some(Joins(p)[1])
               else if r.GuardJoin? then Some(Joins(p)[2]) else None)
  {
    var js := Joins(p);
    KindOfName(RuleJoin);
    KindOfName(AuthorityJoin);
    KindOfName(GuardJoin);
    KindOfName(r);
    hide Name, Names;
    assert js[..2][..1] == js[..1] && js[..3] == js;
    assert js[..1][..0] == [];
    assert LastJoin(js[..1], Name(r)) == if r.RuleJoin? then Some(js[0]) else None;
    assert LastJoin(js[..2], Name(r)) ==
      if r.AuthorityJoin? then Some(js[1]) else if r.RuleJoin? then Some(js[0]) else None;
  }

  predicate Done(s: State, r: Ref) {
    Name(r) in s.completed && Name(r) in s.events
  }

  /** What a completed position recorded in a field. */
  function Recorded(s: State, r: Ref, field: string): Value
    requires Done(s, r)
  {
    Get(s.events[Name(r)], field)
  }

  ghost predicate Active(s: State, r: Ref) {
    Name(r) in Touched(s)
  }

  lemma PassesMeans(e: Edge, source: Payload)
    requires Passes(e, source)
    ensures e.condition.GuardPass? ==> Get(source, "passed") == Bool(true)
    ensures e.condition.ExecutionSuccess? ==> Get(source, "success") == Bool(true)
  {}

  /** An active position that is no join has every predecessor done, with its edge passed. */
  lemma Behind(p: Plan, c: Contract, s: State, a: Arc)
    requires Inv(Layout(p, c), s) && ArcInto(p, a) && !IsJoin(a.target) && Active(s, a.target)
    ensures Done(s, a.source) && Active(s, a.source) && Passes(EdgeOf(a), s.events[Name(a.source)])
  {
    hide ArcInto, Name, Passes;
    JoinOf(p, a.target);
    ArcIncoming(p, c, a);
    assert Justified(Layout(p, c), s, Name(a.target));
    assert Holds(s, EdgeOf(a));
  }

  lemma JoinBehind(p: Plan, c: Contract, s: State, r: Ref, k: nat)
    requires Inv(Layout(p, c), s) && Active(s, r) && PlanOk(p)
    requires (r.RuleJoin? && k == 0) || (r.AuthorityJoin? && k == 1) || (r.GuardJoin? && k == 2)
    ensures Joins(p)[k].WellFormed() && Joins(p)[k].SatisfiedBy(Matched(Layout(p, c), s, Name(r)))
  {
    JoinsWellFormed(p);
    JoinOf(p, r);
    assert Justified(Layout(p, c), s, Name(r));
  }

  lemma MatchedArc(p: Plan, c: Contract, s: State, r: Ref, id: string) returns (a: Arc)
    requires id in Matched(Layout(p, c), s, Name(r))
    ensures ArcInto(p, a) && a.target == r && Name(a.source) == id
    ensures Done(s, a.source) && Passes(EdgeOf(a), s.events[id])
  {
    hide ArcInto, Name, Passes;
    var e :| e in Incoming(Layout(p, c), Edges(p), Name(r)) && Holds(s, e) && e.source == id;
    a := IncomingArc(p, c, r, e);
  }

  /** An ALL join matches every predecessor. */
  lemma AllMatched(p: Plan, c: Contract, s: State)
    requires Inv(Layout(p, c), s) && PlanOk(p) && Active(s, GuardJoin)
    ensures forall id :: id in Names(CriterionRefs(p)) ==> id in Matched(Layout(p, c), s, Name(GuardJoin))
  {
    hide Matched, Name, Names, Inv, Layout, PlanOk;
    JoinBehind(p, c, s, GuardJoin, 2);
    JoinMeaning(Joins(p)[2], Matched(Layout(p, c), s, Name(GuardJoin)));
  }

  /** An ANY join matches some predecessor. */
  lemma AnyMatched(p: Plan, c: Contract, s: State, r: Ref, k: nat) returns (a: Arc)
    requires Inv(Layout(p, c), s) && Active(s, r) && PlanOk(p)
    requires (r.RuleJoin? && k == 0) || (r.AuthorityJoin? && k == 1)
    ensures ArcInto(p, a) && a.target == r
    ensures Done(s, a.source) && Passes(EdgeOf(a), s.events[Name(a.source)])
  {
    hide Matched, Name, Names, Inv, ArcInto, Passes, Layout, PlanOk;
    JoinBehind(p, c, s, r, k);
    JoinMeaning(Joins(p)[k], Matched(Layout(p, c), s, Name(r)));
    var id :| id in Joins(p)[k].predecessors && id in Matched(Layout(p, c), s, Name(r));
    a := MatchedArc(p, c, s, r, id);
  }

  /** A guard join waits for every criterion, each recorded as passed. */
  lemma GuardsPassed(p: Plan, c: Contract, s: State, i: nat)
    requires Inv(Layout(p, c), s) && PlanOk(p) && Active(s, GuardJoin) && i < |p.guards|
    ensures Done(s, CriterionOf(i)) && Recorded(s, CriterionOf(i), "passed") == Bool(true)
  {
    hide Name, Inv, PlanOk, Passes, Matched, Layout;
    AllMatched(p, c, s);
    assert Names(CriterionRefs(p))[i] == Name(CriterionOf(i));
    var a := MatchedArc(p, c, s, GuardJoin, Name(CriterionOf(i)));
    NameInjective(a.source, CriterionOf(i));
    PassesMeans(EdgeOf(GuardArc(i)), s.events[Name(CriterionOf(i))]);
  }

  /** The evidence behind one guard: its passed criterion, the receipt, every evaluator of it. */
  ghost predicate GuardEvidence(p: Plan, s: State, i: nat)
    requires i < |p.guards|
  {
    && Done(s, CriterionOf(i)) && Recorded(s, CriterionOf(i), "passed") == Bool(true)
    && Done(s, ReceiptOf(p.Tok(p.guards[i])))
    && forall k :: k in p.specs && p.Tok(k.receipt) == p.Tok(p.guards[i]) ==> Done(s, EvaluatorOf(p.Tok(k.check)))
  }

  /** The execution behind an accepted run. */
  ghost predicate ExecutionEvidence(s: State) {
    && Done(s, SnapshotMaterialized)
    && Done(s, ArtifactManifest) && Recorded(s, ArtifactManifest, "success") == Bool(true)
    && Done(s, ExecutorResult) && Recorded(s, ExecutorResult, "success") == Bool(true)
    && Done(s, ExecutorDispatch)
  }

  lemma GuardBehind(p: Plan, c: Contract, s: State, i: nat)
    requires Inv(Layout(p, c), s) && PlanOk(p) && Active(s, GuardJoin) && i < |p.guards|
    ensures GuardEvidence(p, s, i)
  {
    hide ArcInto, Name, Passes, PlanOk, Inv, Layout;
    GuardsPassed(p, c, s, i);
    GuardArcsInto(p, i);
    Behind(p, c, s, CriterionArc(p, p.guards[i], i));
    forall k | k in p.specs && p.Tok(k.receipt) == p.Tok(p.guards[i]) ensures Done(s, EvaluatorOf(p.Tok(k.check))) {
      SpecArcsInto(p, k);
      Behind(p, c, s, ReceiptArc(p, k));
    }
  }

  lemma EvaluatorBehind(p: Plan, c: Contract, s: State, k: Spec)
    requires Inv(Layout(p, c), s) && k in p.specs && Active(s, EvaluatorOf(p.Tok(k.check)))
    ensures ExecutionEvidence(s)
  {
    hide ArcInto, Name, Inv, Passes, Layout, Active;
    SpecArcsInto(p, k);
    SingleArcsInto(p);
    Behind(p, c, s, EvaluateArc(p, k));
    PassesMeans(EdgeOf(EvaluateArc(p, k)), s.events[Name(ArtifactManifest)]);
    Behind(p, c, s, SnapshotArc(p, k));
    Behind(p, c, s, EXECUTION[5]);
    PassesMeans(EdgeOf(EXECUTION[5]), s.events[Name(ExecutorResult)]);
    Behind(p, c, s, EXECUTION[4]);
  }

  /** No acceptance without all guards: in every reachable state, a reserved or completed accept
      decision has the whole chain of evidence behind it. */
  lemma NoAcceptWithoutAllGuards(p: Plan, c: Contract, moves: seq<Move>)
    requires PlanOk(p) && Active(Run(Layout(p, c), moves), AcceptDecision)
    ensures var s := Run(Layout(p, c), moves);
            && Done(s, GuardJoin)
            && (forall i :: 0 <= i < |p.guards| ==> GuardEvidence(p, s, i))
            && ExecutionEvidence(s)
  {
    var m := Layout(p, c);
    var s := Run(m, moves);
    PlanNonEmpty(p);
    LayoutWellFormed(p, c);
    RunInv(m, moves);
    AcceptBehind(p, c, s);
  }

  lemma AcceptBehind(p: Plan, c: Contract, s: State)
    requires Inv(Layout(p, c), s) && PlanOk(p) && Active(s, AcceptDecision)
    ensures Done(s, GuardJoin)
    ensures forall i :: 0 <= i < |p.guards| ==> GuardEvidence(p, s, i)
    ensures ExecutionEvidence(s)
  {
    SingleArcsInto(p);
    Behind(p, c, s, ACCEPTANCE);
    forall i: nat | i < |p.guards| ensures GuardEvidence(p, s, i) {
      GuardBehind(p, c, s, i);
    }
    var k := Spec(p.guards[0], p.guards[0]);
    assert k in p.specs && GuardEvidence(p, s, 0);
    assert Done(s, EvaluatorOf(p.Tok(k.check)));
    hide ArcInto, Name;
    EvaluatorBehind(p, c, s, k);
  }

  /** A run never both accepts and escalates. */
  lemma AcceptExcludesEscalate(p: Plan, c: Contract, moves: seq<Move>)
    requires PlanOk(p)
    ensures var s := Run(Layout(p, c), moves); !(Active(s, AcceptDecision) && Active(s, EscalateDecision))
  {
    var m := Layout(p, c);
    var s := Run(m, moves);
    if Active(s, AcceptDecision) && Active(s, EscalateDecision) {
      PlanNonEmpty(p);
      LayoutWellFormed(p, c);
      RunInv(m, moves);
      AcceptBehind(p, c, s);
      EscalateBehind(p, c, s);
      assert false;
    }
  }

  lemma EscalateBehind(p: Plan, c: Contract, s: State)
    requires Inv(Layout(p, c), s) && Active(s, EscalateDecision)
    ensures Done(s, OperationReconcile) && Done(s, ExecutorResult)
    ensures Recorded(s, ExecutorResult, "success") in {Bool(false), Int(0), Str("indeterminate")}
  {
    hide ArcInto, Name, Inv, Layout;
    SingleArcsInto(p);
    Behind(p, c, s, EXECUTION[7]);
    Behind(p, c, s, EXECUTION[6]);
  }

  // ---- authority ----

  lemma RuleSelected(p: Plan, c: Contract, s: State) returns (i: nat)
    requires Inv(Layout(p, c), s) && PlanOk(p) && Active(s, RuleJoin)
    ensures i < |p.rules| && Done(s, ActionRule(i))
  {
    var a := AnyMatched(p, c, s, RuleJoin, 0);
    i := a.source.index;
  }

  /** An active rule is the one whose index the intent recorded. */
  lemma RuleIndex(p: Plan, c: Contract, s: State, i: nat)
    requires Inv(Layout(p, c), s) && i < |p.rules| && Active(s, ActionRule(i))
    ensures Done(s, ActionIntent) && Render(Recorded(s, ActionIntent, "rule_index")) == Decimal(i)
  {
    hide ArcInto, Name, Inv, Layout;
    RuleArcsInto(p, i);
    Behind(p, c, s, IntentArc(i));
  }

  /** Either no approval was required, or some approval was given when one was. */
  ghost predicate Approved(p: Plan, s: State) {
    && Done(s, PolicyDecision)
    && (|| Render(Recorded(s, PolicyDecision, "approval_required")) == "false"
        || exists k: nat :: k < |p.rules| && Done(s, ApprovalRule(k))
             && Render(Recorded(s, PolicyDecision, "approval_required")) == "true")
  }

  lemma AuthorityGranted(p: Plan, c: Contract, s: State)
    requires Inv(Layout(p, c), s) && PlanOk(p) && Active(s, AuthorityJoin)
    ensures Approved(p, s)
  {
    hide Name, Inv, Layout, PlanOk;
    var a := AnyMatched(p, c, s, AuthorityJoin, 1);
    if a != DIRECT {
      RuleArcsInto(p, a.source.index);
      Behind(p, c, s, ReviewArc(a.source.index));
    }
  }

  /** What stands behind a dispatched effect. */
  ghost predicate DispatchAuthority(p: Plan, s: State) {
    && Done(s, OperationPrepared) && Done(s, CapabilityExecute) && Done(s, PrincipalContract)
    && Done(s, ActionIntent) && Approved(p, s)
    && exists i: nat :: i < |p.rules| && Done(s, ActionRule(i))
         && Render(Recorded(s, ActionIntent, "rule_index")) == Decimal(i)
         && forall j: nat :: j < |p.rules| && j != i ==> !Active(s, ActionRule(j))
  }

  lemma DispatchBehind(p: Plan, c: Contract, s: State)
    requires Inv(Layout(p, c), s) && PlanOk(p) && Active(s, ExecutorDispatch)
    ensures DispatchAuthority(p, s)
  {
    hide ArcInto, Name, Passes, Inv, PlanOk, Layout;
    SingleArcsInto(p);
    Behind(p, c, s, EXECUTION[3]);
    Behind(p, c, s, EXECUTION[2]);
    Behind(p, c, s, EXECUTION[0]);
    Behind(p, c, s, EXECUTION[1]);
    AuthorityGranted(p, c, s);
    assert Active(s, PolicyDecision);
    Behind(p, c, s, RULE_TO_POLICY);
    var i := OneRule(p, c, s);
  }

  lemma OneRule(p: Plan, c: Contract, s: State) returns (i: nat)
    requires Inv(Layout(p, c), s) && PlanOk(p) && Active(s, RuleJoin)
    ensures i < |p.rules| && Done(s, ActionRule(i)) && Done(s, ActionIntent)
    ensures Render(Recorded(s, ActionIntent, "rule_index")) == Decimal(i)
    ensures forall j: nat :: j < |p.rules| && j != i ==> !Active(s, ActionRule(j))
  {
    hide Name, Inv, PlanOk, Layout;
    i := RuleSelected(p, c, s);
    assert Active(s, ActionRule(i));
    RuleIndex(p, c, s, i);
    forall j: nat | j < |p.rules| && j != i ensures !Active(s, ActionRule(j)) {
      if Active(s, ActionRule(j)) {
        RuleIndex(p, c, s, j);
        DecimalInjective(i, j);
      }
    }
  }

  /** No effect without capability: in every reachable state, a reserved or completed dispatch has
      its capability, its principal, exactly the rule the intent named, and its approval behind it. */
  lemma NoEffectWithoutCapability(p: Plan, c: Contract, moves: seq<Move>)
    requires PlanOk(p) && Active(Run(Layout(p, c), moves), ExecutorDispatch)
    ensures DispatchAuthority(p, Run(Layout(p, c), moves))
  {
    PlanNonEmpty(p);
    LayoutWellFormed(p, c);
    RunInv(Layout(p, c), moves);
    DispatchBehind(p, c, Run(Layout(p, c), moves));
  }
}
