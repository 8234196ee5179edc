/** Both ends of a compiled control graph can be reached: the safety theorems speak of actual runs. */
module CompiledReach {
  import opened GraphSchema
  import opened Text
  import opened Manifest
  import opened Monitor
  import opened ControlGraph
  import opened ControlGraphShape
  import opened ControlGraphValid
  import opened ControlGraphAccepted
  import opened CompiledSafety

  /** One payload recorded everywhere: the rule named, whether approval is required, the outcome. */
  function Recording(i: nat, approval: bool, success: bool): Payload {
    map["rule_index" := Str(Decimal(i)), "approval_required" := Str(if approval then "true" else "false"),
        "success" := Bool(success), "passed" := Bool(true)]
  }

  lemma RecordingRead(i: nat, approval: bool, success: bool)
    ensures var q := Recording(i, approval, success);
            && Get(q, "rule_index") == Str(Decimal(i))
            && Get(q, "approval_required") == Str(if approval then "true" else "false")
            && Get(q, "success") == Bool(success) && Get(q, "passed") == Bool(true)
  {
    assert |"rule_index"| == 10 && |"approval_required"| == 17 && |"success"| == 7 && |"passed"| == 6;
  }

  /** Exactly these positions are completed, each with the payload, and none is reserved. */
  ghost predicate Built(s: State, done: set<Ref>, q: Payload) {
    && s.started == map[] && s.events.Keys == s.completed
    && (forall r :: Name(r) in s.completed <==> r in done)
    && forall r :: r in done ==> s.events[Name(r)] == q
  }

  /** An edge of the plan from a completed position that passes. */
  ghost predicate Open(p: Plan, done: set<Ref>, q: Payload, a: Arc) {
    ArcInto(p, a) && a.source in done && Passes(EdgeOf(a), q)
  }

  /** Everything a position waits for is there. */
  ghost predicate Ready(p: Plan, done: set<Ref>, q: Payload, r: Ref) {
    && HasRef(p, r)
    && if r.RuleJoin? || r.AuthorityJoin? then exists a: Arc :: a.target == r && Open(p, done, q, a)
       else if r.GuardJoin? then forall i: nat :: i < |p.guards| ==> Open(p, done, q, GuardArc(i))
       else
         && (r.TaskContract? ==> done == {})
         && forall a :: ArcInto(p, a) && a.target == r ==> Open(p, done, q, a)
  }

  /** A run of admitted advances, all with one payload, to a state. */
  ghost predicate Leads(m: Manifest, moves: seq<Move>, done: set<Ref>, q: Payload) {
    && Admitted(m, moves) == |moves| && (forall k :: 0 <= k < |moves| ==> moves[k].Advance? && moves[k].payload == q)
    && Built(Run(m, moves), done, q)
  }

  lemma OpenMatches(p: Plan, c: Contract, s: State, done: set<Ref>, q: Payload, a: Arc)
    requires Built(s, done, q) && Open(p, done, q, a)
    ensures EdgeOf(a) in Incoming(Layout(p, c), Edges(p), Name(a.target)) && Holds(s, EdgeOf(a))
    ensures Name(a.source) in Matched(Layout(p, c), s, Name(a.target))
  {
    hide ArcInto, Name, Passes;
    ArcIncoming(p, c, a);
    assert Holds(s, EdgeOf(a));
  }

  lemma AnyJoinReady(p: Plan, c: Contract, s: State, done: set<Ref>, q: Payload, a: Arc, k: nat)
    requires PlanOk(p) && Built(s, done, q) && Open(p, done, q, a)
    requires (a.target.RuleJoin? && k == 0) || (a.target.AuthorityJoin? && k == 1)
    requires Name(a.source) in Joins(p)[k].predecessors
    ensures Justified(Layout(p, c), s, Name(a.target))
  {
    hide Open, Built, Name, Names, Matched, PlanOk;
    OpenMatches(p, c, s, done, q, a);
    PlanNonEmpty(p);
    JoinsWellFormed(p);
    JoinOf(p, a.target);
    JoinMeaning(Joins(p)[k], Matched(Layout(p, c), s, Name(a.target)));
  }

  lemma GuardJoinReady(p: Plan, c: Contract, s: State, done: set<Ref>, q: Payload)
    requires PlanOk(p) && Built(s, done, q) && Ready(p, done, q, GuardJoin)
    ensures Justified(Layout(p, c), s, Name(GuardJoin))
  {
    hide Open, Built, Name, Matched, PlanOk, Layout;
    CriterionNames(p);
    hide Names;
    var matched := Matched(Layout(p, c), s, Name(GuardJoin));
    forall id | id in Joins(p)[2].predecessors ensures id in matched {
      var i: nat :| i < |p.guards| && id == Name(CriterionOf(i));
      OpenMatches(p, c, s, done, q, GuardArc(i));
    }
    PlanNonEmpty(p);
    JoinsWellFormed(p);
    JoinOf(p, GuardJoin);
    JoinMeaning(Joins(p)[2], matched);
    LayoutJoins(p, c);
  }

  lemma LayoutJoins(p: Plan, c: Contract)
    ensures Layout(p, c).joins == Joins(p) && Layout(p, c).edges == Edges(p)
  {}

  /** The join predecessors that can match are those its edges come from. */
  lemma AnyPredecessor(p: Plan, a: Arc)
    requires ArcInto(p, a) && (a.target.RuleJoin? || a.target.AuthorityJoin?)
    ensures Name(a.source) in Joins(p)[if a.target.RuleJoin? then 0 else 1].predecessors
  {
    if a.target.RuleJoin? {
      assert Names(RuleRefs(p))[a.source.index] == Name(a.source);
    } else {
      var refs := [PolicyDecision] + ApprovalRefs(p);
      var k := if a.source.PolicyDecision? then 0 else a.source.index + 1;
      assert refs[k] == a.source && Names(refs)[k] == Name(a.source);
    }
  }

  lemma OthersReady(p: Plan, c: Contract, s: State, done: set<Ref>, q: Payload, r: Ref)
    requires PlanOk(p) && Built(s, done, q) && Ready(p, done, q, r) && !IsJoin(r)
    ensures Justified(Layout(p, c), s, Name(r))
    ensures r.TaskContract? || Incoming(Layout(p, c), Edges(p), Name(r)) != []
  {
    hide Open, Built, Name, Matched, PlanOk, ArcInto, HasRef;
    JoinOf(p, r);
    forall e | e in Incoming(Layout(p, c), Edges(p), Name(r)) ensures Holds(s, e) {
      var a := IncomingArc(p, c, r, e);
      OpenMatches(p, c, s, done, q, a);
    }
    if !r.TaskContract? {
      var a := Parent(p, r);
      OpenMatches(p, c, s, done, q, a);
    }
  }

  lemma ReadyJustified(p: Plan, c: Contract, s: State, done: set<Ref>, q: Payload, r: Ref)
    requires PlanOk(p) && Built(s, done, q) && Ready(p, done, q, r)
    ensures Justified(Layout(p, c), s, Name(r))
    ensures IsJoin(r) || (r.TaskContract? && done == {}) || Incoming(Layout(p, c), Edges(p), Name(r)) != []
  {
    hide Built, Open, Layout, Joins, PlanOk, HasRef, Justified, Name;
    if r.GuardJoin? {
      GuardJoinReady(p, c, s, done, q);
    } else if IsJoin(r) {
      var a: Arc :| a.target == r && Open(p, done, q, a);
      assert ArcInto(p, a) by { OpenArc(p, done, q, a); }
      AnyPredecessor(p, a);
      AnyJoinReady(p, c, s, done, q, a, if r.RuleJoin? then 0 else 1);
    } else {
      OthersReady(p, c, s, done, q, r);
    }
  }

  lemma OpenArc(p: Plan, done: set<Ref>, q: Payload, a: Arc)
    requires Open(p, done, q, a)
    ensures ArcInto(p, a)
  {}

  lemma ReadyEnabled(p: Plan, c: Contract, s: State, done: set<Ref>, q: Payload, r: Ref, payload: Payload)
    requires PlanOk(p) && Inv(Layout(p, c), s) && Built(s, done, q) && Ready(p, done, q, r) && r !in done
    ensures Enabled(Layout(p, c), s, Name(r), payload)
  {
    hide Open, Joins, PlanOk, HasRef, Justified, Name, Enabled, ArcInto, Inv;
    ReadyJustified(p, c, s, done, q, r);
    IdsAre(p, c, r);
    JoinOf(p, r);
    if done == {} { NothingBuilt(p, c, s, q); }
    EnabledIgnoresPayload(Layout(p, c), s, Name(r), payload);
  }

  lemma NothingBuilt(p: Plan, c: Contract, s: State, q: Payload)
    requires Inv(Layout(p, c), s) && Built(s, {}, q)
    ensures s.completed == {}
  {
    hide Justified, Layout;
    forall id | id in s.completed ensures false {
      var r := IdHasRef(p, c, id);
    }
  }

  /** One more position, unless it is there already. */
  lemma Add(p: Plan, c: Contract, moves: seq<Move>, done: set<Ref>, q: Payload, r: Ref)
    returns (more: seq<Move>, then_: set<Ref>)
    requires PlanOk(p) && Leads(Layout(p, c), moves, done, q) && (r in done || Ready(p, done, q, r))
    ensures Leads(Layout(p, c), more, then_, q) && then_ == done + {r}
  {
    hide Ready, PlanOk, Enabled, Inv, Built, Layout;
    then_ := done + {r};
    if r in done {
      more := moves;
      assert done + {r} == done;
    } else {
      var m, s, move := Layout(p, c), Run(Layout(p, c), moves), Advance(Name(r), q);
      more := moves + [move];
      CompiledInv(p, c, moves);
      ReadyEnabled(p, c, s, done, q, r, q);
      assert more[..|more| - 1] == moves;
      BuiltFinish(s, done, q, r);
    }
  }

  lemma CompiledInv(p: Plan, c: Contract, moves: seq<Move>)
    requires PlanOk(p)
    ensures Inv(Layout(p, c), Run(Layout(p, c), moves))
  {
    hide Layout, WellFormed, Inv, Run;
    PlanNonEmpty(p);
    LayoutWellFormed(p, c);
    RunInv(Layout(p, c), moves);
  }

  lemma BuiltFinish(s: State, done: set<Ref>, q: Payload, r: Ref)
    requires Built(s, done, q) && r !in done
    ensures Built(Finish(s, Name(r), q), done + {r}, q)
  {
    hide Name;
    forall k: Ref | Name(k) == Name(r) ensures k == r { NameInjective(k, r); }
  }

  // ---- what each position waits for ----

  /** Positions with one edge into them. */
  predicate Sole(r: Ref) {
    !IsJoin(r) && !r.TaskContract? && !r.CapabilityExecute? && !r.EvaluatorOf? && !r.ReceiptOf?
  }

  lemma SoleArc(p: Plan, a: Arc, b: Arc)
    requires Sole(a.target) && ArcInto(p, a) && ArcInto(p, b) && a.target == b.target
    ensures a == b
  {}

  lemma SoleReady(p: Plan, done: set<Ref>, q: Payload, a: Arc)
    requires PlanOk(p) && Sole(a.target) && Open(p, done, q, a)
    ensures Ready(p, done, q, a.target)
  {
    hide HasRef, Passes, PlanOk;
    ArcKnown(p, a);
    hide ArcInto;
    forall b: Arc | ArcInto(p, b) && b.target == a.target ensures Open(p, done, q, b) { SoleArc(p, a, b); }
  }

  lemma LinkPasses(a: Arc, q: Payload)
    requires a.condition.Unconditional? && a.pred.Always?
    ensures Passes(EdgeOf(a), q)
  {}

  lemma WhenPasses(s: Ref, t: Ref, k: EdgeType, sp: string, tp: string, field: string, value: string, q: Payload)
    requires Get(q, field) == Str(value)
    ensures Passes(EdgeOf(When(s, t, k, sp, tp, field, value)), q)
  {}

  /** Adds the target of an edge that leads to nothing else's target. */
  lemma Follow(p: Plan, c: Contract, moves: seq<Move>, done: set<Ref>, q: Payload, a: Arc)
    returns (more: seq<Move>, then_: set<Ref>)
    requires PlanOk(p) && Leads(Layout(p, c), moves, done, q) && Sole(a.target)
    requires ArcInto(p, a) && a.source in done && Passes(EdgeOf(a), q)
    ensures Leads(Layout(p, c), more, then_, q) && then_ == done + {a.target}
  {
    hide PlanOk, Leads, Layout, ArcInto, Passes, Ready;
    SoleReady(p, done, q, a);
    more, then_ := Add(p, c, moves, done, q, a.target);
  }

  /** Follows an edge that is always open. */
  lemma Pass(p: Plan, c: Contract, moves: seq<Move>, done: set<Ref>, q: Payload, a: Arc)
    returns (more: seq<Move>, then_: set<Ref>)
    requires PlanOk(p) && Leads(Layout(p, c), moves, done, q) && Sole(a.target)
    requires ArcInto(p, a) && a.source in done && a.condition.Unconditional? && a.pred.Always?
    ensures Leads(Layout(p, c), more, then_, q) && then_ == done + {a.target}
  {
    hide PlanOk, Leads, Layout, ArcInto, Passes;
    LinkPasses(a, q);
    more, then_ := Follow(p, c, moves, done, q, a);
  }

  lemma JoinReady(p: Plan, done: set<Ref>, q: Payload, a: Arc)
    requires (a.target.RuleJoin? || a.target.AuthorityJoin?) && Open(p, done, q, a)
    ensures Ready(p, done, q, a.target)
  {}

  lemma TaskReady(p: Plan, q: Payload)
    ensures Ready(p, {}, q, TaskContract)
  {}

  lemma CapabilityReady(p: Plan, done: set<Ref>, q: Payload)
    requires PrincipalContract in done && AuthorityJoin in done
    ensures Ready(p, done, q, CapabilityExecute)
  {
    LinkPasses(EXECUTION[0], q);
    LinkPasses(EXECUTION[1], q);
  }

  lemma NothingLeads(p: Plan, c: Contract, q: Payload)
    ensures Leads(Layout(p, c), [], {}, q)
  {
    hide Layout, Name;
  }

  /** The accept decision is still to come, and an approval is completed only if one is wanted. */
  ghost predicate Short(done: set<Ref>, approval: bool) {
    AcceptDecision !in done && forall k :: ApprovalRule(k) in done ==> approval
  }

  /** The contract's parts, and the rule the intent names. */
  lemma Propose(p: Plan, c: Contract, i: nat, q: Payload) returns (moves: seq<Move>, done: set<Ref>)
    requires PlanOk(p) && i < |p.rules| && Get(q, "rule_index") == Str(Decimal(i))
    ensures Leads(Layout(p, c), moves, done, q) && done == {TaskContract, PrincipalContract, ActionIntent, ActionRule(i)}
  {
    hide PlanOk, Leads, Layout, ArcInto, Passes, Ready;
    SingleArcsInto(p);
    RuleArcsInto(p, i);
    NothingLeads(p, c, q);
    TaskReady(p, q);
    moves, done := Add(p, c, [], {}, q, TaskContract);
    moves, done := Pass(p, c, moves, done, q, OPENING[0]);
    moves, done := Pass(p, c, moves, done, q, OPENING[1]);
    WhenPasses(ActionIntent, ActionRule(i), DependsOn, "intent", "intent", "rule_index", Decimal(i), q);
    moves, done := Follow(p, c, moves, done, q, IntentArc(i));
  }

  /** On to the policy decision through rule i. */
  lemma Select(p: Plan, c: Contract, i: nat, q: Payload) returns (moves: seq<Move>, done: set<Ref>)
    requires PlanOk(p) && i < |p.rules| && Get(q, "rule_index") == Str(Decimal(i))
    ensures Leads(Layout(p, c), moves, done, q) && Short(done, false)
    ensures TaskContract in done && PrincipalContract in done && ActionRule(i) in done && PolicyDecision in done
  {
    hide PlanOk, Leads, Layout, ArcInto, Passes, Ready;
    moves, done := Propose(p, c, i, q);
    RuleJoinReady(p, done, q, i);
    moves, done := Add(p, c, moves, done, q, RuleJoin);
    SingleArcsInto(p);
    moves, done := Pass(p, c, moves, done, q, RULE_TO_POLICY);
  }

  lemma RuleJoinReady(p: Plan, done: set<Ref>, q: Payload, i: nat)
    requires i < |p.rules| && ActionRule(i) in done
    ensures Ready(p, done, q, RuleJoin)
  {
    hide Passes, Ready, ArcInto;
    RuleArcsInto(p, i);
    LinkPasses(RuleArc(i), q);
    JoinReady(p, done, q, RuleArc(i));
  }

  /** Straight to the authority join, or through an approval. */
  lemma Authorise(p: Plan, c: Contract, i: nat, approval: bool, success: bool, moves: seq<Move>, done: set<Ref>)
    returns (more: seq<Move>, then_: set<Ref>)
    requires PlanOk(p) && Leads(Layout(p, c), moves, done, Recording(i, approval, success)) && PolicyDecision in done
    ensures Leads(Layout(p, c), more, then_, Recording(i, approval, success))
    ensures then_ == done + (if approval then {ApprovalRule(0)} else {}) + {AuthorityJoin}
  {
    hide PlanOk, Leads, Layout, ArcInto, Passes, Recording, Ready;
    var q := Recording(i, approval, success);
    RecordingRead(i, approval, success);
    if approval {
      more, then_ := Review(p, c, moves, done, q);
      ApprovalReady(p, then_, q);
    } else {
      more, then_ := moves, done;
      DirectReady(p, done, q);
    }
    more, then_ := Add(p, c, more, then_, q, AuthorityJoin);
  }

  lemma DirectReady(p: Plan, done: set<Ref>, q: Payload)
    requires PolicyDecision in done && Get(q, "approval_required") == Str("false")
    ensures Ready(p, done, q, AuthorityJoin)
  {
    hide Passes, Ready;
    SingleArcsInto(p);
    WhenPasses(PolicyDecision, AuthorityJoin, Satisfies, "direct_intent", "authority.0", "approval_required", "false", q);
    JoinReady(p, done, q, DIRECT);
  }

  lemma ApprovalReady(p: Plan, done: set<Ref>, q: Payload)
    requires PlanOk(p) && ApprovalRule(0) in done
    ensures Ready(p, done, q, AuthorityJoin)
  {
    PlanNonEmpty(p);
    hide Passes, Ready, PlanOk;
    RuleArcsInto(p, 0);
    LinkPasses(ApprovedArc(0), q);
    JoinReady(p, done, q, ApprovedArc(0));
  }

  lemma Review(p: Plan, c: Contract, moves: seq<Move>, done: set<Ref>, q: Payload)
    returns (more: seq<Move>, then_: set<Ref>)
    requires PlanOk(p) && Leads(Layout(p, c), moves, done, q) && PolicyDecision in done
    requires Get(q, "approval_required") == Str("true")
    ensures Leads(Layout(p, c), more, then_, q) && then_ == done + {ApprovalRule(0)}
  {
    PlanNonEmpty(p);
    hide PlanOk, Leads, Layout, ArcInto, Passes;
    RuleArcsInto(p, 0);
    WhenPasses(PolicyDecision, ApprovalRule(0), AuthorisedBy, "decision", "decision", "approval_required", "true", q);
    more, then_ := Follow(p, c, moves, done, q, ReviewArc(0));
  }

  /** On to the result of the effect. */
  lemma Execute(p: Plan, c: Contract, i: nat, approval: bool, success: bool) returns (moves: seq<Move>, done: set<Ref>)
    requires PlanOk(p) && i < |p.rules|
    ensures Leads(Layout(p, c), moves, done, Recording(i, approval, success)) && Short(done, approval)
    ensures TaskContract in done && ActionRule(i) in done && ExecutorResult in done && (approval ==> ApprovalRule(0) in done)
  {
    hide PlanOk, Leads, Layout, ArcInto, Passes, Recording, Ready;
    var q := Recording(i, approval, success);
    RecordingRead(i, approval, success);
    moves, done := Select(p, c, i, q);
    moves, done := Authorise(p, c, i, approval, success, moves, done);
    moves, done := Dispatch(p, c, moves, done, q);
  }

  lemma Dispatch(p: Plan, c: Contract, moves: seq<Move>, done: set<Ref>, q: Payload)
    returns (more: seq<Move>, then_: set<Ref>)
    requires PlanOk(p) && Leads(Layout(p, c), moves, done, q) && PrincipalContract in done && AuthorityJoin in done
    ensures Leads(Layout(p, c), more, then_, q)
    ensures then_ == done + {CapabilityExecute} + {OperationPrepared} + {ExecutorDispatch} + {ExecutorResult}
  {
    hide PlanOk, Leads, Layout, ArcInto, Passes, Ready;
    CapabilityReady(p, done, q);
    more, then_ := Add(p, c, moves, done, q, CapabilityExecute);
    SingleArcsInto(p);
    more, then_ := Pass(p, c, more, then_, q, EXECUTION[2]);
    more, then_ := Pass(p, c, more, then_, q, EXECUTION[3]);
    more, then_ := Pass(p, c, more, then_, q, EXECUTION[4]);
  }

  // ---- evaluation ----

  lemma EvaluatorReady(p: Plan, done: set<Ref>, q: Payload, k: Spec)
    requires k in p.specs && ArtifactManifest in done && SnapshotMaterialized in done && Get(q, "success") == Bool(true)
    ensures Ready(p, done, q, EvaluatorOf(p.Tok(k.check)))
  {
    hide Plan.Tok, Passes, ArcInto;
    forall a: Arc | ArcInto(p, a) && a.target == EvaluatorOf(p.Tok(k.check)) ensures Open(p, done, q, a) {
      var j := SpecArc(p, a);
      EvaluatorPasses(p, j, q);
    }
    EvaluatorLaid(p, k);
  }

  lemma EvaluatorLaid(p: Plan, k: Spec)
    requires k in p.specs
    ensures HasRef(p, EvaluatorOf(p.Tok(k.check)))
  {
    hide Plan.Tok;
  }

  lemma EvaluatorPasses(p: Plan, k: Spec, q: Payload)
    requires Get(q, "success") == Bool(true)
    ensures Passes(EdgeOf(EvaluateArc(p, k)), q) && Passes(EdgeOf(SnapshotArc(p, k)), q)
  {}

  ghost predicate Evaluated(p: Plan, done: set<Ref>, n: nat)
    requires n <= |p.specs|
  {
    forall k :: 0 <= k < n ==> EvaluatorOf(p.Tok(p.specs[k].check)) in done
  }

  lemma {:induction false} Evaluate(p: Plan, c: Contract, moves: seq<Move>, done: set<Ref>, q: Payload, n: nat)
    returns (more: seq<Move>, then_: set<Ref>)
    requires PlanOk(p) && n <= |p.specs| && Leads(Layout(p, c), moves, done, q)
    requires ArtifactManifest in done && SnapshotMaterialized in done && Get(q, "success") == Bool(true)
    ensures Leads(Layout(p, c), more, then_, q) && done <= then_ && Evaluated(p, then_, n)
    ensures forall r :: r in then_ ==> r in done || r.EvaluatorOf?
  {
    hide PlanOk, Leads, Layout, Ready, Plan.Tok;
    if n == 0 {
      more, then_ := moves, done;
    } else {
      more, then_ := Evaluate(p, c, moves, done, q, n - 1);
      var k := p.specs[n - 1];
      EvaluatorReady(p, then_, q, k);
      more, then_ := Add(p, c, more, then_, q, EvaluatorOf(p.Tok(k.check)));
    }
  }

  lemma ReceiptReady(p: Plan, done: set<Ref>, q: Payload, t: string)
    requires Evaluated(p, done, |p.specs|) && HasRef(p, ReceiptOf(t))
    ensures Ready(p, done, q, ReceiptOf(t))
  {
    hide Plan.Tok, HasRef, Plan.ReceiptNames;
    forall a: Arc | ArcInto(p, a) && a.target == ReceiptOf(t) ensures Open(p, done, q, a) {
      var k :| k in p.specs && a == ReceiptArc(p, k);
      LinkPasses(a, q);
    }
  }

  ghost predicate Judged(p: Plan, done: set<Ref>, n: nat) {
    forall i: nat :: i < n ==> CriterionOf(i) in done
  }

  /** The receipt and the criterion of each guard. */
  lemma {:induction false} Judge(p: Plan, c: Contract, moves: seq<Move>, done: set<Ref>, q: Payload, n: nat)
    returns (more: seq<Move>, then_: set<Ref>)
    requires PlanOk(p) && n <= |p.guards| && Leads(Layout(p, c), moves, done, q) && Evaluated(p, done, |p.specs|)
    ensures Leads(Layout(p, c), more, then_, q) && done <= then_ && Judged(p, then_, n)
    ensures forall r :: r in then_ ==> r in done || r.ReceiptOf? || r.CriterionOf?
  {
    hide PlanOk, Leads, Layout, Ready, Plan.Tok, ArcInto, HasRef;
    if n == 0 {
      more, then_ := moves, done;
    } else {
      more, then_ := Judge(p, c, moves, done, q, n - 1);
      var a := CriterionArc(p, p.guards[n - 1], n - 1);
      GuardArcsInto(p, n - 1);
      ArcKnown(p, a);
      ReceiptReady(p, then_, q, p.Tok(p.guards[n - 1]));
      more, then_ := Add(p, c, more, then_, q, a.source);
      more, then_ := Pass(p, c, more, then_, q, a);
    }
  }

  lemma GuardsReady(p: Plan, done: set<Ref>, q: Payload)
    requires Judged(p, done, |p.guards|) && Get(q, "passed") == Bool(true)
    ensures Ready(p, done, q, GuardJoin)
  {
    forall i: nat | i < |p.guards| ensures Open(p, done, q, GuardArc(i)) {
      GuardArcsInto(p, i);
    }
  }

  /** The artifact and the snapshot of a successful effect. */
  lemma Materialise(p: Plan, c: Contract, moves: seq<Move>, done: set<Ref>, q: Payload)
    returns (more: seq<Move>, then_: set<Ref>)
    requires PlanOk(p) && Leads(Layout(p, c), moves, done, q) && TaskContract in done && ExecutorResult in done
    requires Get(q, "success") == Bool(true)
    ensures Leads(Layout(p, c), more, then_, q)
    ensures then_ == done + {ArtifactManifest} + {SnapshotRequest} + {SnapshotMaterialized}
  {
    hide PlanOk, Leads, Layout, ArcInto, Passes, Ready;
    SingleArcsInto(p);
    ResultPasses(q);
    more, then_ := Follow(p, c, moves, done, q, EXECUTION[5]);
    more, then_ := Pass(p, c, more, then_, q, OPENING[2]);
    more, then_ := Pass(p, c, more, then_, q, EXECUTION[8]);
  }

  /** Every plan can be run to the point where only the accept decision is left. */
  lemma Prepare(p: Plan, c: Contract, i: nat, approval: bool) returns (moves: seq<Move>, done: set<Ref>)
    requires PlanOk(p) && i < |p.rules|
    ensures Leads(Layout(p, c), moves, done, Recording(i, approval, true))
    ensures GuardJoin in done && ActionRule(i) in done && AcceptDecision !in done
    ensures if approval then ApprovalRule(0) in done else forall k :: ApprovalRule(k) !in done
  {
    hide PlanOk, Leads, Layout, Recording, Ready, Evaluated, Judged;
    var q := Recording(i, approval, true);
    RecordingRead(i, approval, true);
    moves, done := Execute(p, c, i, approval, true);
    moves, done := Materialise(p, c, moves, done, q);
    moves, done := Evaluate(p, c, moves, done, q, |p.specs|);
    moves, done := Judge(p, c, moves, done, q, |p.guards|);
    GuardsReady(p, done, q);
    moves, done := Add(p, c, moves, done, q, GuardJoin);
  }

  lemma ResultPasses(q: Payload)
    ensures Get(q, "success") == Bool(true) ==> Passes(EdgeOf(EXECUTION[5]), q)
    ensures Get(q, "success") == Bool(false) ==> Passes(EdgeOf(EXECUTION[6]), q)
  {}

  /** Every plan has a run, through any one of its rules, with or without approval, that completes
      the accept decision. */
  lemma AcceptReachable(p: Plan, c: Contract, i: nat, approval: bool) returns (moves: seq<Move>)
    requires PlanOk(p) && i < |p.rules|
    ensures var s := Run(Layout(p, c), moves);
            && Done(s, AcceptDecision) && Done(s, ActionRule(i))
            && (if approval then Done(s, ApprovalRule(0)) else forall k :: !Done(s, ApprovalRule(k)))
  {
    hide PlanOk, Layout, ArcInto, Recording, Leads, Name;
    var done;
    var q := Recording(i, approval, true);
    moves, done := Prepare(p, c, i, approval);
    SingleArcsInto(p);
    moves, done := Pass(p, c, moves, done, q, ACCEPTANCE);
    LeadsDone(Layout(p, c), moves, done, q);
  }

  lemma LeadsDone(m: Manifest, moves: seq<Move>, done: set<Ref>, q: Payload)
    requires Leads(m, moves, done, q)
    ensures forall r :: Done(Run(m, moves), r) <==> r in done
  {
    hide Name;
  }

  /** Every plan has a run that completes the escalate decision. */
  lemma EscalateReachable(p: Plan, c: Contract, i: nat, approval: bool) returns (moves: seq<Move>)
    requires PlanOk(p) && i < |p.rules|
    ensures Done(Run(Layout(p, c), moves), EscalateDecision) && Done(Run(Layout(p, c), moves), ActionRule(i))
  {
    hide PlanOk, Layout, ArcInto, Passes, Recording, Leads, Name;
    var done;
    var q := Recording(i, approval, false);
    RecordingRead(i, approval, false);
    SingleArcsInto(p);
    moves, done := Execute(p, c, i, approval, false);
    ResultPasses(q);
    moves, done := Follow(p, c, moves, done, q, EXECUTION[6]);
    moves, done := Pass(p, c, moves, done, q, EXECUTION[7]);
    LeadsDone(Layout(p, c), moves, done, q);
  }
}
