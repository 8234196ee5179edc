/** What the stored tool-call counter proves over whole runs, under conditions on reconciliations. */
module ControllerAccounting {
  import opened GraphSchema
  import opened RunState
  import opened ControllerProtocol
  import opened ControllerSafety

  /** The step in which an instance takes on the blocked checkpoint it reconciles. */
  predicate Attests(s: Shared, l: Local, input: Input) {
    l.pc.Reconciling? && Attest(l, s.row, input).pc.Attested?
  }

  predicate Reconciles(y: System, a: Action) {
    a.Proceed? && Attests(y.shared, LocalOf(y, a.p), a.input)
  }

  /** A condition a caller of reconcile_effect can check: the instance counts no fewer tool calls
      than are stored. */
  predicate KeepsSpent(y: System, a: Action) {
    Reconciles(y, a) ==> LocalOf(y, a.p).account.toolCalls >= y.shared.row.value.account.toolCalls
  }

  /** The condition holds at every step of a run. */
  predicate AlwaysKeepsSpent(x: Contract, actions: seq<Action>) {
    actions != [] ==>
      && AlwaysKeepsSpent(x, actions[..|actions| - 1])
      && KeepsSpent(RunAll(x, actions[..|actions| - 1]), actions[|actions| - 1])
  }

  /** Reconciling with the whole stored account, as an instance that has just restored it does. */
  predicate Faithful(y: System, a: Action) {
    Reconciles(y, a) ==> LocalOf(y, a.p).account == y.shared.row.value.account
  }

  predicate AlwaysFaithful(x: Contract, actions: seq<Action>) {
    actions != [] ==>
      && AlwaysFaithful(x, actions[..|actions| - 1])
      && Faithful(RunAll(x, actions[..|actions| - 1]), actions[|actions| - 1])
  }

  lemma {:induction false} FaithfulKeepsSpent(x: Contract, actions: seq<Action>)
    requires AlwaysFaithful(x, actions)
    ensures AlwaysKeepsSpent(x, actions)
  {
    hide RunAll;
    if actions != [] { FaithfulKeepsSpent(x, actions[..|actions| - 1]); }
  }

  /** Iterations whose effect a checkpoint can have recorded. */
  function Ceiling(c: Checkpoint): int {
    if EffectBegun(c.phase) then c.nextIteration else c.nextIteration - 1
  }

  predicate Reconcilable(phase: Phase) {
    phase.PendingEffect? || phase.ReconciliationRequired? || phase.ReconciledEffect?
  }

  predicate CopySpent(x: Contract, c: Checkpoint) {
    && c.account.toolCalls <= x.calls && c.account.toolCalls <= Ceiling(c)
    && (Reconcilable(c.phase) ==> c.nextIteration <= x.iterations)
  }

  /** kept tells whether every reconciliation so far kept the stored count. */
  predicate SharedSpent(x: Contract, kept: bool, s: Shared) {
    s.row.Some? ==> CopySpent(x, s.row.value) && (kept ==> |s.granted| <= s.row.value.account.toolCalls)
  }

  predicate Within(s: Shared, toolCalls: nat) {
    toolCalls > 0 ==> s.row.Some? && toolCalls <= s.row.value.nextIteration
  }

  predicate LocalSpent(x: Contract, kept: bool, s: Shared, l: Local) {
    && l.account.toolCalls <= x.calls && Within(s, l.account.toolCalls)
    && if l.checkpoint.None? then l.account.toolCalls == 0
       else
         var c := l.checkpoint.value;
         && s.row.Some? && c.nextIteration <= s.row.value.nextIteration
         && CopySpent(x, c) && SpentAt(x, kept, l.pc, l.account.toolCalls, c)
  }

  /** How an instance's count relates to its copy's, by where it stands. */
  predicate SpentAt(x: Contract, kept: bool, pc: Pc, mine: nat, c: Checkpoint) {
    match pc
    case Idle(_) => true
    case Loading => true
    case Reconciling => true
    case Cancelling => true
    case Attested(_, _, _) => mine <= Ceiling(c) && (kept ==> mine >= c.account.toolCalls)
    case Proposed(_, _) => mine == c.account.toolCalls < x.calls
    case Authorising(_, _) => mine == c.account.toolCalls < x.calls
    case Preparing(_, _) => mine == c.account.toolCalls + 1
    case _ => mine == c.account.toolCalls
  }

  ghost predicate SpentInv(x: Contract, kept: bool, y: System) {
    SharedSpent(x, kept, y.shared) && forall p :: p in y.locals ==> LocalSpent(x, kept, y.shared, y.locals[p])
  }

  /** The row stays and goes to no earlier iteration; with every count kept, to no lower count. */
  predicate Onward(kept: bool, s: Shared, t: Shared) {
    s.row.Some? ==>
      && t.row.Some? && s.row.value.nextIteration <= t.row.value.nextIteration
      && (kept ==> s.row.value.account.toolCalls <= t.row.value.account.toolCalls)
  }

  lemma SaveSpent(x: Contract, kept: bool, s: Shared, l: Local, phase: Phase, next: int, then_: Pc)
    requires SharedSpent(x, kept, s) && LocalSpent(x, kept, s, l) && l.checkpoint.Some? && CopyOk(s, l)
    requires next >= l.checkpoint.value.nextIteration
    requires kept ==> l.account.toolCalls >= l.checkpoint.value.account.toolCalls
    requires CopySpent(x, Checkpoint(phase, next, l.account, 0))
    requires forall revision :: SpentAt(x, kept, then_, l.account.toolCalls, Checkpoint(phase, next, l.account, revision))
    ensures var (s', l') := SaveAs(s, l, phase, next, then_);
            SharedSpent(x, kept, s') && LocalSpent(x, kept, s', l') && Onward(kept, s, s')
  {}

  lemma SavingSpent(x: Contract, kept: bool, s: Shared, l: Local, input: Input)
    requires LocalInv(x, s, l) && SharedSpent(x, kept, s) && LocalSpent(x, kept, s, l) && Saving(l.pc)
    ensures var (s', l') := Next(x, s, l, input);
            SharedSpent(x, kept, s') && LocalSpent(x, kept, s', l') && Onward(kept, s, s')
  {
    hide SharedSpent, SaveAs, CopyOk, Onward, Within;
    var c := l.checkpoint.value;
    var next := c.nextIteration;
    match l.pc
    case Blocking => {
      SaveSpent(x, kept, s, l, ReconciliationRequired(c.phase.intent, c.phase.operation), next, Idle(Some(Waiting)));
    }
    case Attested(intent, operation, observation) => {
      SaveSpent(x, kept, s, l, ReconciledEffect(intent, operation, observation), next, Loading);
    }
    case Proposed(it, intent) => { SaveSpent(x, kept, s, l, PendingAuthorization(intent), it, Authorising(it, intent)); }
    case Holding(it, intent) => { SaveSpent(x, kept, s, l, AwaitingApproval(intent), it, Idle(Some(Waiting))); }
    case Finishing(it) => { SaveSpent(x, kept, s, l, Ready, it + 1, Looping(it + 1)); }
    case Ending(outcome) => { SaveSpent(x, kept, s, l, Terminal(outcome), next, Idle(Some(outcome))); }
  }

  lemma PreparingSpent(x: Contract, kept: bool, s: Shared, l: Local, input: Input)
    requires LocalInv(x, s, l) && SharedSpent(x, kept, s) && LocalSpent(x, kept, s, l) && l.pc.Preparing?
    ensures var (s', l') := Next(x, s, l, input);
            SharedSpent(x, kept, s') && LocalSpent(x, kept, s', l') && Onward(kept, s, s')
  {}

  lemma CreatingSpent(x: Contract, kept: bool, s: Shared, l: Local, input: Input)
    requires x.calls >= 0 && SharedInv(x, s) && LocalInv(x, s, l) && SharedSpent(x, kept, s) && LocalSpent(x, kept, s, l)
    requires l.pc.Creating?
    ensures var (s', l') := Next(x, s, l, input);
            SharedSpent(x, kept, s') && LocalSpent(x, kept, s', l') && Onward(kept, s, s')
  {
    GrantedHasRow(x, s);
  }

  lemma GrantedHasRow(x: Contract, s: Shared)
    requires SharedInv(x, s)
    ensures s.granted == [] || s.row.Some?
  {
    if s.granted != [] { assert s.granted[0] in s.granted; }
  }

  lemma ReadingSpent(x: Contract, kept: bool, s: Shared, l: Local, input: Input)
    requires SharedSpent(x, kept, s) && LocalSpent(x, kept, s, l) && (l.pc.Loading? || l.pc.Cancelling?)
    ensures var (s', l') := Next(x, s, l, input); s' == s && LocalSpent(x, kept, s, l')
  {}

  /** Only an instance that reconciles brings a count from elsewhere. */
  lemma AttestSpent(x: Contract, kept: bool, s: Shared, l: Local, input: Input)
    requires SharedSpent(x, kept, s) && LocalSpent(x, kept, s, l) && l.pc.Reconciling?
    requires kept && Attests(s, l, input) ==> l.account.toolCalls >= s.row.value.account.toolCalls
    ensures var (s', l') := Next(x, s, l, input); s' == s && LocalSpent(x, kept, s, l')
  {}

  lemma LoopSpent(x: Contract, kept: bool, s: Shared, l: Local, input: Input)
    requires LocalInv(x, s, l) && LocalSpent(x, kept, s, l)
    requires l.pc.Idle? || l.pc.Looping? || l.pc.Authorising? || l.pc.Dispatching? || l.pc.Observed?
    ensures var (s', l') := Next(x, s, l, input); s'.row == s.row && LocalSpent(x, kept, s', l')
    ensures Next(x, s, l, input).0.granted == s.granted
  {
    hide SaveAs, CopyOk;
  }

  lemma NextSpent(x: Contract, kept: bool, s: Shared, l: Local, input: Input)
    requires x.calls >= 0 && SharedInv(x, s) && LocalInv(x, s, l) && SharedSpent(x, kept, s) && LocalSpent(x, kept, s, l)
    requires kept && Attests(s, l, input) ==> l.account.toolCalls >= s.row.value.account.toolCalls
    ensures var (s', l') := Next(x, s, l, input);
            SharedSpent(x, kept, s') && LocalSpent(x, kept, s', l') && Onward(kept, s, s')
  {
    hide SharedInv, LocalInv, LocalSpent, Next;
    if Saving(l.pc) { SavingSpent(x, kept, s, l, input); }
    else if l.pc.Creating? { CreatingSpent(x, kept, s, l, input); }
    else if l.pc.Preparing? { PreparingSpent(x, kept, s, l, input); }
    else if l.pc.Loading? || l.pc.Cancelling? { ReadingSpent(x, kept, s, l, input); }
    else if l.pc.Reconciling? { AttestSpent(x, kept, s, l, input); }
    else { LoopSpent(x, kept, s, l, input); }
  }

  lemma LocalOfSpent(x: Contract, kept: bool, y: System, p: nat)
    requires x.calls >= 0 && SpentInv(x, kept, y)
    ensures LocalSpent(x, kept, y.shared, LocalOf(y, p))
  {}

  lemma OnwardSpares(x: Contract, kept: bool, s: Shared, t: Shared, k: Local)
    requires LocalSpent(x, kept, s, k) && Onward(kept, s, t)
    ensures LocalSpent(x, kept, t, k)
  {
    hide CopySpent, SpentAt;
  }

  lemma DoSpent(x: Contract, kept: bool, y: System, a: Action)
    requires x.calls >= 0 && SystemInv(x, y) && SpentInv(x, kept, y) && (kept ==> KeepsSpent(y, a))
    ensures SpentInv(x, kept, Do(x, y, a)) && Onward(kept, y.shared, Do(x, y, a).shared)
  {
    hide SharedInv, LocalInv, SharedSpent, Next, CopySpent, Within;
    LocalOfInv(x, y, a.p);
    LocalOfSpent(x, kept, y, a.p);
    if a.Proceed? {
      var t := Next(x, y.shared, LocalOf(y, a.p), a.input).0;
      NextSpent(x, kept, y.shared, LocalOf(y, a.p), a.input);
      forall k | k in y.locals ensures LocalSpent(x, kept, t, y.locals[k]) {
        OnwardSpares(x, kept, y.shared, t, y.locals[k]);
      }
    }
  }

  lemma {:induction false} RunAllSpent(x: Contract, kept: bool, actions: seq<Action>)
    requires x.calls >= 0 && (kept ==> AlwaysKeepsSpent(x, actions))
    ensures SpentInv(x, kept, RunAll(x, actions))
  {
    hide Do, SystemInv, KeepsSpent;
    if actions != [] {
      var front := actions[..|actions| - 1];
      RunAllSpent(x, kept, front);
      RunAllInv(x, front);
      DoSpent(x, kept, RunAll(x, front), actions[|actions| - 1]);
    }
  }

  // ---- consequences ----

  lemma SubsetLength(a: seq<int>, b: seq<int>)
    requires Distinct(a) && Distinct(b) && forall d :: d in a ==> d in b
    ensures |a| <= |b|
  {
    DistinctSet(a);
    DistinctSet(b);
    var sa, sb := set d | d in a, set d | d in b;
    assert sb == sa + (sb - sa);
  }

  lemma {:induction false} DistinctSet(a: seq<int>)
    requires Distinct(a)
    ensures |set d | d in a| == |a|
  {
    if a != [] {
      var k := |a| - 1;
      DistinctSet(a[..k]);
      assert (set d | d in a) == (set d | d in a[..k]) + {a[k]};
    }
  }

  /** While no reconciling instance counts fewer tool calls than are stored, the effects dispatched
      never exceed the calls stored, nor these the budget. */
  lemma BudgetsHold(x: Contract, actions: seq<Action>)
    requires x.calls >= 0 && AlwaysKeepsSpent(x, actions)
    ensures var s := RunAll(x, actions).shared;
            && |s.dispatched| <= x.calls
            && (s.row.Some? ==> |s.dispatched| <= s.row.value.account.toolCalls <= x.calls)
  {
    hide RunAll, LocalInv, LocalSpent, AlwaysKeepsSpent;
    RunAllInv(x, actions);
    RunAllSpent(x, true, actions);
    var s := RunAll(x, actions).shared;
    SubsetLength(s.dispatched, s.granted);
    GrantedHasRow(x, s);
  }

  /** Over any continuation of any run the row is never lost or moved back, and under the same
      condition the stored count never falls. */
  lemma {:induction false} SpentNeverFalls(x: Contract, actions: seq<Action>, more: seq<Action>)
    requires x.calls >= 0
    ensures Onward(AlwaysKeepsSpent(x, actions + more), RunAll(x, actions).shared, RunAll(x, actions + more).shared)
  {
    hide Do, SystemInv, KeepsSpent, SpentInv;
    if more == [] {
      assert actions + more == actions;
    } else {
      var front, all := more[..|more| - 1], actions + more;
      assert all[..|all| - 1] == actions + front;
      SpentNeverFalls(x, actions, front);
      RunAllInv(x, actions + front);
      var kept := AlwaysKeepsSpent(x, all);
      RunAllSpent(x, kept, actions + front);
      DoSpent(x, kept, RunAll(x, actions + front), more[|more| - 1]);
    }
  }

  /** An instance at the top of the loop that holds a reconciled outcome and ends the run with it
      unevaluated: the budgets are tested first. */
  predicate Drops(x: Contract, y: System, p: nat, input: Input) {
    var l := LocalOf(y, p);
    && l.pc.Looping? && l.checkpoint.Some? && l.checkpoint.value.phase.ReconciledEffect?
    && Next(x, y.shared, l, input).1.pc == Ending(Stop)
  }

  /** With more tool calls permitted than iterations, no reconciled outcome is dropped. */
  lemma NothingDropped(x: Contract, actions: seq<Action>, p: nat, input: Input)
    requires x.calls >= 0 && x.iterations < x.calls
    ensures !Drops(x, RunAll(x, actions), p, input)
  {
    hide RunAll, SharedInv, SharedSpent;
    RunAllInv(x, actions);
    RunAllSpent(x, false, actions);
    LocalOfInv(x, RunAll(x, actions), p);
    LocalOfSpent(x, false, RunAll(x, actions), p);
  }
}
