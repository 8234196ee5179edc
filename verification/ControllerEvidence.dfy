/** When each iteration's outcome is admitted into the stored evidence at most once. */
module ControllerEvidence {
  import opened GraphSchema
  import opened RunState
  import opened ControllerProtocol
  import opened ControllerSafety
  import opened ControllerAccounting

  ghost predicate OncePerIteration(evidence: seq<Entry>) {
    forall i, j :: 0 <= i < j < |evidence| ==> evidence[i].iteration != evidence[j].iteration
  }

  /** Condition a caller of reconcile_effect can check: the instance has not evaluated the outcome
      it reconciles, or has no tool call left to evaluate it again. */
  predicate NotEvaluated(x: Contract, y: System, a: Action) {
    Reconciles(y, a) ==>
      forall e :: e in LocalOf(y, a.p).account.evidence && e.iteration == y.shared.row.value.nextIteration ==>
        LocalOf(y, a.p).account.toolCalls >= x.calls
  }

  predicate NeverEvaluated(x: Contract, actions: seq<Action>) {
    actions != [] ==>
      && NeverEvaluated(x, actions[..|actions| - 1])
      && NotEvaluated(x, RunAll(x, actions[..|actions| - 1]), actions[|actions| - 1])
  }

  /** How far an iteration has got; no save goes back. */
  function Stage(c: Checkpoint): int {
    4 * c.nextIteration + match c.phase
      case PendingEffect(_, _) => 1
      case ReconciliationRequired(_, _) => 2
      case ReconciledEffect(_, _, _) => 3
      case Terminal(_) => 3
      case _ => 0
  }

  ghost predicate Begun(evidence: seq<Entry>, stage: int) {
    forall e :: e in evidence ==> 4 * e.iteration + 1 <= stage
  }

  ghost predicate CopyEvidence(x: Contract, c: Checkpoint) {
    && OncePerIteration(c.account.evidence) && Begun(c.account.evidence, Stage(c))
    && forall e :: e in c.account.evidence && e.iteration == c.nextIteration ==>
         c.phase.Terminal? || (c.phase.ReconciledEffect? && c.account.toolCalls >= x.calls)
  }

  ghost predicate SharedEvidence(x: Contract, s: Shared) {
    s.row.Some? ==> CopyEvidence(x, s.row.value)
  }

  /** An instance that has spent no call holds only outcomes evaluated after a reconciliation. */
  ghost predicate Held(s: Shared, account: Account) {
    && OncePerIteration(account.evidence)
    && forall e :: e in account.evidence ==>
         s.row.Some? && 4 * e.iteration + (if account.toolCalls >= 1 then 1 else 3) <= Stage(s.row.value)
  }

  ghost predicate EvidenceAt(x: Contract, pc: Pc, account: Account, c: Checkpoint) {
    match pc
    case Idle(_) => true
    case Loading => true
    case Reconciling => true
    case Cancelling => true
    case Creating => true
    case Looping(_) => account == c.account
    case Preparing(_, _) => account.evidence == c.account.evidence && account.toolCalls >= 1
    case Dispatching(_, _) => account.evidence == c.account.evidence && account.toolCalls >= 1
    case Observed(it, _, _) =>
      && account.evidence == c.account.evidence && (c.phase.PendingEffect? ==> account.toolCalls >= 1)
      && forall e :: e in account.evidence ==> e.iteration != it
    case Finishing(_) => Begun(account.evidence, Stage(c))
    case Ending(_) => Begun(account.evidence, Stage(c))
    case Attested(_, _, _) =>
      && Begun(account.evidence, Stage(c))
      && forall e :: e in account.evidence && e.iteration == c.nextIteration ==> account.toolCalls >= x.calls
    case _ => account.evidence == c.account.evidence
  }

  ghost predicate LocalEvidence(x: Contract, s: Shared, l: Local) {
    && Held(s, l.account)
    && if l.checkpoint.None? then l.account.evidence == []
       else
         && s.row.Some? && Stage(l.checkpoint.value) <= Stage(s.row.value)
         && CopyEvidence(x, l.checkpoint.value) && EvidenceAt(x, l.pc, l.account, l.checkpoint.value)
  }

  /** The row only moves to later stages. */
  predicate Rises(s: Shared, t: Shared) {
    s.row.Some? ==> t.row.Some? && Stage(s.row.value) <= Stage(t.row.value)
  }

  lemma RisesSpares(x: Contract, s: Shared, t: Shared, k: Local)
    requires LocalEvidence(x, s, k) && Rises(s, t)
    ensures LocalEvidence(x, t, k)
  {
    hide CopyEvidence, EvidenceAt;
  }

  lemma SaveEvidence(x: Contract, s: Shared, l: Local, phase: Phase, next: int, then_: Pc)
    requires SharedEvidence(x, s) && LocalEvidence(x, s, l) && l.checkpoint.Some? && CopyOk(s, l)
    requires CopyEvidence(x, Checkpoint(phase, next, l.account, 0))
    requires Stage(l.checkpoint.value) <= Stage(Checkpoint(phase, next, l.account, 0))
    requires forall revision :: EvidenceAt(x, then_, l.account, Checkpoint(phase, next, l.account, revision))
    ensures var (s', l') := SaveAs(s, l, phase, next, then_);
            SharedEvidence(x, s') && LocalEvidence(x, s', l') && Rises(s, s')
  {
    hide EvidenceAt, OncePerIteration;
    var (s', l') := SaveAs(s, l, phase, next, then_);
    FailedEvidence(x, s, l);
    if s' != s { HeldLater(s, s', l.account); }
  }

  lemma HeldLater(s: Shared, t: Shared, account: Account)
    requires Held(s, account) && Rises(s, t)
    ensures Held(t, account)
  {}

  lemma FailedEvidence(x: Contract, s: Shared, l: Local)
    requires LocalEvidence(x, s, l)
    ensures forall d :: LocalEvidence(x, s, l.(pc := Idle(d)))
  {
    hide CopyEvidence, Held;
  }

  lemma SavingEvidence(x: Contract, s: Shared, l: Local, input: Input)
    requires LocalInv(x, s, l) && SharedEvidence(x, s) && LocalEvidence(x, s, l) && Saving(l.pc)
    ensures var (s', l') := Next(x, s, l, input);
            SharedEvidence(x, s') && LocalEvidence(x, s', l') && Rises(s, s')
  {
    hide SharedEvidence, SaveAs, CopyOk, OncePerIteration;
    var c := l.checkpoint.value;
    var next := c.nextIteration;
    match l.pc
    case Blocking => {
      SaveEvidence(x, s, l, ReconciliationRequired(c.phase.intent, c.phase.operation), next, Idle(Some(Waiting)));
    }
    case Attested(intent, operation, observation) => {
      SaveEvidence(x, s, l, ReconciledEffect(intent, operation, observation), next, Loading);
    }
    case Proposed(it, intent) => { SaveEvidence(x, s, l, PendingAuthorization(intent), it, Authorising(it, intent)); }
    case Holding(it, intent) => { SaveEvidence(x, s, l, AwaitingApproval(intent), it, Idle(Some(Waiting))); }
    case Finishing(it) => { SaveEvidence(x, s, l, Ready, it + 1, Looping(it + 1)); }
    case Ending(outcome) => { SaveEvidence(x, s, l, Terminal(outcome), next, Idle(Some(outcome))); }
  }

  lemma PreparingEvidence(x: Contract, s: Shared, l: Local, input: Input)
    requires LocalInv(x, s, l) && SharedEvidence(x, s) && LocalEvidence(x, s, l) && l.pc.Preparing?
    ensures var (s', l') := Next(x, s, l, input);
            SharedEvidence(x, s') && LocalEvidence(x, s', l') && Rises(s, s')
  {
    hide SharedEvidence, SaveAs, CopyOk, OncePerIteration;
    var (it, intent) := (l.pc.it, l.pc.intent);
    SaveEvidence(x, s, l, PendingEffect(intent, x.mint(it, intent)), it, Dispatching(it, intent));
    GrantedAside(x, SaveAs(s, l, PendingEffect(intent, x.mint(it, intent)), it, Dispatching(it, intent)), it);
  }

  /** The log of pending effects plays no part in the evidence. */
  lemma GrantedAside(x: Contract, end: (Shared, Local), it: int)
    requires SharedEvidence(x, end.0) && LocalEvidence(x, end.0, end.1)
    ensures var s' := end.0.(granted := end.0.granted + [it]); SharedEvidence(x, s') && LocalEvidence(x, s', end.1)
  {
    hide CopyEvidence, EvidenceAt, OncePerIteration;
  }

  lemma CreatingEvidence(x: Contract, s: Shared, l: Local, input: Input)
    requires SharedInv(x, s) && LocalInv(x, s, l) && SharedEvidence(x, s) && LocalEvidence(x, s, l)
    requires l.pc.Creating? && l.account.toolCalls == 0
    ensures var (s', l') := Next(x, s, l, input);
            SharedEvidence(x, s') && LocalEvidence(x, s', l') && Rises(s, s')
  {}

  lemma RestoredEvidence(x: Contract, s: Shared, pc: Pc)
    requires x.calls >= 1 && s.row.Some? && CopyEvidence(x, s.row.value)
    requires pc.Idle? || pc.Blocking? || pc.Looping? || pc.Ending?
    ensures LocalEvidence(x, s, Restored(s.row.value, pc))
  {
    hide OncePerIteration;
  }

  lemma ReadingEvidence(x: Contract, s: Shared, l: Local, input: Input)
    requires x.calls >= 1 && LocalInv(x, s, l) && SharedEvidence(x, s) && LocalEvidence(x, s, l)
    requires l.pc.Loading? || l.pc.Cancelling?
    ensures var (s', l') := Next(x, s, l, input); s' == s && LocalEvidence(x, s, l')
  {
    hide CopyEvidence, Held;
    FailedEvidence(x, s, l);
    if s.row.Some? {
      forall pc: Pc | pc.Idle? || pc.Blocking? || pc.Looping? || pc.Ending?
        ensures LocalEvidence(x, s, Restored(s.row.value, pc)) {
        RestoredEvidence(x, s, pc);
      }
    }
  }

  lemma TakenOver(x: Contract, s: Shared, account: Account, pc: Pc)
    requires SharedEvidence(x, s) && Held(s, account) && s.row.Some? && pc.Attested?
    requires forall e :: e in account.evidence && e.iteration == s.row.value.nextIteration ==> account.toolCalls >= x.calls
    ensures LocalEvidence(x, s, Local(pc, account, s.row))
  {
    hide OncePerIteration;
    assert Begun(account.evidence, Stage(s.row.value));
  }

  lemma AttestEvidence(x: Contract, s: Shared, l: Local, input: Input)
    requires LocalInv(x, s, l) && SharedEvidence(x, s) && LocalEvidence(x, s, l) && l.pc.Reconciling?
    requires Attests(s, l, input) ==>
               forall e :: e in l.account.evidence && e.iteration == s.row.value.nextIteration ==> l.account.toolCalls >= x.calls
    ensures var (s', l') := Next(x, s, l, input); s' == s && LocalEvidence(x, s, l')
  {
    hide Held, CopyEvidence, SharedEvidence;
    var l' := Attest(l, s.row, input);
    assert Next(x, s, l, input) == (s, l');
    if l'.pc.Attested? {
      TakenOver(x, s, l.account, l'.pc);
      assert LocalEvidence(x, s, l');
    } else {
      FailedEvidence(x, s, l);
      assert LocalEvidence(x, s, l');
    }
  }

  lemma EvaluateEvidence(x: Contract, s: Shared, l: Local, input: Input)
    requires LocalInv(x, s, l) && LocalEvidence(x, s, l) && l.pc.Observed?
    ensures var (s', l') := Next(x, s, l, input); s' == s && LocalEvidence(x, s, l')
  {
    hide OncePerIteration;
    var l' := Next(x, s, l, input).1;
    NewEntry(l.account.evidence, Entry(l.pc.it, l.pc.intent));
    forall e | e in l'.account.evidence ensures e in l.account.evidence || e.iteration == l.pc.it {}
  }

  lemma NewEntry(evidence: seq<Entry>, entry: Entry)
    requires OncePerIteration(evidence) && forall e :: e in evidence ==> e.iteration != entry.iteration
    ensures OncePerIteration(evidence + [entry])
  {
    forall i | 0 <= i < |evidence| ensures evidence[i].iteration != entry.iteration { assert evidence[i] in evidence; }
  }

  lemma QuietEvidence(x: Contract, s: Shared, l: Local, input: Input)
    requires LocalInv(x, s, l) && SharedEvidence(x, s) && LocalEvidence(x, s, l)
    requires l.pc.Idle? || l.pc.Looping? || l.pc.Authorising? || l.pc.Dispatching?
    ensures var (s', l') := Next(x, s, l, input);
            SharedEvidence(x, s') && LocalEvidence(x, s', l') && Rises(s, s')
  {
    hide OncePerIteration;
  }

  lemma NextEvidence(x: Contract, s: Shared, l: Local, input: Input)
    requires x.calls >= 1 && SharedInv(x, s) && LocalInv(x, s, l) && SharedEvidence(x, s) && LocalEvidence(x, s, l)
    requires l.pc.Creating? ==> l.account.toolCalls == 0
    requires Attests(s, l, input) ==>
               forall e :: e in l.account.evidence && e.iteration == s.row.value.nextIteration ==> l.account.toolCalls >= x.calls
    ensures var (s', l') := Next(x, s, l, input);
            SharedEvidence(x, s') && LocalEvidence(x, s', l') && Rises(s, s')
  {
    hide SharedInv, LocalInv, SharedEvidence, LocalEvidence, Next;
    if Saving(l.pc) { SavingEvidence(x, s, l, input); }
    else if l.pc.Preparing? { PreparingEvidence(x, s, l, input); }
    else if l.pc.Creating? { CreatingEvidence(x, s, l, input); }
    else if l.pc.Loading? || l.pc.Cancelling? { ReadingEvidence(x, s, l, input); }
    else if l.pc.Reconciling? { AttestEvidence(x, s, l, input); }
    else if l.pc.Observed? { EvaluateEvidence(x, s, l, input); }
    else { QuietEvidence(x, s, l, input); }
  }

  // ---- whole runs ----

  ghost predicate EvidenceInv(x: Contract, y: System) {
    SharedEvidence(x, y.shared) && forall p :: p in y.locals ==> LocalEvidence(x, y.shared, y.locals[p])
  }

  lemma NewEvidence(x: Contract, y: System, p: nat)
    requires EvidenceInv(x, y)
    ensures LocalEvidence(x, y.shared, LocalOf(y, p))
  {}

  lemma RestartEvidence(x: Contract, s: Shared, l: Local, pc: Pc)
    requires LocalEvidence(x, s, l) && (pc.Idle? || pc.Loading? || pc.Reconciling? || pc.Cancelling?)
    ensures LocalEvidence(x, s, l.(pc := pc))
  {
    hide CopyEvidence, Held;
  }

  lemma DoEvidence(x: Contract, y: System, a: Action)
    requires x.calls >= 1 && SystemInv(x, y) && SpentInv(x, false, y) && EvidenceInv(x, y)
    requires NotEvaluated(x, y, a)
    ensures EvidenceInv(x, Do(x, y, a))
  {
    hide SharedInv, LocalInv, SharedSpent, SpentAt, CopySpent, SharedEvidence, LocalEvidence, Next;
    var l := LocalOf(y, a.p);
    LocalOfInv(x, y, a.p);
    LocalOfSpent(x, false, y, a.p);
    NewEvidence(x, y, a.p);
    if a.Proceed? {
      if l.pc.Creating? { CreatingIsNew(x, y.shared, l); }
      NextEvidence(x, y.shared, l, a.input);
      forall q | q in y.locals ensures LocalEvidence(x, Next(x, y.shared, l, a.input).0, y.locals[q]) {
        RisesSpares(x, y.shared, Next(x, y.shared, l, a.input).0, y.locals[q]);
      }
    } else {
      forall pc: Pc | pc.Idle? || pc.Loading? || pc.Reconciling? || pc.Cancelling?
        ensures LocalEvidence(x, y.shared, l.(pc := pc)) {
        RestartEvidence(x, y.shared, l, pc);
      }
    }
  }

  lemma CreatingIsNew(x: Contract, s: Shared, l: Local)
    requires LocalInv(x, s, l) && LocalSpent(x, false, s, l) && l.pc.Creating?
    ensures l.account.toolCalls == 0
  {}

  /** An instance that has spent no call cannot hold the outcome of the effect it reconciles. */
  lemma OneCallSuffices(x: Contract, y: System, a: Action)
    requires x.calls == 1 && EvidenceInv(x, y)
    ensures NotEvaluated(x, y, a)
  {
    hide OncePerIteration;
    NewEvidence(x, y, a.p);
  }

  lemma {:induction false} RunAllEvidence(x: Contract, actions: seq<Action>)
    requires x.calls == 1 || (x.calls >= 1 && NeverEvaluated(x, actions))
    ensures EvidenceInv(x, RunAll(x, actions))
  {
    hide Do, SystemInv, NotEvaluated, SpentInv;
    if actions != [] {
      var front := actions[..|actions| - 1];
      RunAllEvidence(x, front);
      RunAllInv(x, front);
      RunAllSpent(x, false, front);
      if x.calls == 1 { OneCallSuffices(x, RunAll(x, front), actions[|actions| - 1]); }
      DoEvidence(x, RunAll(x, front), actions[|actions| - 1]);
    }
  }

  /** While no instance reconciles an outcome it has evaluated and could evaluate again, every
      iteration's outcome is admitted into the stored evidence at most once; with a budget of one
      tool call none can. */
  lemma EvidenceAdmittedOnce(x: Contract, actions: seq<Action>)
    requires x.calls == 1 || (x.calls >= 1 && NeverEvaluated(x, actions))
    ensures var row := RunAll(x, actions).shared.row; row.Some? ==> OncePerIteration(row.value.account.evidence)
  {
    hide RunAll, OncePerIteration, NeverEvaluated;
    RunAllEvidence(x, actions);
  }

  /** Whoever reconciles with the stored account has not evaluated the outcome. */
  lemma {:induction false} FaithfulNeverEvaluated(x: Contract, actions: seq<Action>)
    requires x.calls >= 1 && AlwaysFaithful(x, actions)
    ensures NeverEvaluated(x, actions)
  {
    hide RunAll, OncePerIteration;
    if actions != [] {
      FaithfulNeverEvaluated(x, actions[..|actions| - 1]);
      RunAllEvidence(x, actions[..|actions| - 1]);
    }
  }
}
