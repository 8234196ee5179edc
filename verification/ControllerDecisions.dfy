/** What stands behind a dispatch, a stored decision and admitted evidence: the answers the gate, the
    executor, the reconciler and the verifiers gave earlier in the run. */
module ControllerDecisions {
  import opened GraphSchema
  import opened RunState
  import opened ControllerProtocol
  import opened ControllerSafety

  /** The controller p took the i-th action as a step from a place, on an answer. */
  predicate Took(x: Contract, actions: seq<Action>, i: nat, p: nat, pc: Pc) {
    i < |actions| && actions[i].Proceed? && actions[i].p == p && LocalOf(RunAll(x, actions[..i]), p).pc == pc
  }

  // ---- where a controller's place comes from ----

  /** Places a call, a failure or a crash can put a controller in. */
  predicate Resting(pc: Pc) {
    pc.Idle? || pc.Loading? || pc.Reconciling? || pc.Cancelling?
  }

  /** What the controller's i-th action left it as. */
  function Left(x: Contract, actions: seq<Action>, i: nat): (Shared, Local)
    requires i < |actions| && actions[i].Proceed?
  {
    var y := RunAll(x, actions[..i]);
    Next(x, y.shared, LocalOf(y, actions[i].p), actions[i].input)
  }

  /** The step that brought a controller to where it stands. */
  lemma {:induction false} Origin(x: Contract, actions: seq<Action>, p: nat) returns (i: nat)
    requires !Resting(LocalOf(RunAll(x, actions), p).pc)
    ensures i < |actions| && actions[i].Proceed? && actions[i].p == p
    ensures Left(x, actions, i).1 == LocalOf(RunAll(x, actions), p)
  {
    hide Next;
    if actions == [] {
      assert false;
    } else {
      var front, a := actions[..|actions| - 1], actions[|actions| - 1];
      if a.p == p && a.Proceed? {
        i := |actions| - 1;
      } else {
        i := Origin(x, front, p);
        assert front[..i] == actions[..i];
      }
    }
  }

  lemma Taken(x: Contract, actions: seq<Action>, j: nat, i: nat)
    requires i < j <= |actions|
    ensures actions[..j][..i] == actions[..i] && actions[..j][i] == actions[i]
  {}

  // ---- dispatches ----

  lemma IntoDispatching(x: Contract, s: Shared, l: Local, input: Input)
    requires Next(x, s, l, input).1.pc.Dispatching?
    ensures var pc := Next(x, s, l, input).1.pc;
            && l.pc == Preparing(pc.it, pc.intent)
            && var row := Next(x, s, l, input).0.row;
               row.Some? && row.value.phase == PendingEffect(pc.intent, x.mint(pc.it, pc.intent))
  {}

  lemma IntoPreparing(x: Contract, s: Shared, l: Local, input: Input)
    requires Next(x, s, l, input).1.pc.Preparing?
    ensures var pc := Next(x, s, l, input).1.pc; l.pc == Authorising(pc.it, pc.intent) && input.gate.Granted?
  {}

  /** The effect was sent for an intent after the gate granted that intent in that iteration to the
      same controller, and after the operation minted for it was stored as pending. */
  ghost predicate SentGranted(x: Contract, actions: seq<Action>, it: int, i: nat, j: nat, k: nat, p: nat, intent: string) {
    && i < j < k < |actions|
    && Took(x, actions, i, p, Authorising(it, intent)) && actions[i].input.gate == Granted
    && Took(x, actions, j, p, Preparing(it, intent))
    && (var row := RunAll(x, actions[..j + 1]).shared.row;
        row.Some? && row.value.phase == PendingEffect(intent, x.mint(it, intent)))
    && Took(x, actions, k, p, Dispatching(it, intent))
  }

  /** Every dispatched effect was granted by the gate, under any interleaving, failure and crash. */
  lemma {:induction false} DispatchGranted(x: Contract, actions: seq<Action>, it: int)
    returns (i: nat, j: nat, k: nat, p: nat, intent: string)
    requires it in RunAll(x, actions).shared.dispatched
    ensures SentGranted(x, actions, it, i, j, k, p, intent)
  {
    hide Next, SentGranted;
    var front, a := actions[..|actions| - 1], actions[|actions| - 1];
    var y := RunAll(x, front);
    if it in y.shared.dispatched {
      i, j, k, p, intent := DispatchGranted(x, front, it);
      SentLater(x, front, a, it, i, j, k, p, intent);
      assert front + [a] == actions;
    } else {
      NextDispatches(x, y.shared, LocalOf(y, a.p), a.input);
      k, p, intent := |actions| - 1, a.p, LocalOf(y, a.p).pc.intent;
      i, j := GrantBehind(x, actions, k, p, it, intent);
    }
  }

  lemma SentLater(x: Contract, actions: seq<Action>, a: Action, it: int, i: nat, j: nat, k: nat, p: nat, intent: string)
    requires SentGranted(x, actions, it, i, j, k, p, intent)
    ensures SentGranted(x, actions + [a], it, i, j, k, p, intent)
  {
    hide RunAll;
    var all := actions + [a];
    assert all[..i] == actions[..i] && all[..j] == actions[..j] && all[..j + 1] == actions[..j + 1] && all[..k] == actions[..k];
  }

  lemma NextDispatches(x: Contract, s: Shared, l: Local, input: Input)
    ensures Next(x, s, l, input).0.dispatched == if l.pc.Dispatching? && l.checkpoint.Some? then s.dispatched + [l.pc.it] else s.dispatched
  {}

  lemma GrantBehind(x: Contract, actions: seq<Action>, k: nat, p: nat, it: int, intent: string) returns (i: nat, j: nat)
    requires Took(x, actions, k, p, Dispatching(it, intent))
    ensures SentGranted(x, actions, it, i, j, k, p, intent)
  {
    hide Next;
    j := Origin(x, actions[..k], p);
    Taken(x, actions, k, j);
    var y := RunAll(x, actions[..j]);
    IntoDispatching(x, y.shared, LocalOf(y, p), actions[j].input);
    assert actions[..j + 1][..j] == actions[..j];
    i := Origin(x, actions[..j], p);
    Taken(x, actions, j, i);
    var z := RunAll(x, actions[..i]);
    IntoPreparing(x, z.shared, LocalOf(z, p), actions[i].input);
  }

  // ---- reported outcomes ----

  /** The executor returned the outcome for the intent, or the reconciler attested it for the operation
      the run was blocked on with that intent. */
  ghost predicate ReportedAt(x: Contract, actions: seq<Action>, i: nat, intent: string, o: Observation) {
    && i < |actions| && actions[i].Proceed? && actions[i].input.observation == Some(o)
    && var y := RunAll(x, actions[..i]);
       var pc := LocalOf(y, actions[i].p).pc;
       || (pc.Dispatching? && pc.intent == intent)
       || (pc.Reconciling? && y.shared.row.Some? && y.shared.row.value.phase == ReconciliationRequired(intent, o.operation))
  }

  ghost predicate Reported(x: Contract, actions: seq<Action>, intent: string, o: Observation) {
    exists i: nat :: ReportedAt(x, actions, i, intent, o)
  }

  /** A controller evaluated a successful outcome, reported before, of that iteration and intent. */
  ghost predicate AdmittedAt(x: Contract, actions: seq<Action>, i: nat, e: Entry, o: Observation) {
    && i < |actions| && Took(x, actions, i, actions[i].p, Observed(e.iteration, e.intent, o))
    && o.success && Reported(x, actions[..i], e.intent, o)
  }

  ghost predicate Admitted(x: Contract, actions: seq<Action>, e: Entry) {
    exists i: nat, o :: AdmittedAt(x, actions, i, e, o)
  }

  lemma ReportedLater(x: Contract, actions: seq<Action>, a: Action, intent: string, o: Observation)
    requires Reported(x, actions, intent, o)
    ensures Reported(x, actions + [a], intent, o)
  {
    hide RunAll;
    var i: nat :| ReportedAt(x, actions, i, intent, o);
    assert (actions + [a])[..i] == actions[..i];
    assert ReportedAt(x, actions + [a], i, intent, o);
  }

  lemma AdmittedLater(x: Contract, actions: seq<Action>, a: Action, e: Entry)
    requires Admitted(x, actions, e)
    ensures Admitted(x, actions + [a], e)
  {
    hide RunAll, Reported;
    var i: nat, o :| AdmittedAt(x, actions, i, e, o);
    assert (actions + [a])[..i] == actions[..i];
    assert AdmittedAt(x, actions + [a], i, e, o);
  }

  /** Outcomes a checkpoint retains were reported, and its evidence admitted. */
  ghost predicate CopyBacked(x: Contract, actions: seq<Action>, c: Checkpoint) {
    && (c.phase.ReconciledEffect? ==>
          Reported(x, actions, c.phase.intent, c.phase.observation) && c.phase.observation.operation == c.phase.operation)
    && forall e :: e in c.account.evidence ==> Admitted(x, actions, e)
  }

  ghost predicate LocalBacked(x: Contract, actions: seq<Action>, l: Local) {
    && (l.checkpoint.Some? ==> CopyBacked(x, actions, l.checkpoint.value))
    && (forall e :: e in l.account.evidence ==> Admitted(x, actions, e))
    && (l.pc.Attested? ==> Reported(x, actions, l.pc.intent, l.pc.observation) && l.pc.observation.operation == l.pc.operation)
    && (l.pc.Observed? ==> Reported(x, actions, l.pc.intent, l.pc.observation))
  }

  ghost predicate Backed(x: Contract, actions: seq<Action>, y: System) {
    && (y.shared.row.Some? ==> CopyBacked(x, actions, y.shared.row.value))
    && forall p :: p in y.locals ==> LocalBacked(x, actions, y.locals[p])
  }

  lemma CopyLater(x: Contract, actions: seq<Action>, a: Action, c: Checkpoint)
    requires CopyBacked(x, actions, c)
    ensures CopyBacked(x, actions + [a], c)
  {
    hide Reported, Admitted;
    if c.phase.ReconciledEffect? { ReportedLater(x, actions, a, c.phase.intent, c.phase.observation); }
    forall e | e in c.account.evidence ensures Admitted(x, actions + [a], e) { AdmittedLater(x, actions, a, e); }
  }

  lemma LocalLater(x: Contract, actions: seq<Action>, a: Action, l: Local)
    requires LocalBacked(x, actions, l)
    ensures LocalBacked(x, actions + [a], l)
  {
    hide Reported, Admitted, CopyBacked;
    if l.checkpoint.Some? { CopyLater(x, actions, a, l.checkpoint.value); }
    forall e | e in l.account.evidence ensures Admitted(x, actions + [a], e) { AdmittedLater(x, actions, a, e); }
    if l.pc.Attested? || l.pc.Observed? { ReportedLater(x, actions, a, l.pc.intent, l.pc.observation); }
  }

  /** A step reports what it was answered and admits what it evaluates. */
  lemma StepReports(x: Contract, actions: seq<Action>, a: Action)
    requires a.Proceed? && LocalBacked(x, actions, LocalOf(RunAll(x, actions), a.p))
    ensures var y := RunAll(x, actions);
            var pc := LocalOf(y, a.p).pc;
            && (pc.Dispatching? && a.input.observation.Some? ==> Reported(x, actions + [a], pc.intent, a.input.observation.value))
            && (pc.Reconciling? && Attest(LocalOf(y, a.p), y.shared.row, a.input).pc.Attested? ==>
                  Reported(x, actions + [a], y.shared.row.value.phase.intent, a.input.observation.value))
            && (pc.Observed? && pc.observation.success ==> Admitted(x, actions + [a], Entry(pc.it, pc.intent)))
  {
    hide RunAll, Reported, CopyBacked, Admitted;
    var all, k := actions + [a], |actions|;
    var y := RunAll(x, actions);
    var pc := LocalOf(y, a.p).pc;
    assert all[..k] == actions && all[k] == a;
    if pc.Dispatching? && a.input.observation.Some? {
      ReportNow(x, all, k, pc.intent, a.input.observation.value);
    }
    if pc.Reconciling? && Attest(LocalOf(y, a.p), y.shared.row, a.input).pc.Attested? {
      ReportNow(x, all, k, y.shared.row.value.phase.intent, a.input.observation.value);
    }
    if pc.Observed? && pc.observation.success {
      AdmitNow(x, all, k, Entry(pc.it, pc.intent), pc.observation);
    }
  }

  lemma ReportNow(x: Contract, actions: seq<Action>, i: nat, intent: string, o: Observation)
    requires ReportedAt(x, actions, i, intent, o)
    ensures Reported(x, actions, intent, o)
  {}

  lemma AdmitNow(x: Contract, actions: seq<Action>, i: nat, e: Entry, o: Observation)
    requires AdmittedAt(x, actions, i, e, o)
    ensures Admitted(x, actions, e)
  {}

  lemma SaveBacked(x: Contract, actions: seq<Action>, s: Shared, l: Local, phase: Phase, next: int, then_: Pc)
    requires LocalBacked(x, actions, l) && l.checkpoint.Some? && (s.row.Some? ==> CopyBacked(x, actions, s.row.value))
    requires CopyBacked(x, actions, Checkpoint(phase, next, l.account, 0)) && !then_.Attested? && !then_.Observed?
    ensures var (s', l') := SaveAs(s, l, phase, next, then_);
            LocalBacked(x, actions, l') && (s'.row.Some? ==> CopyBacked(x, actions, s'.row.value))
  {
    hide Reported, Admitted;
  }

  lemma SavingBacked(x: Contract, actions: seq<Action>, s: Shared, l: Local, input: Input)
    requires LocalBacked(x, actions, l) && (s.row.Some? ==> CopyBacked(x, actions, s.row.value)) && (Saving(l.pc) || l.pc.Preparing?)
    ensures var (s', l') := Next(x, s, l, input);
            LocalBacked(x, actions, l') && (s'.row.Some? ==> CopyBacked(x, actions, s'.row.value))
  {
    hide Reported, Admitted, SaveAs;
    if l.checkpoint.Some? {
      var c := l.checkpoint.value;
      match l.pc
      case Blocking => {
        if c.phase.PendingEffect? {
          SaveBacked(x, actions, s, l, ReconciliationRequired(c.phase.intent, c.phase.operation), c.nextIteration, Idle(Some(Waiting)));
        }
      }
      case Attested(intent, operation, o) => {
        SaveBacked(x, actions, s, l, ReconciledEffect(intent, operation, o), c.nextIteration, Loading);
      }
      case Proposed(it, intent) => { SaveBacked(x, actions, s, l, PendingAuthorization(intent), it, Authorising(it, intent)); }
      case Holding(it, intent) => { SaveBacked(x, actions, s, l, AwaitingApproval(intent), it, Idle(Some(Waiting))); }
      case Preparing(it, intent) => {
        SaveBacked(x, actions, s, l, PendingEffect(intent, x.mint(it, intent)), it, Dispatching(it, intent));
      }
      case Finishing(it) => { SaveBacked(x, actions, s, l, Ready, it + 1, Looping(it + 1)); }
      case Ending(outcome) => { SaveBacked(x, actions, s, l, Terminal(outcome), c.nextIteration, Idle(Some(outcome))); }
    }
  }

  lemma NextBacked(x: Contract, actions: seq<Action>, s: Shared, l: Local, input: Input)
    requires LocalBacked(x, actions, l) && (s.row.Some? ==> CopyBacked(x, actions, s.row.value))
    requires l.pc.Dispatching? && input.observation.Some? ==> Reported(x, actions, l.pc.intent, input.observation.value)
    requires l.pc.Reconciling? && Attest(l, s.row, input).pc.Attested? ==>
               Reported(x, actions, s.row.value.phase.intent, input.observation.value)
    requires l.pc.Observed? && l.pc.observation.success ==> Admitted(x, actions, Entry(l.pc.it, l.pc.intent))
    ensures var (s', l') := Next(x, s, l, input);
            LocalBacked(x, actions, l') && (s'.row.Some? ==> CopyBacked(x, actions, s'.row.value))
  {
    hide Reported, Admitted, SaveAs;
    if Saving(l.pc) || l.pc.Preparing? { SavingBacked(x, actions, s, l, input); }
  }

  lemma DoBacked(x: Contract, actions: seq<Action>, a: Action)
    requires Backed(x, actions, RunAll(x, actions))
    ensures Backed(x, actions + [a], Do(x, RunAll(x, actions), a))
  {
    hide RunAll, Reported, Admitted, CopyBacked, LocalBacked, Next;
    var y, all := RunAll(x, actions), actions + [a];
    var l := LocalOf(y, a.p);
    NewBacked(x, actions);
    if y.shared.row.Some? { CopyLater(x, actions, a, y.shared.row.value); }
    forall p | p in y.locals ensures LocalBacked(x, all, y.locals[p]) { LocalLater(x, actions, a, y.locals[p]); }
    LocalLater(x, actions, a, l);
    if a.Proceed? {
      StepReports(x, actions, a);
      NextBacked(x, all, y.shared, l, a.input);
    } else {
      forall pc: Pc | Resting(pc) ensures LocalBacked(x, all, l.(pc := pc)) { RestBacked(x, all, l, pc); }
    }
  }

  lemma NewBacked(x: Contract, actions: seq<Action>)
    ensures LocalBacked(x, actions, NEW)
  {}

  lemma RestBacked(x: Contract, actions: seq<Action>, l: Local, pc: Pc)
    requires LocalBacked(x, actions, l) && Resting(pc)
    ensures LocalBacked(x, actions, l.(pc := pc))
  {
    hide Reported, Admitted, CopyBacked;
  }

  lemma {:induction false} RunAllBacked(x: Contract, actions: seq<Action>)
    ensures Backed(x, actions, RunAll(x, actions))
  {
    hide Do, Backed;
    if actions == [] {
      StartBacked(x);
    } else {
      var front := actions[..|actions| - 1];
      RunAllBacked(x, front);
      DoBacked(x, front, actions[|actions| - 1]);
      assert actions == front + [actions[|actions| - 1]];
    }
  }

  lemma StartBacked(x: Contract)
    ensures Backed(x, [], START)
  {}

  /** Every stored entry of evidence is a successful outcome of that iteration and intent, evaluated
      after the executor returned it or the reconciler attested it. */
  lemma EvidenceBehind(x: Contract, actions: seq<Action>, e: Entry)
    requires var row := RunAll(x, actions).shared.row; row.Some? && e in row.value.account.evidence
    ensures Admitted(x, actions, e)
  {
    hide RunAll, Admitted, LocalBacked;
    RunAllBacked(x, actions);
  }

  // ---- stored decisions ----

  /** A controller took a step that may end the run in the decision. */
  ghost predicate Decides(x: Contract, actions: seq<Action>, i: nat, d: Decision) {
    && i < |actions| && actions[i].Proceed?
    && var y := RunAll(x, actions[..i]);
       var (l, input) := (LocalOf(y, actions[i].p), actions[i].input);
       match d
       case Accept =>
         && l.pc.Observed? && l.pc.observation.success && input.verdict == Done
         && Reported(x, actions[..i], l.pc.intent, l.pc.observation)
       case Escalate => (l.pc.Authorising? && input.gate == Denied) || (l.pc.Observed? && input.verdict == Hopeless)
       case Stop => l.pc.Cancelling? || (l.pc.Looping? && (l.pc.it > x.iterations || l.account.toolCalls >= x.calls))
       case Waiting => false
  }

  lemma IntoEnding(x: Contract, s: Shared, l: Local, input: Input)
    requires Next(x, s, l, input).1.pc.Ending?
    ensures match Next(x, s, l, input).1.pc.outcome
            case Accept => l.pc.Observed? && l.pc.observation.success && input.verdict == Done
            case Escalate => (l.pc.Authorising? && input.gate == Denied) || (l.pc.Observed? && input.verdict == Hopeless)
            case Stop => l.pc.Cancelling? || (l.pc.Looping? && (l.pc.it > x.iterations || l.account.toolCalls >= x.calls))
            case Waiting => false
  {}

  lemma IntoTerminal(x: Contract, s: Shared, l: Local, input: Input)
    requires var row := Next(x, s, l, input).0.row; row.Some? && row.value.phase.Terminal? && row != s.row
    ensures l.pc == Ending(Next(x, s, l, input).0.row.value.phase.decision)
  {}

  /** Behind a stored decision: a successful, reported outcome with verdict Done for acceptance; a
      denial or a hopeless verdict for escalation; a spent budget or a cancellation for a stop. */
  lemma {:induction false} DecisionBehind(x: Contract, actions: seq<Action>) returns (i: nat)
    requires var row := RunAll(x, actions).shared.row; row.Some? && row.value.phase.Terminal?
    ensures Decides(x, actions, i, RunAll(x, actions).shared.row.value.phase.decision)
  {
    hide Next, Reported;
    var front, a := actions[..|actions| - 1], actions[|actions| - 1];
    var y := RunAll(x, front);
    if RunAll(x, actions).shared.row == y.shared.row {
      i := DecisionBehind(x, front);
      assert front[..i] == actions[..i];
    } else {
      IntoTerminal(x, y.shared, LocalOf(y, a.p), a.input);
      i := EndingBehind(x, front, a.p);
      assert front[..i] == actions[..i];
    }
  }

  lemma EndingBehind(x: Contract, actions: seq<Action>, p: nat) returns (i: nat)
    requires LocalOf(RunAll(x, actions), p).pc.Ending?
    ensures Decides(x, actions, i, LocalOf(RunAll(x, actions), p).pc.outcome)
  {
    hide Next, Reported, RunAll, CopyBacked;
    i := Origin(x, actions, p);
    var y := RunAll(x, actions[..i]);
    IntoEnding(x, y.shared, LocalOf(y, p), actions[i].input);
    RunAllBacked(x, actions[..i]);
  }

  // ---- the answers of a call ----

  lemma ReturnsStored(x: Contract, s: Shared, l: Local, input: Input)
    requires !l.pc.Idle? && Next(x, s, l, input).1.pc.Idle? && Next(x, s, l, input).1.pc.decision.Some?
    requires l.pc != Ending(Waiting) && (s.row.Some? ==> s.row.value.phase != Terminal(Waiting))
    ensures var (s', l') := Next(x, s, l, input);
            && s'.row.Some?
            && match l'.pc.decision.value
               case Waiting => s'.row.value.phase.AwaitingApproval? || s'.row.value.phase.ReconciliationRequired?
               case d => s'.row.value.phase == Terminal(d)
  {}

  /** What a call returns is what is stored when it returns: the terminal decision, or the phase that
      waits for an approval or a reconciliation. */
  lemma AnswerIsStored(x: Contract, actions: seq<Action>, p: nat, input: Input)
    requires var y := RunAll(x, actions);
             var l := LocalOf(y, p);
             var end := Next(x, y.shared, l, input).1.pc;
             !l.pc.Idle? && end.Idle? && end.decision.Some?
    ensures var y := RunAll(x, actions);
            var (s', l') := Next(x, y.shared, LocalOf(y, p), input);
            && s'.row.Some?
            && match l'.pc.decision.value
               case Waiting => s'.row.value.phase.AwaitingApproval? || s'.row.value.phase.ReconciliationRequired?
               case d => s'.row.value.phase == Terminal(d)
  {
    hide RunAll, Next;
    var y := RunAll(x, actions);
    if y.shared.row.Some? && y.shared.row.value.phase.Terminal? { var i := DecisionBehind(x, actions); }
    if LocalOf(y, p).pc.Ending? { var i := EndingBehind(x, actions, p); }
    ReturnsStored(x, y.shared, LocalOf(y, p), input);
  }

  /** A denial ends the run as escalated, and a demand for approval leaves it waiting for the intent,
      unless another controller moved on first; neither dispatches anything. */
  lemma RefusalEnds(x: Contract, s: Shared, l: Local, input: Input, later: Input)
    requires l.pc.Authorising? && l.checkpoint.Some? && input.gate != Granted
    ensures var (s1, l1) := Next(x, s, l, input);
            var (s2, l2) := Next(x, s1, l1, later);
            && s1 == s && s2.dispatched == s.dispatched && s2.granted == s.granted
            && (l2.pc == Idle(None) ==> s2 == s)
            && (l2.pc != Idle(None) ==>
                  && s2.row.Some?
                  && (input.gate == Denied ==> l2.pc == Idle(Some(Escalate)) && s2.row.value.phase == Terminal(Escalate))
                  && (input.gate == NeedsApproval ==> l2.pc == Idle(Some(Waiting)) && s2.row.value.phase == AwaitingApproval(l.pc.intent)))
  {}
}
