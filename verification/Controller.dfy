/** The controller as an object: each of its entry points takes steps of the phase machine. */
module Controller {
  import opened GraphSchema
  import opened RunState
  import opened ControllerProtocol
  import opened ControllerExecution

  /** Every effect sent since was granted by the gate in its iteration. */
  predicate SentGranted(before: seq<int>, after: seq<int>, env: int -> Input) {
    before <= after && forall i :: |before| <= i < |after| ==> env(after[i]).gate == Granted
  }

  class VerifiedController {
    const contract: Contract
    const run: string
    const store: SQLiteRunStateStore
    var toolCalls: nat
    var evidence: seq<Entry>
    var checkpoint: Option<Checkpoint>
    ghost var granted: seq<int>
    ghost var dispatched: seq<int>

    constructor (contract: Contract, run: string, store: SQLiteRunStateStore)
      ensures this.contract == contract && this.run == run && this.store == store
      ensures Mine(Idle(None)) == NEW
    {
      this.contract, this.run, this.store := contract, run, store;
      toolCalls, evidence, checkpoint, granted, dispatched := 0, [], None, [], [];
    }

    ghost function Ours(): Shared
      reads this, store
    {
      Shared(store.RowOf(run), granted, dispatched)
    }

    ghost function Mine(pc: Pc): Local
      reads this
    {
      Local(pc, Account(toolCalls, evidence), checkpoint)
    }

    /** What the call leaves behind on its answer. */
    ghost function Left(decision: Option<Decision>): Outcome
      reads this, store
    {
      Outcome(store.RowOf(run), granted, dispatched, Account(toolCalls, evidence), checkpoint, decision)
    }

    /** Writes the instance's counters under a phase. */
    method SaveCheckpoint(phase: Phase, next: int, ghost pc: Pc, ghost then_: Pc) returns (ok: bool)
      requires checkpoint.Some?
      modifies this`checkpoint, store
      ensures (Ours(), Mine(if ok then then_ else Idle(None))) == SaveAs(old(Ours()), old(Mine(pc)), phase, next, then_)
      ensures ok ==> checkpoint.Some?
    {
      hide Saved;
      ghost var s, l := Ours(), Mine(pc);
      var saved := store.Save(run, Checkpoint(phase, next, Account(toolCalls, evidence), checkpoint.value.revision));
      assert saved == Saved(s.row, Checkpoint(phase, next, l.account, l.checkpoint.value.revision));
      ok := saved.Some?;
      if ok { checkpoint := saved; }
      assert Ours() == if ok then s.(row := saved) else s;
    }

    method Finish(decision: Decision, ghost pc: Pc) returns (r: Option<Decision>)
      requires checkpoint.Some?
      modifies this`checkpoint, store
      ensures (Ours(), Mine(Idle(r))) ==
                SaveAs(old(Ours()), old(Mine(pc)), Terminal(decision), old(checkpoint.value.nextIteration), Idle(Some(decision)))
    {
      var ok := SaveCheckpoint(Terminal(decision), checkpoint.value.nextIteration, pc, Idle(Some(decision)));
      r := if ok then Some(decision) else None;
    }

    /** Reads or creates the checkpoint.  A decision ends the call, None with ok false raises. */
    method RestoreOrStart(env: int -> Input) returns (ok: bool, decision: Option<Decision>, ghost n: nat)
      modifies this, store
      ensures granted == old(granted) && dispatched == old(dispatched)
      ensures ok && decision.None? ==> checkpoint.Some?
      ensures Steps(contract, old(Ours()), old(Mine(Loading)), env, n) ==
                (Ours(), Mine(if ok && decision.None? then Looping(checkpoint.value.nextIteration) else Idle(decision)))
    {
      StepsOnce(contract, Ours(), Mine(Loading), env);
      StepsTwice(contract, Ours(), Mine(Loading), env);
      var row := store.Load(run);
      n := 1;
      if row.None? {
        var saved := store.Save(run, Checkpoint(Ready, 1, Account(0, evidence), 0));
        n := 2;
        if saved.None? { return false, None, n; }
        checkpoint := saved;
        return true, None, n;
      }
      var c := row.value;
      if c.nextIteration > contract.iterations + 1 { return false, None, n; }
      toolCalls, evidence, checkpoint := c.account.toolCalls, c.account.evidence, Some(c);
      match c.phase {
        case Terminal(d) => return true, Some(d), n;
        case PendingEffect(intent, operation) =>
          n := 2;
          ok := SaveCheckpoint(ReconciliationRequired(intent, operation), c.nextIteration, Blocking, Idle(Some(Waiting)));
          return ok, if ok then Some(Waiting) else None, n;
        case ReconciliationRequired(_, _) => return true, Some(Waiting), n;
        case _ => return true, None, n;
      }
    }

    /** Settles the intent of an iteration, recording a new one as pending authorisation. */
    method Intend(iteration: int, env: int -> Input) returns (ok: bool, intent: string, ghost n: nat)
      requires checkpoint.Some? && toolCalls < contract.calls && iteration <= contract.iterations
      requires !checkpoint.value.phase.ReconciledEffect?
      modifies this`checkpoint, store
      ensures ok ==> checkpoint.Some?
      ensures Steps(contract, old(Ours()), old(Mine(Looping(iteration))), env, n) ==
                (Ours(), Mine(if ok then Authorising(iteration, intent) else Idle(None)))
    {
      ghost var s, l := Ours(), Mine(Looping(iteration));
      var phase := checkpoint.value.phase;
      StepsOnce(contract, s, l, env);
      if phase.PendingAuthorization? || phase.AwaitingApproval? {
        return true, phase.intent, 1;
      }
      intent := env(iteration).intent;
      StepsTwice(contract, s, l, env);
      ok := SaveCheckpoint(PendingAuthorization(intent), iteration, Proposed(iteration, intent), Authorising(iteration, intent));
      n := 2;
    }

    /** Authorises an intent and, once its effect is recorded as pending, dispatches it. */
    method Dispatch(iteration: int, intent: string, env: int -> Input)
      returns (observation: Option<Observation>, decision: Option<Decision>, ghost n: nat)
      requires checkpoint.Some?
      modifies this, store
      ensures observation.Some? ==> checkpoint.Some?
      ensures SentGranted(old(dispatched), dispatched, env)
      ensures env(iteration).gate == Denied ==> observation.None? && decision in {None, Some(Escalate)}
      ensures env(iteration).gate == NeedsApproval ==> observation.None? && decision in {None, Some(Waiting)}
      ensures Steps(contract, old(Ours()), old(Mine(Authorising(iteration, intent))), env, n) ==
                (Ours(), Mine(if observation.Some? then Observed(iteration, intent, observation.value) else Idle(decision)))
    {
      ghost var s, l := Ours(), Mine(Authorising(iteration, intent));
      StepsTwice(contract, s, l, env);
      var input := env(iteration);
      if input.gate.NeedsApproval? {
        var ok := SaveCheckpoint(AwaitingApproval(intent), iteration, Holding(iteration, intent), Idle(Some(Waiting)));
        return None, if ok then Some(Waiting) else None, 2;
      }
      if input.gate.Denied? {
        decision := Finish(Escalate, Ending(Escalate));
        return None, decision, 2;
      }
      toolCalls := toolCalls + 1;
      var ok := SaveCheckpoint(PendingEffect(intent, contract.mint(iteration, intent)), iteration,
                               Preparing(iteration, intent), Dispatching(iteration, intent));
      if !ok { return None, None, 2; }
      granted := granted + [iteration];
      StepsMore(contract, s, l, env, 2);
      dispatched := dispatched + [iteration];
      return input.observation, None, 3;
    }

    /** Evaluates an outcome: the task is over, or the next iteration is recorded as ready. */
    method Conclude(iteration: int, intent: string, observation: Observation, env: int -> Input)
      returns (over: bool, decision: Option<Decision>, ghost n: nat)
      requires checkpoint.Some?
      modifies this`checkpoint, this`evidence, store
      ensures !over ==> checkpoint.Some?
      ensures Steps(contract, old(Ours()), old(Mine(Observed(iteration, intent, observation))), env, n) ==
                (Ours(), Mine(if over then Idle(decision) else Looping(iteration + 1)))
    {
      StepsTwice(contract, Ours(), Mine(Observed(iteration, intent, observation)), env);
      var input := env(iteration);
      n := 2;
      if observation.success { evidence := evidence + [Entry(iteration, intent)]; }
      if input.verdict.Done? && observation.success {
        decision := Finish(Accept, Ending(Accept));
        return true, decision, n;
      }
      if input.verdict.Hopeless? {
        decision := Finish(Escalate, Ending(Escalate));
        return true, decision, n;
      }
      var ok := SaveCheckpoint(Ready, iteration + 1, Finishing(iteration), Looping(iteration + 1));
      return !ok, None, n;
    }

    /** One iteration of the loop. */
    method Turn(iteration: int, env: int -> Input) returns (over: bool, decision: Option<Decision>, ghost n: nat)
      requires checkpoint.Some? && iteration <= contract.iterations
      modifies this, store
      ensures SentGranted(old(dispatched), dispatched, env)
      ensures !over ==> checkpoint.Some?
      ensures Steps(contract, old(Ours()), old(Mine(Looping(iteration))), env, n) ==
                (Ours(), Mine(if over then Idle(decision) else Looping(iteration + 1)))
    {
      hide SaveAs, Steps;
      ghost var s, l, k := Ours(), Mine(Looping(iteration)), 0;
      if toolCalls >= contract.calls {
        StepsTwice(contract, s, l, env);
        decision := Finish(Stop, Ending(Stop));
        return true, decision, 2;
      }
      var intent, observation;
      if checkpoint.value.phase.ReconciledEffect? {
        StepsOnce(contract, s, l, env);
        n := 1;
        intent, observation := checkpoint.value.phase.intent, checkpoint.value.phase.observation;
      } else {
        var ok;
        ok, intent, n := Intend(iteration, env);
        if !ok { return true, None, n; }
        var result;
        result, decision, k := Dispatch(iteration, intent, env);
        StepsAdd(contract, s, l, env, n, k);
        n := n + k;
        if result.None? { return true, decision, n; }
        observation := result.value;
      }
      over, decision, k := Conclude(iteration, intent, observation, env);
      StepsAdd(contract, s, l, env, n, k);
      n := n + k;
    }

    /** Runs until a decision; the ghost result is how many steps of the machine that took. */
    method Run(env: int -> Input) returns (decision: Option<Decision>, ghost n: nat)
      modifies this, store
      ensures SentGranted(old(dispatched), dispatched, env)
      ensures Steps(contract, old(Ours()), old(Mine(Loading)), env, n) == (Ours(), Mine(Idle(decision)))
      ensures Left(decision) == Execution(contract, old(Ours()), old(Mine(Loading)), env)
    {
      hide SaveAs, Steps;
      ghost var s, l := Ours(), Mine(Loading);
      var ok;
      ok, decision, n := RestoreOrStart(env);
      if !ok || decision.Some? {
        ExecutionTaken(contract, s, l, env, n, Left(decision));
        return;
      }
      var iteration := checkpoint.value.nextIteration;
      while iteration <= contract.iterations
        invariant checkpoint.Some? && SentGranted(old(dispatched), dispatched, env)
        invariant Steps(contract, s, l, env, n) == (Ours(), Mine(Looping(iteration)))
        decreases contract.iterations - iteration
      {
        var over;
        ghost var k;
        over, decision, k := Turn(iteration, env);
        StepsAdd(contract, s, l, env, n, k);
        n := n + k;
        if over {
          ExecutionTaken(contract, s, l, env, n, Left(decision));
          return;
        }
        iteration := iteration + 1;
      }
      StepsTwice(contract, Ours(), Mine(Looping(iteration)), env);
      StepsAdd(contract, s, l, env, n, 2);
      decision := Finish(Stop, Ending(Stop));
      n := n + 2;
      ExecutionTaken(contract, s, l, env, n, Left(decision));
    }

    /** Asks the reconciler for the outcome of a blocked effect, stores it, and runs on.
        The instance's own counters are stored with it. */
    method ReconcileEffect(env: int -> Input) returns (decision: Option<Decision>, ghost n: nat)
      modifies this, store
      ensures SentGranted(old(dispatched), dispatched, env)
      ensures Steps(contract, old(Ours()), old(Mine(Reconciling)), env, n) == (Ours(), Mine(Idle(decision)))
      ensures Left(decision) == Reconciliation(contract, old(Ours()), old(Mine(Reconciling)), env)
    {
      hide SaveAs, Steps;
      ghost var s, l := Ours(), Mine(Reconciling);
      StepsOnce(contract, s, l, env);
      var answer := env(0).observation;
      var row := store.Load(run);
      if row.None? || !row.value.phase.ReconciliationRequired? || answer.None?
         || answer.value.operation != row.value.phase.operation {
        ReconciliationTaken(contract, s, l, env, 1, Left(None));
        return None, 1;
      }
      var phase := row.value.phase;
      checkpoint := row;
      StepsTwice(contract, s, l, env);
      var ok := SaveCheckpoint(ReconciledEffect(phase.intent, phase.operation, answer.value), row.value.nextIteration,
                               Attested(phase.intent, phase.operation, answer.value), Loading);
      if !ok {
        ReconciliationTaken(contract, s, l, env, 2, Left(None));
        return None, 2;
      }
      ghost var k;
      decision, k := Run(env);
      StepsAdd(contract, s, l, env, 2, k);
      n := 2 + k;
      ReconciliationTaken(contract, s, l, env, n, Left(decision));
    }

    /** Restores the counters and ends the run. */
    method CancelRun(env: int -> Input) returns (decision: Option<Decision>, ghost n: nat)
      modifies this, store
      ensures dispatched == old(dispatched)
      ensures Steps(contract, old(Ours()), old(Mine(Cancelling)), env, n) == (Ours(), Mine(Idle(decision)))
      ensures Left(decision) == Cancellation(old(Ours()), old(Mine(Cancelling)))
    {
      hide SaveAs, Steps;
      ghost var s, l := Ours(), Mine(Cancelling);
      StepsTwice(contract, Ours(), Mine(Cancelling), env);
      StepsOnce(contract, Ours(), Mine(Cancelling), env);
      var row := store.Load(run);
      if row.None? {
        CancellationTaken(contract, s, l, env, 1, Left(None));
        return None, 1;
      }
      toolCalls, evidence, checkpoint := row.value.account.toolCalls, row.value.account.evidence, row;
      decision := Finish(Stop, Ending(Stop));
      n := 2;
      CancellationTaken(contract, s, l, env, n, Left(decision));
    }
  }

  /** A controller left alone is one of the interleavings. */
  lemma {:induction false} StepsAreRun(x: Contract, front: seq<Action>, p: nat,
                                       env: int -> Input, n: nat) returns (more: seq<Action>)
    requires p in RunAll(x, front).locals
    ensures var y := RunAll(x, front);
            var end := Steps(x, y.shared, y.locals[p], env, n);
            RunAll(x, front + more) == System(end.0, y.locals[p := end.1])
  {
    hide Next;
    var y := RunAll(x, front);
    if n == 0 {
      more := [];
      assert front + more == front && y.locals[p := y.locals[p]] == y.locals;
    } else {
      var rest := StepsAreRun(x, front, p, env, n - 1);
      var end := Steps(x, y.shared, y.locals[p], env, n - 1);
      more := rest + [Proceed(p, env(IterationOf(end.1.pc)))];
      assert (front + more)[..|front + more| - 1] == front + rest;
      var l' := Steps(x, y.shared, y.locals[p], env, n).1;
      assert y.locals[p := end.1][p := l'] == y.locals[p := l'];
    }
  }

  function OutcomeOf(x: Contract, s: Shared, l: Local, entrance: Entrance, env: int -> Input): Outcome {
    match entrance
    case Run => Execution(x, s, l, env)
    case ReconcileEffect => Reconciliation(x, s, l, env)
    case CancelRun => Cancellation(s, l)
  }

  lemma OutcomeLeads(x: Contract, s: Shared, l: Local, entrance: Entrance, env: int -> Input)
    ensures Leads(x, s, l.(pc := EntryOf(entrance)), env, OutcomeOf(x, s, l, entrance, env))
  {
    hide Leads, Steps;
    var entered := l.(pc := EntryOf(entrance));
    match entrance
    case Run => { ExecutionLeads(x, s, entered, env); ExecutionSame(x, s, l, entered, env); }
    case ReconcileEffect => { ReconciliationLeads(x, s, entered, env); }
    case CancelRun => { CancellationLeads(x, s, entered, env); }
  }

  /** After any interleaving, a call of an idle instance that nobody disturbs ends as written out; while
      an instance is busy, calling it changes nothing. */
  lemma CallIsRun(x: Contract, front: seq<Action>, p: nat, entrance: Entrance, env: int -> Input) returns (more: seq<Action>)
    ensures var (y, l) := (RunAll(x, front), LocalOf(RunAll(x, front), p));
            if l.pc.Idle? then
              var o := OutcomeOf(x, y.shared, l, entrance, env);
              RunAll(x, front + [Call(p, entrance)] + more) == System(o.Sent(), y.locals[p := o.Instance()])
            else RunAll(x, front + [Call(p, entrance)]) == y
  {
    hide OutcomeOf, Steps, RunAll;
    var y, l := RunAll(x, front), LocalOf(RunAll(x, front), p);
    var called := front + [Call(p, entrance)];
    more := [];
    CallEnters(x, front, p, entrance);
    if l.pc.Idle? {
      var entered := l.(pc := EntryOf(entrance));
      OutcomeLeads(x, y.shared, l, entrance, env);
      var o := OutcomeOf(x, y.shared, l, entrance, env);
      var n: nat :| Steps(x, y.shared, entered, env, n) == (o.Sent(), o.Instance());
      more := StepsAreRun(x, called, p, env, n);
      assert y.locals[p := entered][p := o.Instance()] == y.locals[p := o.Instance()];
    }
  }

  lemma CallEnters(x: Contract, front: seq<Action>, p: nat, entrance: Entrance)
    ensures var (y, l) := (RunAll(x, front), LocalOf(RunAll(x, front), p));
            RunAll(x, front + [Call(p, entrance)])
              == if l.pc.Idle? then System(y.shared, y.locals[p := l.(pc := EntryOf(entrance))]) else y
  {
    assert (front + [Call(p, entrance)])[..|front|] == front;
  }

  /** What stops an instance: a failure keeps its counters and its copy, a crash loses them, and neither
      touches the stored row, what was sent, or another instance. */
  lemma StopLeaves(x: Contract, front: seq<Action>, p: nat)
    ensures var (y, l) := (RunAll(x, front), LocalOf(RunAll(x, front), p));
            var (raised, crashed) := (RunAll(x, front + [Raise(p)]), RunAll(x, front + [Crash(p)]));
            && raised.shared == crashed.shared == y.shared
            && LocalOf(raised, p) == Local(Idle(None), l.account, l.checkpoint)
            && LocalOf(crashed, p) == Local(Idle(None), Account(0, []), None)
            && forall q :: q != p ==> LocalOf(raised, q) == LocalOf(crashed, q) == LocalOf(y, q)
  {
    assert (front + [Raise(p)])[..|front|] == (front + [Crash(p)])[..|front|] == front;
  }
}
