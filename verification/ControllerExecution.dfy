/** One controller left undisturbed: its steps composed, and the whole call in one stroke, written out
    without the machine's places and steps. */
module ControllerExecution {
  import opened GraphSchema
  import opened RunState
  import opened ControllerProtocol

  /** The iteration a controller is in, whose answers it reads. */
  function IterationOf(pc: Pc): int {
    match pc
    case Looping(it) => it
    case Proposed(it, _) => it
    case Authorising(it, _) => it
    case Holding(it, _) => it
    case Preparing(it, _) => it
    case Dispatching(it, _) => it
    case Observed(it, _, _) => it
    case Finishing(it) => it
    case _ => 0
  }

  /** n steps of one controller while nobody else moves. */
  function Steps(x: Contract, s: Shared, l: Local, env: int -> Input, n: nat): (Shared, Local) {
    if n == 0 then (s, l)
    else
      var (s', l') := Steps(x, s, l, env, n - 1);
      Next(x, s', l', env(IterationOf(l'.pc)))
  }

  lemma StepsOnce(x: Contract, s: Shared, l: Local, env: int -> Input)
    ensures Steps(x, s, l, env, 1) == Next(x, s, l, env(IterationOf(l.pc)))
  {
    assert Steps(x, s, l, env, 0) == (s, l);
  }

  lemma StepsMore(x: Contract, s: Shared, l: Local, env: int -> Input, n: nat)
    ensures var (s', l') := Steps(x, s, l, env, n);
            Steps(x, s, l, env, n + 1) == Next(x, s', l', env(IterationOf(l'.pc)))
  {}

  lemma StepsTwice(x: Contract, s: Shared, l: Local, env: int -> Input)
    ensures var (s', l') := Next(x, s, l, env(IterationOf(l.pc)));
            Steps(x, s, l, env, 2) == Next(x, s', l', env(IterationOf(l'.pc)))
  {
    hide Next;
    StepsOnce(x, s, l, env);
    StepsMore(x, s, l, env, 1);
  }

  /** Steps compose. */
  lemma {:induction false} StepsAdd(x: Contract, s: Shared, l: Local, env: int -> Input, n: nat, k: nat)
    ensures var (s', l') := Steps(x, s, l, env, n);
            Steps(x, s, l, env, n + k) == Steps(x, s', l', env, k)
  {
    hide Next;
    if k > 0 { StepsAdd(x, s, l, env, n, k - 1); }
  }


  // ---- the call in one stroke ----

  /** What a call leaves behind: the stored row, what was recorded as pending and what was sent, the
      instance's own counters and copy, and the answer, None where it raises. */
  datatype Outcome = Outcome(row: Option<Checkpoint>, granted: seq<int>, dispatched: seq<int>,
                             account: Account, checkpoint: Option<Checkpoint>, decision: Option<Decision>)
  {
    function Sent(): Shared {
      Shared(row, granted, dispatched)
    }

    function Instance(): Local {
      Local(Idle(decision), account, checkpoint)
    }
  }

  /** The iterations recorded as pending, and those sent. */
  datatype Log = Log(granted: seq<int>, dispatched: seq<int>) {
    function With(c: Checkpoint): Shared {
      Shared(Some(c), granted, dispatched)
    }
  }

  /** The checkpoint after it is saved once more. */
  function Resaved(c: Checkpoint, phase: Phase, next: int, account: Account): Checkpoint {
    Checkpoint(phase, next, account, c.revision + 1)
  }

  /** The call ends with its instance's counters and the checkpoint it last saved. */
  function Ends(log: Log, account: Account, c: Checkpoint, decision: Option<Decision>): Outcome {
    Outcome(Some(c), log.granted, log.dispatched, account, Some(c), decision)
  }

  function Decided(log: Log, account: Account, c: Checkpoint, decision: Decision): Outcome {
    Ends(log, account, Resaved(c, Terminal(decision), c.nextIteration, account), Some(decision))
  }

  /** The loop from an iteration on, with the instance's counters and the stored checkpoint. */
  function Loop(x: Contract, log: Log, account: Account, c: Checkpoint, it: int, env: int -> Input): Outcome
    decreases x.iterations + 1 - it, 3
  {
    if it > x.iterations || account.toolCalls >= x.calls then Decided(log, account, c, Stop)
    else match c.phase
      case ReconciledEffect(intent, _, observation) => Judge(x, log, account, c, it, intent, observation, env)
      case PendingAuthorization(intent) => Authorise(x, log, account, c, it, intent, env)
      case AwaitingApproval(intent) => Authorise(x, log, account, c, it, intent, env)
      case _ =>
        var intent := env(it).intent;
        Authorise(x, log, account, Resaved(c, PendingAuthorization(intent), it, account), it, intent, env)
  }

  /** The gate answers: the run ends, waits, or the effect is recorded as pending and then sent. */
  function Authorise(x: Contract, log: Log, account: Account, c: Checkpoint, it: int, intent: string, env: int -> Input): Outcome
    requires it <= x.iterations
    decreases x.iterations + 1 - it, 2
  {
    match env(it).gate
    case Denied => Decided(log, account, c, Escalate)
    case NeedsApproval => Ends(log, account, Resaved(c, AwaitingApproval(intent), it, account), Some(Waiting))
    case Granted =>
      var spent := Account(account.toolCalls + 1, account.evidence);
      var pending := Resaved(c, PendingEffect(intent, x.mint(it, intent)), it, spent);
      var sent := Log(log.granted + [it], log.dispatched + [it]);
      match env(it).observation
      case None => Ends(sent, spent, pending, None)
      case Some(observation) => Judge(x, sent, spent, pending, it, intent, observation, env)
  }

  /** The outcome is evaluated: a success is evidence, and accepted if the task is done. */
  function Judge(x: Contract, log: Log, account: Account, c: Checkpoint, it: int, intent: string,
                 observation: Observation, env: int -> Input): Outcome
    requires it <= x.iterations
    decreases x.iterations + 1 - it, 1
  {
    var gained := Account(account.toolCalls, account.evidence + if observation.success then [Entry(it, intent)] else []);
    match env(it).verdict
    case Done => if observation.success then Decided(log, gained, c, Accept) else Onwards(x, log, gained, c, it, env)
    case Hopeless => Decided(log, gained, c, Escalate)
    case Progress => Onwards(x, log, gained, c, it, env)
  }

  /** The next iteration is recorded as ready. */
  function Onwards(x: Contract, log: Log, account: Account, c: Checkpoint, it: int, env: int -> Input): Outcome
    requires it <= x.iterations
    decreases x.iterations + 1 - it, 0
  {
    Loop(x, log, account, Resaved(c, Ready, it + 1, account), it + 1, env)
  }

  /** A run: the stored checkpoint decides where it goes on, if it goes on at all. */
  function Execution(x: Contract, s: Shared, l: Local, env: int -> Input): Outcome {
    var log := Log(s.granted, s.dispatched);
    match s.row
    case None => Loop(x, log, l.account, Checkpoint(Ready, 1, Account(0, l.account.evidence), 1), 1, env)
    case Some(c) =>
      if c.nextIteration > x.iterations + 1 then Outcome(s.row, s.granted, s.dispatched, l.account, l.checkpoint, None)
      else match c.phase
        case Terminal(decision) => Ends(log, c.account, c, Some(decision))
        case ReconciliationRequired(_, _) => Ends(log, c.account, c, Some(Waiting))
        case PendingEffect(intent, operation) =>
          Ends(log, c.account, Resaved(c, ReconciliationRequired(intent, operation), c.nextIteration, c.account), Some(Waiting))
        case _ => Loop(x, log, c.account, c, c.nextIteration, env)
  }

  /** A reconciliation: an answer to the blocked operation is stored with the instance's own counters,
      and the run goes on; anything else raises. */
  function Reconciliation(x: Contract, s: Shared, l: Local, env: int -> Input): Outcome {
    match s.row
    case Some(Checkpoint(ReconciliationRequired(intent, operation), next, _, revision)) =>
      (match env(0).observation
       case Some(Observation(answered, success)) =>
         if answered == operation then
           var c := Checkpoint(ReconciledEffect(intent, operation, Observation(operation, success)), next, l.account, revision + 1);
           Execution(x, s.(row := Some(c)), Local(Idle(None), l.account, Some(c)), env)
         else Outcome(s.row, s.granted, s.dispatched, l.account, l.checkpoint, None)
       case None => Outcome(s.row, s.granted, s.dispatched, l.account, l.checkpoint, None))
    case _ => Outcome(s.row, s.granted, s.dispatched, l.account, l.checkpoint, None)
  }

  function Cancellation(s: Shared, l: Local): Outcome {
    match s.row
    case None => Outcome(None, s.granted, s.dispatched, l.account, l.checkpoint, None)
    case Some(c) => Decided(Log(s.granted, s.dispatched), c.account, c, Stop)
  }

  // ---- the steps get there ----

  ghost predicate Leads(x: Contract, s: Shared, l: Local, env: int -> Input, o: Outcome) {
    exists n: nat :: Steps(x, s, l, env, n) == (o.Sent(), o.Instance())
  }

  lemma LeadsOn(x: Contract, s: Shared, l: Local, env: int -> Input, o: Outcome)
    requires var (s', l') := Next(x, s, l, env(IterationOf(l.pc))); Leads(x, s', l', env, o)
    ensures Leads(x, s, l, env, o)
  {
    hide Next;
    var (s', l') := Next(x, s, l, env(IterationOf(l.pc)));
    var n: nat :| Steps(x, s', l', env, n) == (o.Sent(), o.Instance());
    StepsOnce(x, s, l, env);
    StepsAdd(x, s, l, env, 1, n);
  }

  lemma LeadsThere(x: Contract, s: Shared, l: Local, env: int -> Input, o: Outcome)
    requires (s, l) == (o.Sent(), o.Instance())
    ensures Leads(x, s, l, env, o)
  {
    hide Next;
    assert Steps(x, s, l, env, 0) == (s, l);
  }

  /** A save by whoever holds the current checkpoint succeeds. */
  lemma SaveSucceeds(s: Shared, l: Local, c: Checkpoint, phase: Phase, next: int, then_: Pc)
    requires s.row == Some(c) && l.checkpoint == Some(c)
    ensures var saved := Resaved(c, phase, next, l.account);
            SaveAs(s, l, phase, next, then_) == (s.(row := Some(saved)), Local(then_, l.account, Some(saved)))
  {}

  lemma EndingLeads(x: Contract, log: Log, account: Account, c: Checkpoint, decision: Decision, env: int -> Input)
    ensures Leads(x, log.With(c), Local(Ending(decision), account, Some(c)), env, Decided(log, account, c, decision))
  {
    hide SaveAs, Leads;
    var l, o := Local(Ending(decision), account, Some(c)), Decided(log, account, c, decision);
    SaveSucceeds(log.With(c), l, c, Terminal(decision), c.nextIteration, Idle(Some(decision)));
    LeadsThere(x, o.Sent(), o.Instance(), env, o);
    LeadsOn(x, log.With(c), l, env, o);
  }

  lemma LoopLeads(x: Contract, log: Log, account: Account, c: Checkpoint, it: int, env: int -> Input)
    ensures Leads(x, log.With(c), Local(Looping(it), account, Some(c)), env, Loop(x, log, account, c, it, env))
    decreases x.iterations + 1 - it, 3
  {
    hide SaveAs, Leads;
    var l, o := Local(Looping(it), account, Some(c)), Loop(x, log, account, c, it, env);
    if it > x.iterations || account.toolCalls >= x.calls {
      EndingLeads(x, log, account, c, Stop, env);
    } else {
      match c.phase
      case ReconciledEffect(intent, _, observation) => { JudgeLeads(x, log, account, c, it, intent, observation, env); }
      case PendingAuthorization(intent) => { AuthoriseLeads(x, log, account, c, it, intent, env); }
      case AwaitingApproval(intent) => { AuthoriseLeads(x, log, account, c, it, intent, env); }
      case _ => {
        var intent := env(it).intent;
        var proposed := Local(Proposed(it, intent), account, Some(c));
        SaveSucceeds(log.With(c), proposed, c, PendingAuthorization(intent), it, Authorising(it, intent));
        var saved := Resaved(c, PendingAuthorization(intent), it, account);
        AuthoriseLeads(x, log, account, saved, it, intent, env);
        LeadsOn(x, log.With(c), proposed, env, o);
      }
    }
    LeadsOn(x, log.With(c), l, env, o);
  }

  lemma AuthoriseLeads(x: Contract, log: Log, account: Account, c: Checkpoint, it: int, intent: string, env: int -> Input)
    requires it <= x.iterations
    ensures Leads(x, log.With(c), Local(Authorising(it, intent), account, Some(c)), env, Authorise(x, log, account, c, it, intent, env))
    decreases x.iterations + 1 - it, 2
  {
    hide SaveAs, Leads, Loop, Judge;
    var l, o := Local(Authorising(it, intent), account, Some(c)), Authorise(x, log, account, c, it, intent, env);
    match env(it).gate {
      case Denied => { EndingLeads(x, log, account, c, Escalate, env); }
      case NeedsApproval => {
        var holding := Local(Holding(it, intent), account, Some(c));
        SaveSucceeds(log.With(c), holding, c, AwaitingApproval(intent), it, Idle(Some(Waiting)));
        LeadsThere(x, o.Sent(), o.Instance(), env, o);
        LeadsOn(x, log.With(c), holding, env, o);
      }
      case Granted => {
        var spent := Account(account.toolCalls + 1, account.evidence);
        var preparing := Local(Preparing(it, intent), spent, Some(c));
        SaveSucceeds(log.With(c), preparing, c, PendingEffect(intent, x.mint(it, intent)), it, Dispatching(it, intent));
        var pending := Resaved(c, PendingEffect(intent, x.mint(it, intent)), it, spent);
        DispatchLeads(x, Log(log.granted + [it], log.dispatched), spent, pending, it, intent, env, o);
        LeadsOn(x, log.With(c), preparing, env, o);
      }
    }
    LeadsOn(x, log.With(c), l, env, o);
  }

  lemma DispatchLeads(x: Contract, log: Log, account: Account, c: Checkpoint, it: int, intent: string, env: int -> Input, o: Outcome)
    requires it <= x.iterations
    requires var sent := Log(log.granted, log.dispatched + [it]);
             o == match env(it).observation
                  case None => Ends(sent, account, c, None)
                  case Some(observation) => Judge(x, sent, account, c, it, intent, observation, env)
    ensures Leads(x, log.With(c), Local(Dispatching(it, intent), account, Some(c)), env, o)
    decreases x.iterations + 1 - it, 1, 1
  {
    hide SaveAs, Leads, Loop, Judge;
    var sent := Log(log.granted, log.dispatched + [it]);
    match env(it).observation {
      case None => { LeadsThere(x, o.Sent(), o.Instance(), env, o); }
      case Some(observation) => { JudgeLeads(x, sent, account, c, it, intent, observation, env); }
    }
    LeadsOn(x, log.With(c), Local(Dispatching(it, intent), account, Some(c)), env, o);
  }

  lemma JudgeLeads(x: Contract, log: Log, account: Account, c: Checkpoint, it: int, intent: string,
                   observation: Observation, env: int -> Input)
    requires it <= x.iterations
    ensures Leads(x, log.With(c), Local(Observed(it, intent, observation), account, Some(c)), env,
                  Judge(x, log, account, c, it, intent, observation, env))
    decreases x.iterations + 1 - it, 1, 0
  {
    hide SaveAs, Leads, Loop;
    var l, o := Local(Observed(it, intent, observation), account, Some(c)), Judge(x, log, account, c, it, intent, observation, env);
    var gained := Account(account.toolCalls, account.evidence + if observation.success then [Entry(it, intent)] else []);
    assert !observation.success ==> gained == account;
    if env(it).verdict.Done? && observation.success {
      EndingLeads(x, log, gained, c, Accept, env);
    } else if env(it).verdict.Hopeless? {
      EndingLeads(x, log, gained, c, Escalate, env);
    } else {
      var finishing := Local(Finishing(it), gained, Some(c));
      SaveSucceeds(log.With(c), finishing, c, Ready, it + 1, Looping(it + 1));
      var saved := Resaved(c, Ready, it + 1, gained);
      LoopLeads(x, log, gained, saved, it + 1, env);
      assert o == Onwards(x, log, gained, c, it, env);
      LeadsOn(x, log.With(c), finishing, env, o);
    }
    LeadsOn(x, log.With(c), l, env, o);
  }

  /** A run does what is written out above. */
  lemma ExecutionLeads(x: Contract, s: Shared, l: Local, env: int -> Input)
    requires l.pc.Loading?
    ensures Leads(x, s, l, env, Execution(x, s, l, env))
  {
    hide SaveAs, Leads, Loop;
    var o, log := Execution(x, s, l, env), Log(s.granted, s.dispatched);
    if s.row.None? {
      var c := Checkpoint(Ready, 1, Account(0, l.account.evidence), 1);
      LoopLeads(x, log, l.account, c, 1, env);
      LeadsOn(x, s, l.(pc := Creating), env, o);
    } else {
      var c := s.row.value;
      if c.nextIteration > x.iterations + 1 || c.phase.Terminal? || c.phase.ReconciliationRequired? {
        LeadsThere(x, o.Sent(), o.Instance(), env, o);
      } else if c.phase.PendingEffect? {
        var blocking := Restored(c, Blocking);
        SaveSucceeds(s, blocking, c, ReconciliationRequired(c.phase.intent, c.phase.operation), c.nextIteration, Idle(Some(Waiting)));
        LeadsThere(x, o.Sent(), o.Instance(), env, o);
        LeadsOn(x, s, blocking, env, o);
      } else {
        LoopLeads(x, log, c.account, c, c.nextIteration, env);
      }
    }
    LeadsOn(x, s, l, env, o);
  }

  lemma ReconciliationLeads(x: Contract, s: Shared, l: Local, env: int -> Input)
    requires l.pc.Reconciling?
    ensures Leads(x, s, l, env, Reconciliation(x, s, l, env))
  {
    hide SaveAs, Leads, Execution;
    var o := Reconciliation(x, s, l, env);
    var answer := env(0).observation;
    if s.row.None? || !s.row.value.phase.ReconciliationRequired? || answer.None? || answer.value.operation != s.row.value.phase.operation {
      LeadsThere(x, o.Sent(), o.Instance(), env, o);
    } else {
      var before := s.row.value;
      var (intent, operation) := (before.phase.intent, before.phase.operation);
      var attested := Local(Attested(intent, operation, answer.value), l.account, s.row);
      var phase := ReconciledEffect(intent, operation, answer.value);
      SaveSucceeds(s, attested, before, phase, before.nextIteration, Loading);
      var c := Resaved(before, phase, before.nextIteration, l.account);
      ExecutionLeads(x, s.(row := Some(c)), Local(Loading, l.account, Some(c)), env);
      ExecutionSame(x, s.(row := Some(c)), Local(Loading, l.account, Some(c)), Local(Idle(None), l.account, Some(c)), env);
      LeadsOn(x, s, attested, env, o);
    }
    LeadsOn(x, s, l, env, o);
  }

  lemma ExecutionSame(x: Contract, s: Shared, l: Local, k: Local, env: int -> Input)
    requires l.account == k.account && l.checkpoint == k.checkpoint
    ensures Execution(x, s, l, env) == Execution(x, s, k, env)
  {}

  lemma CancellationLeads(x: Contract, s: Shared, l: Local, env: int -> Input)
    requires l.pc.Cancelling?
    ensures Leads(x, s, l, env, Cancellation(s, l))
  {
    hide SaveAs, Leads;
    var o := Cancellation(s, l);
    if s.row.None? {
      LeadsThere(x, o.Sent(), o.Instance(), env, o);
    } else {
      EndingLeads(x, Log(s.granted, s.dispatched), s.row.value.account, s.row.value, Stop, env);
    }
    LeadsOn(x, s, l, env, o);
  }

  lemma {:induction false} IdleStays(x: Contract, s: Shared, l: Local, env: int -> Input, n: nat)
    requires l.pc.Idle?
    ensures Steps(x, s, l, env, n) == (s, l)
  {
    if n > 0 { IdleStays(x, s, l, env, n - 1); }
  }

  /** A call that has ended has led where it leads. */
  lemma LeadsOnce(x: Contract, s: Shared, l: Local, env: int -> Input, n: nat, o: Outcome)
    requires Leads(x, s, l, env, o) && Steps(x, s, l, env, n).1.pc.Idle?
    ensures Steps(x, s, l, env, n) == (o.Sent(), o.Instance())
  {
    hide Next;
    var m: nat :| Steps(x, s, l, env, m) == (o.Sent(), o.Instance());
    var (s1, l1) := Steps(x, s, l, env, n);
    if m <= n {
      StepsAdd(x, s, l, env, m, n - m);
      IdleStays(x, o.Sent(), o.Instance(), env, n - m);
    } else {
      StepsAdd(x, s, l, env, n, m - n);
      IdleStays(x, s1, l1, env, m - n);
    }
  }

  lemma ExecutionTaken(x: Contract, s: Shared, l: Local, env: int -> Input, n: nat, o: Outcome)
    requires l.pc.Loading? && Steps(x, s, l, env, n) == (o.Sent(), o.Instance())
    ensures o == Execution(x, s, l, env)
  {
    hide Execution, Steps, Leads;
    ExecutionLeads(x, s, l, env);
    LeadsOnce(x, s, l, env, n, Execution(x, s, l, env));
  }

  lemma ReconciliationTaken(x: Contract, s: Shared, l: Local, env: int -> Input, n: nat, o: Outcome)
    requires l.pc.Reconciling? && Steps(x, s, l, env, n) == (o.Sent(), o.Instance())
    ensures o == Reconciliation(x, s, l, env)
  {
    hide Reconciliation, Steps, Leads;
    ReconciliationLeads(x, s, l, env);
    LeadsOnce(x, s, l, env, n, Reconciliation(x, s, l, env));
  }

  lemma CancellationTaken(x: Contract, s: Shared, l: Local, env: int -> Input, n: nat, o: Outcome)
    requires l.pc.Cancelling? && Steps(x, s, l, env, n) == (o.Sent(), o.Instance())
    ensures o == Cancellation(s, l)
  {
    hide Cancellation, Steps, Leads;
    CancellationLeads(x, s, l, env);
    LeadsOnce(x, s, l, env, n, Cancellation(s, l));
  }
}
