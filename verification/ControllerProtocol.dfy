/** The controller's phase machine, as small steps that many controllers of one run interleave.
    Loads and saves of the checkpoint are separate steps; any step may fail or be the last. */
module ControllerProtocol {
  import opened GraphSchema
  import opened RunState

  /** The contract's budgets, and the digest that names an operation by iteration and intent. */
  datatype Contract = Contract(iterations: int, calls: int, mint: (int, string) -> string)

  datatype Gate = Granted | NeedsApproval | Denied

  datatype Verdict = Done | Progress | Hopeless

  /** What the planner, the gate, the executor, the verifiers and the reconciler answer. */
  datatype Input = Input(intent: string, gate: Gate, observation: Option<Observation>, verdict: Verdict)

  datatype Pc =
    | Idle(decision: Option<Decision>)
    | Loading | Creating | Blocking
    | Looping(it: int)
    | Proposed(it: int, intent: string)
    | Authorising(it: int, intent: string)
    | Holding(it: int, intent: string)
    | Preparing(it: int, intent: string)
    | Dispatching(it: int, intent: string)
    | Observed(it: int, intent: string, observation: Observation)
    | Finishing(it: int)
    | Ending(outcome: Decision)
    | Reconciling
    | Attested(intent: string, operation: string, observation: Observation)
    | Cancelling

  /** A controller instance: its own counters and its copy of the checkpoint. */
  datatype Local = Local(pc: Pc, account: Account, checkpoint: Option<Checkpoint>)

  /** The stored row; the iterations for which an effect was recorded as pending, and those whose
      effect was dispatched, in order. */
  datatype Shared = Shared(row: Option<Checkpoint>, granted: seq<int>, dispatched: seq<int>)

  const NEW: Local := Local(Idle(None), NEW_ACCOUNT, None)

  function Failed(l: Local): Local {
    l.(pc := Idle(None))
  }

  /** Writes the instance's counters under a phase; a conflict raises. */
  function SaveAs(s: Shared, l: Local, phase: Phase, next: int, then_: Pc): (Shared, Local)
    requires l.checkpoint.Some?
  {
    var saved := Saved(s.row, Checkpoint(phase, next, l.account, l.checkpoint.value.revision));
    if saved.None? then (s, Failed(l))
    else (s.(row := saved), Local(then_, l.account, saved))
  }

  function Restored(c: Checkpoint, pc: Pc): Local {
    Local(pc, c.account, Some(c))
  }

  /** The step of run() after the checkpoint is read. */
  function Resume(x: Contract, l: Local, row: Option<Checkpoint>): Local {
    if row.None? then l.(pc := Creating)
    else
      var c := row.value;
      if c.nextIteration > x.iterations + 1 then Failed(l)
      else match c.phase
        case Terminal(d) => Restored(c, Idle(Some(d)))
        case PendingEffect(_, _) => Restored(c, Blocking)
        case ReconciliationRequired(_, _) => Restored(c, Idle(Some(Waiting)))
        case _ => Restored(c, Looping(c.nextIteration))
  }

  /** The top of the loop: budgets first, then where the checkpoint left off. */
  function Begin(x: Contract, l: Local, it: int, input: Input): Local
    requires l.checkpoint.Some?
  {
    if it > x.iterations || l.account.toolCalls >= x.calls then l.(pc := Ending(Stop))
    else match l.checkpoint.value.phase
      case ReconciledEffect(intent, _, observation) => l.(pc := Observed(it, intent, observation))
      case PendingAuthorization(intent) => l.(pc := Authorising(it, intent))
      case AwaitingApproval(intent) => l.(pc := Authorising(it, intent))
      case _ => l.(pc := Proposed(it, input.intent))
  }

  /** Only a successful outcome enters the evidence, and only one can end in acceptance. */
  function Evaluate(l: Local, it: int, intent: string, observation: Observation, verdict: Verdict): Local {
    var account := if observation.success
                   then l.account.(evidence := l.account.evidence + [Entry(it, intent)]) else l.account;
    Local(if verdict.Done? && observation.success then Ending(Accept)
          else if verdict.Hopeless? then Ending(Escalate)
          else Finishing(it),
          account, l.checkpoint)
  }

  /** The reconciler's answer must be bound to the prepared operation.  The instance's counters
      are not restored from the checkpoint it read. */
  function Attest(l: Local, row: Option<Checkpoint>, input: Input): Local {
    if row.None? || !row.value.phase.ReconciliationRequired? || input.observation.None?
       || input.observation.value.operation != row.value.phase.operation
    then Failed(l)
    else Local(Attested(row.value.phase.intent, row.value.phase.operation, input.observation.value), l.account, row)
  }

  /** What a controller does next.  Where it needs its checkpoint it has one. */
  function Next(x: Contract, s: Shared, l: Local, input: Input): (Shared, Local) {
    match l.pc
    case Idle(_) => (s, l)
    case Loading => (s, Resume(x, l, s.row))
    case Creating =>
      var saved := Saved(s.row, Checkpoint(Ready, 1, Account(0, l.account.evidence), 0));
      if saved.None? then (s, Failed(l)) else (s.(row := saved), l.(pc := Looping(1), checkpoint := saved))
    case Reconciling => (s, Attest(l, s.row, input))
    case Cancelling => (s, if s.row.None? then Failed(l) else Restored(s.row.value, Ending(Stop)))
    case _ => if l.checkpoint.None? then (s, Failed(l)) else Continue(x, s, l, input)
  }

  function Continue(x: Contract, s: Shared, l: Local, input: Input): (Shared, Local)
    requires l.checkpoint.Some?
  {
    match l.pc
    case Blocking =>
      var phase := l.checkpoint.value.phase;
      if !phase.PendingEffect? then (s, Failed(l))
      else SaveAs(s, l, ReconciliationRequired(phase.intent, phase.operation), l.checkpoint.value.nextIteration, Idle(Some(Waiting)))
    case Attested(intent, operation, observation) =>
      SaveAs(s, l, ReconciledEffect(intent, operation, observation), l.checkpoint.value.nextIteration, Loading)
    case Looping(it) => (s, Begin(x, l, it, input))
    case Proposed(it, intent) => SaveAs(s, l, PendingAuthorization(intent), it, Authorising(it, intent))
    case Authorising(it, intent) =>
      (s, match input.gate
          case Granted => Local(Preparing(it, intent), l.account.(toolCalls := l.account.toolCalls + 1), l.checkpoint)
          case NeedsApproval => l.(pc := Holding(it, intent))
          case Denied => l.(pc := Ending(Escalate)))
    case Holding(it, intent) => SaveAs(s, l, AwaitingApproval(intent), it, Idle(Some(Waiting)))
    case Preparing(it, intent) =>
      var (s', l') := SaveAs(s, l, PendingEffect(intent, x.mint(it, intent)), it, Dispatching(it, intent));
      (if l'.pc.Dispatching? then s'.(granted := s'.granted + [it]) else s', l')
    case Dispatching(it, intent) =>
      (s.(dispatched := s.dispatched + [it]),
       if input.observation.None? then Failed(l) else l.(pc := Observed(it, intent, input.observation.value)))
    case Observed(it, intent, observation) => (s, Evaluate(l, it, intent, observation, input.verdict))
    case Finishing(it) => SaveAs(s, l, Ready, it + 1, Looping(it + 1))
    case Ending(outcome) => SaveAs(s, l, Terminal(outcome), l.checkpoint.value.nextIteration, Idle(Some(outcome)))
    case _ => (s, l)
  }

  // ---- many controllers ----

  datatype Entrance = Run | ReconcileEffect | CancelRun

  function EntryOf(entrance: Entrance): Pc {
    match entrance
    case Run => Loading
    case ReconcileEffect => Reconciling
    case CancelRun => Cancelling
  }

  datatype Action =
    | Call(p: nat, entrance: Entrance)
    | Proceed(p: nat, input: Input)
    | Raise(p: nat)
    | Crash(p: nat)

  datatype System = System(shared: Shared, locals: map<nat, Local>)

  const START: System := System(Shared(None, [], []), map[])

  function LocalOf(y: System, p: nat): Local {
    if p in y.locals then y.locals[p] else NEW
  }

  /** Calling an idle or new instance starts it; a failure keeps the instance, a crash loses it. */
  function Do(x: Contract, y: System, a: Action): System {
    var l := LocalOf(y, a.p);
    match a
    case Call(p, entrance) =>
      if !l.pc.Idle? then y
      else y.(locals := y.locals[p := l.(pc := EntryOf(entrance))])
    case Raise(p) => y.(locals := y.locals[p := Failed(l)])
    case Crash(p) => y.(locals := y.locals - {p})
    case Proceed(p, input) =>
      var (s, l') := Next(x, y.shared, l, input);
      System(s, y.locals[p := l'])
  }

  function RunAll(x: Contract, actions: seq<Action>): System {
    if actions == [] then START else Do(x, RunAll(x, actions[..|actions| - 1]), actions[|actions| - 1])
  }
}
