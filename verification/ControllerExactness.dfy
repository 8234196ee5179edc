/** Which contracts keep their budgets and their evidence over every run: for each promise the exact
    condition, with the run that breaks it wherever the condition fails. */
module ControllerExactness {
  import opened GraphSchema
  import opened RunState
  import opened ControllerProtocol
  import opened ControllerSafety
  import opened ControllerAccounting
  import opened ControllerEvidence

  const INTENT: string := "intent"

  function Outcome(x: Contract, it: int): Observation {
    Observation(x.mint(it, INTENT), true)
  }

  /** The same intent every time, granted, successful and not yet enough. */
  function Reply(x: Contract, it: int): Input {
    Input(INTENT, Granted, Some(Outcome(x, it)), Progress)
  }

  // ---- one controller moving alone ----

  function Go(x: Contract, s: Shared, l: Local, input: Input, n: nat): (Shared, Local)
    decreases n
  {
    if n == 0 then (s, l)
    else
      var (s', l') := Next(x, s, l, input);
      Go(x, s', l', input, n - 1)
  }

  lemma GoStep(x: Contract, s: Shared, l: Local, input: Input, n: nat, s': Shared, l': Local)
    requires n > 0 && Next(x, s, l, input) == (s', l')
    ensures Go(x, s, l, input, n) == Go(x, s', l', input, n - 1)
    ensures Go(x, s', l', input, 0) == (s', l')
  {}

  /** A controller about to reconcile holds the stored account. */
  predicate Honest(s: Shared, l: Local) {
    l.pc.Reconciling? ==> s.row.Some? && l.account == s.row.value.account
  }

  lemma NextHonest(x: Contract, s: Shared, l: Local, input: Input)
    ensures var (s', l') := Next(x, s, l, input); Honest(s', l')
  {}

  lemma StepIs(x: Contract, front: seq<Action>, a: Action)
    ensures RunAll(x, front + [a]) == Do(x, RunAll(x, front), a)
    ensures AlwaysFaithful(x, front) && Faithful(RunAll(x, front), a) ==> AlwaysFaithful(x, front + [a])
  {
    assert (front + [a])[..|front|] == front;
  }

  lemma {:induction false} Walk(x: Contract, front: seq<Action>, p: nat, input: Input, n: nat) returns (actions: seq<Action>)
    requires p in RunAll(x, front).locals
    ensures var y := RunAll(x, front);
            var end := Go(x, y.shared, y.locals[p], input, n);
            RunAll(x, actions) == System(end.0, y.locals[p := end.1])
    ensures AlwaysFaithful(x, front) && Honest(RunAll(x, front).shared, RunAll(x, front).locals[p]) ==> AlwaysFaithful(x, actions)
    decreases n
  {
    hide Next, RunAll, AlwaysFaithful;
    var y := RunAll(x, front);
    if n == 0 {
      actions := front;
      assert y.locals[p := y.locals[p]] == y.locals;
    } else {
      StepIs(x, front, Proceed(p, input));
      NextHonest(x, y.shared, y.locals[p], input);
      actions := Walk(x, front + [Proceed(p, input)], p, input, n - 1);
      var l' := Next(x, y.shared, y.locals[p], input).1;
      var end := Go(x, y.shared, y.locals[p], input, n);
      assert y.locals[p := l'][p := end.1] == y.locals[p := end.1];
    }
  }

  lemma Enter(x: Contract, front: seq<Action>, p: nat, entrance: Entrance) returns (actions: seq<Action>)
    requires LocalOf(RunAll(x, front), p).pc.Idle?
    ensures var y := RunAll(x, front);
            RunAll(x, actions) == y.(locals := y.locals[p := LocalOf(y, p).(pc := EntryOf(entrance))])
    ensures AlwaysFaithful(x, front) ==> AlwaysFaithful(x, actions)
  {
    StepIs(x, front, Call(p, entrance));
    actions := front + [Call(p, entrance)];
  }

  lemma Lose(x: Contract, front: seq<Action>, p: nat) returns (actions: seq<Action>)
    requires RunAll(x, front).locals.Keys == {p}
    ensures RunAll(x, actions) == System(RunAll(x, front).shared, map[])
    ensures AlwaysFaithful(x, front) ==> AlwaysFaithful(x, actions)
  {
    StepIs(x, front, Crash(p));
    actions := front + [Crash(p)];
  }

  // ---- stretches of a run ----

  function At(phase: Phase, it: int, account: Account, revision: nat): Option<Checkpoint> {
    Some(Checkpoint(phase, it, account, revision))
  }

  function Fresh(entrance: Entrance): Local {
    Local(EntryOf(entrance), NEW_ACCOUNT, None)
  }

  function Pending(x: Contract, it: int): Phase { PendingEffect(INTENT, x.mint(it, INTENT)) }

  function Blocked(x: Contract, it: int): Phase { ReconciliationRequired(INTENT, x.mint(it, INTENT)) }

  function Settled(x: Contract, it: int): Phase { ReconciledEffect(INTENT, x.mint(it, INTENT), Outcome(x, it)) }

  function Spent(account: Account): Account { account.(toolCalls := account.toolCalls + 1) }

  function Admitted(account: Account, it: int): Account {
    account.(evidence := account.evidence + [Entry(it, INTENT)])
  }

  lemma Creates(x: Contract, s: Shared, input: Input)
    requires s.row.None?
    ensures var c := At(Ready, 1, NEW_ACCOUNT, 1);
            Go(x, s, Fresh(Run), input, 2) == (s.(row := c), Local(Looping(1), NEW_ACCOUNT, c))
  {
    hide Go;
    var c := At(Ready, 1, NEW_ACCOUNT, 1);
    GoStep(x, s, Fresh(Run), input, 2, s, Local(Creating, NEW_ACCOUNT, None));
    GoStep(x, s, Local(Creating, NEW_ACCOUNT, None), input, 1, s.(row := c), Local(Looping(1), NEW_ACCOUNT, c));
  }

  /** From entering run() to the outcome of the effect, six steps. */
  lemma Dispatches(x: Contract, s: Shared, it: int, account: Account, revision: nat)
    requires 1 <= it <= x.iterations && account.toolCalls < x.calls && s.row == At(Ready, it, account, revision)
    ensures var c := At(Pending(x, it), it, Spent(account), revision + 2);
            Go(x, s, Fresh(Run), Reply(x, it), 6)
              == (Shared(c, s.granted + [it], s.dispatched + [it]), Local(Observed(it, INTENT, Outcome(x, it)), Spent(account), c))
  {
    hide Go;
    var (input, spent) := (Reply(x, it), Spent(account));
    var c1, c2 := At(PendingAuthorization(INTENT), it, account, revision + 1), At(Pending(x, it), it, spent, revision + 2);
    var l1, l2, l3 := Local(Looping(it), account, s.row), Local(Proposed(it, INTENT), account, s.row), Local(Authorising(it, INTENT), account, c1);
    var l4, l5 := Local(Preparing(it, INTENT), spent, c1), Local(Dispatching(it, INTENT), spent, c2);
    var s3, s5 := s.(row := c1), Shared(c2, s.granted + [it], s.dispatched);
    GoStep(x, s, Fresh(Run), input, 6, s, l1);
    GoStep(x, s, l1, input, 5, s, l2);
    GoStep(x, s, l2, input, 4, s3, l3);
    GoStep(x, s3, l3, input, 3, s3, l4);
    GoStep(x, s3, l4, input, 2, s5, l5);
    GoStep(x, s5, l5, input, 1, s5.(dispatched := s.dispatched + [it]), Local(Observed(it, INTENT, Outcome(x, it)), spent, c2));
  }

  /** Evaluating an outcome and going to the next iteration. */
  lemma Concludes(x: Contract, s: Shared, it: int, account: Account)
    requires s.row.Some?
    ensures var c := At(Ready, it + 1, Admitted(account, it), s.row.value.revision + 1);
            Go(x, s, Local(Observed(it, INTENT, Outcome(x, it)), account, s.row), Reply(x, it), 2)
              == (s.(row := c), Local(Looping(it + 1), Admitted(account, it), c))
  {
    hide Go;
    var input, mine := Reply(x, it), Admitted(account, it);
    var c := At(Ready, it + 1, mine, s.row.value.revision + 1);
    GoStep(x, s, Local(Observed(it, INTENT, Outcome(x, it)), account, s.row), input, 2, s, Local(Finishing(it), mine, s.row));
    GoStep(x, s, Local(Finishing(it), mine, s.row), input, 1, s.(row := c), Local(Looping(it + 1), mine, c));
  }

  /** An instance that finds the effect pending asks for reconciliation, holding the stored account. */
  lemma Blocks(x: Contract, s: Shared, it: int, account: Account, revision: nat, input: Input)
    requires it <= x.iterations && s.row == At(Pending(x, it), it, account, revision)
    ensures var c := At(Blocked(x, it), it, account, revision + 1);
            Go(x, s, Fresh(Run), input, 2) == (s.(row := c), Local(Idle(Some(Waiting)), account, c))
  {
    hide Go;
    var c := At(Blocked(x, it), it, account, revision + 1);
    GoStep(x, s, Fresh(Run), input, 2, s, Local(Blocking, account, s.row));
    GoStep(x, s, Local(Blocking, account, s.row), input, 1, s.(row := c), Local(Idle(Some(Waiting)), account, c));
  }

  /** An instance reconciles with the account it happens to hold, and is back at the loop. */
  lemma Settles(x: Contract, s: Shared, it: int, mine: Account, stored: Account, copy: Option<Checkpoint>, revision: nat)
    requires it <= x.iterations && s.row == At(Blocked(x, it), it, stored, revision)
    ensures var c := At(Settled(x, it), it, mine, revision + 1);
            Go(x, s, Local(Pc.Reconciling, mine, copy), Reply(x, it), 3) == (s.(row := c), Local(Looping(it), mine, c))
  {
    hide Go;
    var input := Reply(x, it);
    var c := At(Settled(x, it), it, mine, revision + 1);
    var l1, l2 := Local(Attested(INTENT, x.mint(it, INTENT), Outcome(x, it)), mine, s.row), Local(Loading, mine, c);
    GoStep(x, s, Local(Pc.Reconciling, mine, copy), input, 3, s, l1);
    GoStep(x, s, l1, input, 2, s.(row := c), l2);
    GoStep(x, s.(row := c), l2, input, 1, s.(row := c), Local(Looping(it), mine, c));
  }

  lemma Takes(x: Contract, s: Shared, it: int, mine: Account, revision: nat)
    requires it <= x.iterations && mine.toolCalls < x.calls && s.row == At(Settled(x, it), it, mine, revision)
    ensures Go(x, s, Local(Looping(it), mine, s.row), Reply(x, it), 1)
         == (s, Local(Observed(it, INTENT, Outcome(x, it)), mine, s.row))
  {
    hide Go;
    GoStep(x, s, Local(Looping(it), mine, s.row), Reply(x, it), 1, s, Local(Observed(it, INTENT, Outcome(x, it)), mine, s.row));
  }

  // ---- runs, each starting and ending with no controller alive ----

  /** Nobody is alive and iteration it is next. */
  predicate Rests(y: System, it: int, toolCalls: int) {
    && y.locals == map[] && y.shared.row.Some?
    && y.shared.row.value.phase.Ready? && y.shared.row.value.nextIteration == it && y.shared.row.value.account.toolCalls == toolCalls
  }

  lemma Open(x: Contract) returns (actions: seq<Action>)
    ensures Rests(RunAll(x, actions), 1, 0) && RunAll(x, actions).shared.dispatched == [] && AlwaysFaithful(x, actions)
    ensures RunAll(x, actions).shared.row.value.account == NEW_ACCOUNT
  {
    hide Do, Go, Next;
    actions := Enter(x, [], 0, Run);
    actions := Walk(x, actions, 0, Reply(x, 1), 2);
    Creates(x, START.shared, Reply(x, 1));
    actions := Lose(x, actions, 0);
  }

  lemma Dispatch(x: Contract, front: seq<Action>, it: int) returns (actions: seq<Action>)
    requires 1 <= it <= x.iterations && RunAll(x, front).shared.row.Some?
    requires var c := RunAll(x, front).shared.row.value; Rests(RunAll(x, front), it, c.account.toolCalls) && c.account.toolCalls < x.calls
    ensures var s, t := RunAll(x, front).shared, RunAll(x, actions).shared;
            var c := s.row.value;
            && t == Shared(At(Pending(x, it), it, Spent(c.account), c.revision + 2), s.granted + [it], s.dispatched + [it])
            && RunAll(x, actions).locals == map[0 := Local(Observed(it, INTENT, Outcome(x, it)), Spent(c.account), t.row)]
    ensures AlwaysFaithful(x, front) ==> AlwaysFaithful(x, actions)
  {
    hide RunAll, AlwaysFaithful, Go;
    var s := RunAll(x, front).shared;
    actions := Enter(x, front, 0, Run);
    actions := Walk(x, actions, 0, Reply(x, it), 6);
    Dispatches(x, s, it, s.row.value.account, s.row.value.revision);
  }

  /** Somebody enters run() while nobody is alive and the effect of an iteration is pending. */
  lemma Block(x: Contract, front: seq<Action>, it: int, p: nat) returns (actions: seq<Action>)
    requires it <= x.iterations && p !in RunAll(x, front).locals && RunAll(x, front).shared.row.Some?
    requires var c := RunAll(x, front).shared.row.value; c.phase == Pending(x, it) && c.nextIteration == it
    ensures var y := RunAll(x, front);
            var c := y.shared.row.value;
            var r := At(Blocked(x, it), it, c.account, c.revision + 1);
            RunAll(x, actions) == System(y.shared.(row := r), y.locals[p := Local(Idle(Some(Waiting)), c.account, r)])
    ensures AlwaysFaithful(x, front) ==> AlwaysFaithful(x, actions)
  {
    hide RunAll, AlwaysFaithful, Go;
    var y := RunAll(x, front);
    actions := Enter(x, front, p, Run);
    actions := Walk(x, actions, p, Reply(x, it), 2);
    Blocks(x, y.shared, it, y.shared.row.value.account, y.shared.row.value.revision, Reply(x, it));
    assert y.locals[p := Fresh(Run)][p := RunAll(x, actions).locals[p]] == y.locals[p := RunAll(x, actions).locals[p]];
  }

  /** An idle instance reconciles the blocked effect with its own account. */
  lemma Reconcile(x: Contract, front: seq<Action>, it: int, p: nat) returns (actions: seq<Action>)
    requires it <= x.iterations && LocalOf(RunAll(x, front), p).pc.Idle? && RunAll(x, front).shared.row.Some?
    requires var c := RunAll(x, front).shared.row.value; c.phase == Blocked(x, it) && c.nextIteration == it
    ensures var y := RunAll(x, front);
            var mine := LocalOf(y, p).account;
            var r := At(Settled(x, it), it, mine, y.shared.row.value.revision + 1);
            RunAll(x, actions) == System(y.shared.(row := r), y.locals[p := Local(Looping(it), mine, r)])
    ensures AlwaysFaithful(x, front) && LocalOf(RunAll(x, front), p).account == RunAll(x, front).shared.row.value.account ==>
              AlwaysFaithful(x, actions)
  {
    hide RunAll, AlwaysFaithful, Go;
    var y := RunAll(x, front);
    var l := LocalOf(y, p);
    actions := Enter(x, front, p, ReconcileEffect);
    var l' := RunAll(x, actions).locals[p];
    actions := Walk(x, actions, p, Reply(x, it), 3);
    Settles(x, y.shared, it, l.account, y.shared.row.value.account, l.checkpoint, y.shared.row.value.revision);
    assert y.locals[p := l'][p := RunAll(x, actions).locals[p]] == y.locals[p := RunAll(x, actions).locals[p]];
  }

  /** From the top of the loop with a reconciled outcome to the next iteration. */
  lemma Finish(x: Contract, front: seq<Action>, it: int, p: nat) returns (actions: seq<Action>)
    requires it <= x.iterations && p in RunAll(x, front).locals && RunAll(x, front).shared.row.Some?
    requires var (s, l) := (RunAll(x, front).shared, RunAll(x, front).locals[p]);
             && s.row.value.phase == Settled(x, it) && s.row.value.nextIteration == it && l.account.toolCalls < x.calls
             && s.row.value.account == l.account && l == Local(Looping(it), l.account, s.row)
    ensures var y := RunAll(x, front);
            var mine := Admitted(y.locals[p].account, it);
            var r := At(Ready, it + 1, mine, y.shared.row.value.revision + 1);
            RunAll(x, actions) == System(y.shared.(row := r), y.locals[p := Local(Looping(it + 1), mine, r)])
  {
    hide RunAll, Go;
    var y := RunAll(x, front);
    var mine := y.locals[p].account;
    actions := Walk(x, front, p, Reply(x, it), 1);
    Takes(x, y.shared, it, mine, y.shared.row.value.revision);
    var l' := RunAll(x, actions).locals[p];
    actions := Walk(x, actions, p, Reply(x, it), 2);
    Concludes(x, y.shared, it, mine);
    assert y.locals[p := l'][p := RunAll(x, actions).locals[p]] == y.locals[p := RunAll(x, actions).locals[p]];
  }

  // ---- the tool-call budget ----

  /** One iteration whose dispatching instance is lost and whose outcome a new instance reconciles:
      the call is forgotten. */
  lemma Forget(x: Contract, front: seq<Action>, it: int) returns (actions: seq<Action>)
    requires x.calls >= 1 && 1 <= it <= x.iterations && Rests(RunAll(x, front), it, 0)
    ensures Rests(RunAll(x, actions), it + 1, 0)
    ensures RunAll(x, actions).shared.dispatched == RunAll(x, front).shared.dispatched + [it]
  {
    hide RunAll;
    actions := Dispatch(x, front, it);
    actions := Lose(x, actions, 0);
    actions := Block(x, actions, it, 0);
    actions := Lose(x, actions, 0);
    actions := Reconcile(x, actions, it, 0);
    actions := Finish(x, actions, it, 0);
    actions := Lose(x, actions, 0);
  }

  /** Whatever the budget of tool calls, every permitted iteration can dispatch its effect. */
  lemma {:induction false} AllDispatched(x: Contract, n: nat) returns (actions: seq<Action>)
    requires x.calls >= 1 && n <= x.iterations
    ensures Rests(RunAll(x, actions), n + 1, 0) && |RunAll(x, actions).shared.dispatched| == n
  {
    hide RunAll;
    if n == 0 {
      actions := Open(x);
    } else {
      actions := AllDispatched(x, n - 1);
      actions := Forget(x, actions, n);
    }
  }

  predicate InBudget(x: Contract, actions: seq<Action>) {
    |RunAll(x, actions).shared.dispatched| <= x.calls
  }

  /** The budget of tool calls is kept on every run exactly when it covers the iterations. */
  lemma BudgetExact(x: Contract)
    requires x.calls >= 1
    ensures (forall actions :: InBudget(x, actions)) <==> x.iterations <= x.calls
  {
    hide RunAll;
    if x.iterations <= x.calls {
      forall actions ensures InBudget(x, actions) { DispatchedAtMostOnce(x, actions); }
    } else {
      var actions := AllDispatched(x, x.iterations);
      assert !InBudget(x, actions);
    }
  }

  // ---- the evidence ----

  ghost predicate EvidenceOnce(x: Contract, actions: seq<Action>) {
    var row := RunAll(x, actions).shared.row;
    row.Some? ==> OncePerIteration(row.value.account.evidence)
  }

  /** An instance evaluates an outcome and fails before saving it; another blocks the run; the first
      reconciles and admits the outcome again. */
  lemma AdmitTwice(x: Contract) returns (actions: seq<Action>)
    requires x.calls >= 2 && x.iterations >= 1
    ensures var row := RunAll(x, actions).shared.row;
            row.Some? && row.value.account.evidence == [Entry(1, INTENT), Entry(1, INTENT)]
  {
    hide RunAll, Go, Next;
    actions := Open(x);
    actions := Dispatch(x, actions, 1);
    var y := RunAll(x, actions);
    actions := Walk(x, actions, 0, Reply(x, 1), 1);
    Evaluates(x, y.shared, 1, y.locals[0].account);
    StepIs(x, actions, Raise(0));
    actions := actions + [Raise(0)];
    actions := Block(x, actions, 1, 1);
    actions := Reconcile(x, actions, 1, 0);
    actions := Finish(x, actions, 1, 0);
  }

  lemma Evaluates(x: Contract, s: Shared, it: int, account: Account)
    requires s.row.Some?
    ensures Go(x, s, Local(Observed(it, INTENT, Outcome(x, it)), account, s.row), Reply(x, it), 1)
         == (s, Local(Finishing(it), Admitted(account, it), s.row))
  {
    hide Go;
    GoStep(x, s, Local(Observed(it, INTENT, Outcome(x, it)), account, s.row), Reply(x, it), 1, s, Local(Finishing(it), Admitted(account, it), s.row));
  }

  /** Each iteration's outcome is admitted at most once on every run exactly when one tool call is
      all the contract permits. */
  lemma EvidenceExact(x: Contract)
    requires x.calls >= 1 && x.iterations >= 1
    ensures (forall actions :: EvidenceOnce(x, actions)) <==> x.calls == 1
  {
    hide RunAll, NeverEvaluated;
    if x.calls == 1 {
      forall actions ensures EvidenceOnce(x, actions) { EvidenceAdmittedOnce(x, actions); }
    } else {
      var actions := AdmitTwice(x);
      var evidence := RunAll(x, actions).shared.row.value.account.evidence;
      assert evidence[0].iteration == evidence[1].iteration;
      assert !EvidenceOnce(x, actions);
    }
  }

  // ---- reconciled outcomes ----

  /** An undisturbed iteration. */
  lemma Succeed(x: Contract, front: seq<Action>, it: int) returns (actions: seq<Action>)
    requires 1 <= it <= x.iterations && it <= x.calls && Rests(RunAll(x, front), it, it - 1) && AlwaysFaithful(x, front)
    ensures Rests(RunAll(x, actions), it + 1, it) && AlwaysFaithful(x, actions)
  {
    hide RunAll, AlwaysFaithful, Go;
    actions := Dispatch(x, front, it);
    var y := RunAll(x, actions);
    actions := Walk(x, actions, 0, Reply(x, it), 2);
    Concludes(x, y.shared, it, y.locals[0].account);
    actions := Lose(x, actions, 0);
  }

  lemma {:induction false} AllSucceed(x: Contract, n: nat) returns (actions: seq<Action>)
    requires n <= x.iterations && n <= x.calls
    ensures Rests(RunAll(x, actions), n + 1, n) && AlwaysFaithful(x, actions)
  {
    hide RunAll, AlwaysFaithful;
    if n == 0 {
      actions := Open(x);
    } else {
      actions := AllSucceed(x, n - 1);
      actions := Succeed(x, actions, n);
    }
  }

  /** The last permitted call is dispatched, its instance lost, and its outcome reconciled by the
      instance that blocked the run: the outcome is then dropped. */
  lemma DropLast(x: Contract) returns (actions: seq<Action>)
    requires 1 <= x.calls <= x.iterations
    ensures AlwaysFaithful(x, actions) && Drops(x, RunAll(x, actions), 0, Reply(x, x.calls))
  {
    hide RunAll, AlwaysFaithful;
    var it := x.calls;
    actions := AllSucceed(x, it - 1);
    actions := Dispatch(x, actions, it);
    actions := Lose(x, actions, 0);
    actions := Block(x, actions, it, 0);
    actions := Reconcile(x, actions, it, 0);
  }

  ghost predicate DropsNothing(x: Contract, actions: seq<Action>) {
    forall p, input :: !Drops(x, RunAll(x, actions), p, input)
  }

  /** No reconciled outcome is dropped, on every run or on every faithful one, exactly when the
      contract permits more tool calls than iterations. */
  lemma EvaluatedExact(x: Contract)
    requires x.calls >= 1
    ensures (forall actions :: DropsNothing(x, actions)) <==> x.iterations < x.calls
    ensures (forall actions :: AlwaysFaithful(x, actions) ==> DropsNothing(x, actions)) <==> x.iterations < x.calls
  {
    hide RunAll, AlwaysFaithful, Drops;
    if x.iterations < x.calls {
      forall actions, p, input ensures !Drops(x, RunAll(x, actions), p, input) { NothingDropped(x, actions, p, input); }
    } else {
      var actions := DropLast(x);
      assert !DropsNothing(x, actions);
    }
  }
}
