/** An effect is dispatched at most once per iteration, however many controllers share a run. */
module ControllerSafety {
  import opened GraphSchema
  import opened RunState
  import opened ControllerProtocol

  predicate EffectBegun(phase: Phase) {
    phase.PendingEffect? || phase.ReconciliationRequired? || phase.ReconciledEffect? || phase.Terminal?
  }

  /** Saves never lower this, and recording a pending effect raises it. */
  function Rank(c: Checkpoint): int {
    2 * c.nextIteration + if EffectBegun(c.phase) then 1 else 0
  }

  predicate Waits(phase: Phase, intent: string) {
    phase == PendingAuthorization(intent) || phase == AwaitingApproval(intent)
  }

  /** Where a controller stands agrees with its copy of the checkpoint. */
  predicate PcOk(x: Contract, l: Local) {
    match l.pc
    case Idle(_) => true
    case Loading => true
    case Reconciling => true
    case Cancelling => true
    case Creating => l.checkpoint.None?
    case _ => l.checkpoint.Some? && PcMatches(x, l.pc, l.checkpoint.value)
  }

  predicate PcMatches(x: Contract, pc: Pc, c: Checkpoint) {
    match pc
    case Blocking => c.phase.PendingEffect?
    case Attested(intent, operation, _) => c.phase == ReconciliationRequired(intent, operation)
    case Looping(it) => it == c.nextIteration && (EffectBegun(c.phase) ==> c.phase.ReconciledEffect?)
    case Proposed(it, _) => it == c.nextIteration <= x.iterations && c.phase.Ready?
    case Authorising(it, intent) => it == c.nextIteration <= x.iterations && Waits(c.phase, intent)
    case Holding(it, intent) => it == c.nextIteration <= x.iterations && Waits(c.phase, intent)
    case Preparing(it, intent) => it == c.nextIteration <= x.iterations && Waits(c.phase, intent)
    case Dispatching(it, _) => it == c.nextIteration <= x.iterations && c.phase.PendingEffect?
    case Observed(it, _, _) => it == c.nextIteration && (c.phase.PendingEffect? || c.phase.ReconciledEffect?)
    case Finishing(it) => it == c.nextIteration && (c.phase.PendingEffect? || c.phase.ReconciledEffect?)
    case _ => true
  }

  /** The copy is a stored revision: the current one if it is as new. */
  predicate CopyOk(s: Shared, l: Local) {
    l.checkpoint.Some? ==>
      && s.row.Some? && l.checkpoint.value.revision <= s.row.value.revision
      && (l.checkpoint.value.revision == s.row.value.revision ==> l.checkpoint == s.row)
  }

  predicate LocalInv(x: Contract, s: Shared, l: Local) {
    && PcOk(x, l) && CopyOk(s, l)
    && (l.pc.Dispatching? ==> l.pc.it in s.granted && l.pc.it !in s.dispatched)
  }

  ghost predicate Increasing(q: seq<int>) {
    forall i, j :: 0 <= i < j < |q| ==> q[i] < q[j]
  }

  ghost predicate Distinct(q: seq<int>) {
    forall i, j :: 0 <= i < j < |q| ==> q[i] != q[j]
  }

  ghost predicate SharedInv(x: Contract, s: Shared) {
    && Increasing(s.granted) && Distinct(s.dispatched)
    && (forall g :: g in s.granted ==> 1 <= g <= x.iterations && s.row.Some? && 2 * g + 1 <= Rank(s.row.value))
    && (forall d :: d in s.dispatched ==> d in s.granted)
    && (s.row.Some? ==> s.row.value.nextIteration >= 1 && s.row.value.revision >= 1)
  }

  predicate PairInv(l: Local, k: Local) {
    l.pc.Dispatching? && k.pc.Dispatching? ==> l.pc.it != k.pc.it
  }

  ghost predicate SystemInv(x: Contract, y: System) {
    && SharedInv(x, y.shared)
    && (forall p :: p in y.locals ==> LocalInv(x, y.shared, y.locals[p]))
    && (forall p, q :: p in y.locals && q in y.locals && p != q ==> PairInv(y.locals[p], y.locals[q]))
  }

  /** A save by the holder of the current copy. */
  lemma SaveKeeps(x: Contract, s: Shared, l: Local, phase: Phase, next: int, then_: Pc)
    requires SharedInv(x, s) && l.checkpoint.Some? && CopyOk(s, l)
    requires Rank(Checkpoint(phase, next, l.account, 0)) >= Rank(l.checkpoint.value) && next >= l.checkpoint.value.nextIteration
    ensures var (s', l') := SaveAs(s, l, phase, next, then_);
            && SharedInv(x, s') && CopyOk(s', l')
            && s'.granted == s.granted && s'.dispatched == s.dispatched
            && (s' == s || (s.row == l.checkpoint && s'.row == l'.checkpoint && l'.checkpoint.Some? && l'.pc == then_
                  && l'.checkpoint.value.phase == phase && l'.checkpoint.value.nextIteration == next
                  && l'.checkpoint.value.revision == l.checkpoint.value.revision + 1))
            && (s' == s ==> l' == Failed(l))
  {}

  /** The steps that write the row and leave the logs alone. */
  predicate Saving(pc: Pc) {
    pc.Blocking? || pc.Attested? || pc.Proposed? || pc.Holding? || pc.Finishing? || pc.Ending?
  }

  lemma SavingKeeps(x: Contract, s: Shared, l: Local, input: Input)
    requires SharedInv(x, s) && LocalInv(x, s, l) && Saving(l.pc)
    ensures var (s', l') := Next(x, s, l, input); SharedInv(x, s') && LocalInv(x, s', l')
  {
    hide SharedInv, SaveAs, CopyOk;
    var next := l.checkpoint.value.nextIteration;
    match l.pc
    case Blocking => {
      var phase := l.checkpoint.value.phase;
      SaveKeeps(x, s, l, ReconciliationRequired(phase.intent, phase.operation), next, Idle(Some(Waiting)));
    }
    case Attested(intent, operation, observation) => { SaveKeeps(x, s, l, ReconciledEffect(intent, operation, observation), next, Loading); }
    case Proposed(it, intent) => { SaveKeeps(x, s, l, PendingAuthorization(intent), it, Authorising(it, intent)); }
    case Holding(it, intent) => { SaveKeeps(x, s, l, AwaitingApproval(intent), it, Idle(Some(Waiting))); }
    case Finishing(it) => { SaveKeeps(x, s, l, Ready, it + 1, Looping(it + 1)); }
    case Ending(outcome) => { SaveKeeps(x, s, l, Terminal(outcome), next, Idle(Some(outcome))); }
  }

  lemma QuietKeeps(x: Contract, s: Shared, l: Local, input: Input)
    requires LocalInv(x, s, l) && !Saving(l.pc) && !l.pc.Creating? && !l.pc.Preparing? && !l.pc.Dispatching?
    ensures var (s', l') := Next(x, s, l, input); s' == s && LocalInv(x, s', l')
  {
    hide SaveAs;
  }

  lemma NextKeeps(x: Contract, s: Shared, l: Local, input: Input)
    requires SharedInv(x, s) && LocalInv(x, s, l)
    ensures var (s', l') := Next(x, s, l, input); SharedInv(x, s') && LocalInv(x, s', l')
  {
    hide SharedInv, LocalInv, Next;
    if Saving(l.pc) { SavingKeeps(x, s, l, input); }
    else if l.pc.Creating? { CreateKeeps(x, s, l, input); }
    else if l.pc.Preparing? { PrepareKeeps(x, s, l, input); }
    else if l.pc.Dispatching? { DispatchKeeps(x, s, l, input); }
    else { QuietKeeps(x, s, l, input); }
  }

  lemma CreateKeeps(x: Contract, s: Shared, l: Local, input: Input)
    requires SharedInv(x, s) && LocalInv(x, s, l) && l.pc.Creating?
    ensures var (s', l') := Next(x, s, l, input); SharedInv(x, s') && LocalInv(x, s', l')
  {}

  lemma PrepareKeeps(x: Contract, s: Shared, l: Local, input: Input)
    requires SharedInv(x, s) && LocalInv(x, s, l) && l.pc.Preparing?
    ensures var (s', l') := Next(x, s, l, input);
            && SharedInv(x, s') && LocalInv(x, s', l')
            && (l'.pc.Dispatching? ==> l'.pc.it !in s.granted)
  {
    var (it, intent) := (l.pc.it, l.pc.intent);
    SaveKeeps(x, s, l, PendingEffect(intent, x.mint(it, intent)), it, Dispatching(it, intent));
    var (s', l') := Next(x, s, l, input);
    if l'.pc.Dispatching? {
      assert s.row == l.checkpoint;
      forall i | 0 <= i < |s.granted| ensures s.granted[i] < it { assert s.granted[i] in s.granted; }
      assert forall g :: g in s'.granted <==> g in s.granted || g == it;
    }
  }

  lemma DispatchKeeps(x: Contract, s: Shared, l: Local, input: Input)
    requires SharedInv(x, s) && LocalInv(x, s, l) && l.pc.Dispatching?
    ensures var (s', l') := Next(x, s, l, input); SharedInv(x, s') && LocalInv(x, s', l')
  {
    var s' := Next(x, s, l, input).0;
    assert forall d :: d in s'.dispatched <==> d in s.dispatched || d == l.pc.it;
  }

  /** How one controller's step changes what the others see. */
  ghost predicate Moves(s: Shared, s': Shared) {
    && (s'.row == s.row || (s'.row.Some? && (s.row.Some? ==> s'.row.value.revision > s.row.value.revision)))
    && (forall g :: g in s.granted ==> g in s'.granted)
  }

  lemma NextMoves(x: Contract, s: Shared, l: Local, input: Input)
    requires LocalInv(x, s, l)
    ensures var (s', l') := Next(x, s, l, input);
            && Moves(s, s')
            && s'.dispatched == (if l.pc.Dispatching? then s.dispatched + [l.pc.it] else s.dispatched)
            && (l'.pc.Dispatching? && l'.pc != l.pc ==> l.pc.Preparing?)
  {}

  lemma NextSpares(x: Contract, s: Shared, l: Local, input: Input, k: Local)
    requires SharedInv(x, s) && LocalInv(x, s, l) && LocalInv(x, s, k) && PairInv(l, k) && PairInv(k, l)
    ensures var (s', l') := Next(x, s, l, input); LocalInv(x, s', k) && PairInv(l', k) && PairInv(k, l')
  {
    hide Next, SharedInv;
    NextMoves(x, s, l, input);
    if l.pc.Preparing? { PrepareKeeps(x, s, l, input); }
  }

  lemma LocalOfInv(x: Contract, y: System, p: nat)
    requires SystemInv(x, y)
    ensures LocalInv(x, y.shared, LocalOf(y, p))
    ensures forall q :: q in y.locals && q != p ==> PairInv(LocalOf(y, p), y.locals[q]) && PairInv(y.locals[q], LocalOf(y, p))
  {}

  lemma DoKeeps(x: Contract, y: System, a: Action)
    requires SystemInv(x, y)
    ensures SystemInv(x, Do(x, y, a))
  {
    hide SharedInv, LocalInv, PairInv, Next;
    var l := LocalOf(y, a.p);
    LocalOfInv(x, y, a.p);
    if a.Proceed? {
      NextKeeps(x, y.shared, l, a.input);
      forall q | q in y.locals && q != a.p
        ensures var (s', l') := Next(x, y.shared, l, a.input);
                LocalInv(x, s', y.locals[q]) && PairInv(l', y.locals[q]) && PairInv(y.locals[q], l') {
        NextSpares(x, y.shared, l, a.input, y.locals[q]);
      }
    } else {
      forall pc: Pc | pc.Idle? || pc.Loading? || pc.Reconciling? || pc.Cancelling?
        ensures LocalInv(x, y.shared, l.(pc := pc)) && forall k :: PairInv(l.(pc := pc), k) && PairInv(k, l.(pc := pc)) {
        Restart(x, y.shared, l, pc);
      }
    }
  }

  lemma Restart(x: Contract, s: Shared, l: Local, pc: Pc)
    requires LocalInv(x, s, l) && (pc.Idle? || pc.Loading? || pc.Reconciling? || pc.Cancelling?)
    ensures LocalInv(x, s, l.(pc := pc)) && forall k :: PairInv(l.(pc := pc), k) && PairInv(k, l.(pc := pc))
  {}

  lemma {:induction false} RunAllInv(x: Contract, actions: seq<Action>)
    ensures SystemInv(x, RunAll(x, actions))
  {
    hide Do;
    if actions != [] {
      RunAllInv(x, actions[..|actions| - 1]);
      DoKeeps(x, RunAll(x, actions[..|actions| - 1]), actions[|actions| - 1]);
    }
  }

  lemma {:induction false} DistinctBound(q: seq<int>, n: int)
    requires Distinct(q) && forall d :: d in q ==> 1 <= d <= n
    ensures |q| <= if n > 0 then n else 0
    decreases n
  {
    if q != [] { assert q[0] in q; }
    if n > 0 {
      if i :| 0 <= i < |q| && q[i] == n {
        var rest := q[..i] + q[i + 1..];
        assert forall j :: 0 <= j < |rest| ==> rest[j] == if j < i then q[j] else q[j + 1];
        forall d | d in rest ensures 1 <= d <= n - 1 {
          var j :| 0 <= j < |rest| && rest[j] == d;
          assert rest[j] in q;
        }
        DistinctBound(rest, n - 1);
      } else {
        forall d | d in q ensures d <= n - 1 { assert d != n; }
        DistinctBound(q, n - 1);
      }
    }
  }

  /** Under every interleaving of controllers, failures and crashes, an effect is dispatched at
      most once per iteration, so at most as often as the contract permits iterations, and only
      after its iteration was recorded as pending. */
  lemma DispatchedAtMostOnce(x: Contract, actions: seq<Action>)
    ensures var s := RunAll(x, actions).shared;
            && Distinct(s.dispatched) && |s.dispatched| <= (if x.iterations > 0 then x.iterations else 0)
            && forall d :: d in s.dispatched ==> 1 <= d <= x.iterations && d in s.granted
  {
    hide RunAll, LocalInv;
    RunAllInv(x, actions);
    DistinctBound(RunAll(x, actions).shared.dispatched, x.iterations);
  }
}
