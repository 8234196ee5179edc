/** An undisturbed execution in one stroke: what it answers, what it records, and what it runs, written
    out without the protocol's steps. */
module EffectExactness {
  import opened GraphSchema
  import opened EffectStore
  import opened EffectProtocol

  /** Answered without running anything, and with nothing learned of the outcome. */
  function Refused(r: Request, reason: string): Observation {
    Observation(false, reason, map[], map["executor_id" := Str(r.executor), "capability_verified" := Bool(false)])
  }

  function Unclear(reason: string): Observation {
    Observation(false, reason, map[], map["idempotency_state" := Str("indeterminate")])
  }

  /** The observation as a checked execution reports it. */
  function Checked(r: Request, o: Observation): Observation {
    Observation(o.success, o.reason, o.artifacts,
                o.metadata + map["executor_id" := Str(r.executor), "capability_verified" := Bool(true)])
  }

  /** The capability is for this executor and intent, signed, and alive at the time. */
  predicate Entitled(x: Point, r: Request, now: int) {
    && r.executor == r.capability.executor && r.intent.digest == r.capability.intentDigest
    && x.verify(r.capability) && r.capability.issuedAt <= now && now < r.capability.expiresAt
  }

  /** A request nobody has recorded: reserved, authorised once more against a fresh nonce, then run. */
  function FirstTime(x: Point, s: Shared, r: Request, t: Times, result: Option<Observation>): (Shared, Observation) {
    var op := Op(r.executor, r.capability.contractDigest, r.intent.idempotencyKey);
    var nonce := r.capability.nonce;
    if !Entitled(x, r, t.consuming) || nonce in s.nonces then
      var answer := Refused(r, "capability rejected");
      (Shared(s.rows[op := Row(r.intent.digest, Completed(answer))], s.nonces, s.raw), answer)
    else if result.None? then
      var answer := Unclear("raw executor raised; side effect outcome is unknown");
      (Shared(s.rows[op := Row(r.intent.digest, Indeterminate(answer))], s.nonces + {nonce}, s.raw + [r]), Checked(r, answer))
    else
      var answer := Checked(r, result.value);
      (Shared(s.rows[op := Row(r.intent.digest, Completed(answer))], s.nonces + {nonce}, s.raw + [r]), answer)
  }

  /** A request whose effect is on record: answered from the record, and never run. */
  function OnRecord(s: Shared, r: Request, row: Row, now: int): (Shared, Observation) {
    var op := Op(r.executor, r.capability.contractDigest, r.intent.idempotencyKey);
    var unclear := map["executor_id" := Str(r.executor), "capability_verified" := Bool(true),
                       "idempotency_state" := Str("indeterminate")];
    if row.intent != r.intent.digest then (s, Refused(r, "idempotency key was already bound to a different intent"))
    else match row.progress
      case Completed(o) =>
        (s, o.(metadata := o.metadata + map["idempotency_replay" := Bool(true), "executor_id" := Str(r.executor)]))
      case Indeterminate(o) => (s, o.(metadata := o.metadata + unclear))
      case Pending(lease) =>
        if now < lease then (s, Refused(r, "idempotency key is already executing"))
        else
          var o := Unclear("prior executor lease expired; side effect outcome is unknown");
          (s.(rows := s.rows[op := Row(row.intent, Indeterminate(o))]), o.(metadata := o.metadata + unclear))
  }

  function Execution(x: Point, s: Shared, r: Request, t: Times, result: Option<Observation>): (Shared, Observation) {
    var op := Op(r.executor, r.capability.contractDigest, r.intent.idempotencyKey);
    if !Entitled(x, r, t.entering) then (s, Refused(r, "capability rejected"))
    else if op in s.rows then OnRecord(s, r, s.rows[op], t.reserving)
    else FirstTime(x, s, r, t, result)
  }

  lemma MarkedChecked(x: Point, r: Request, o: Observation)
    ensures x.Marked(r.executor, o) == Checked(r, o)
  {
    assert x.Marked(r.executor, o).metadata == Checked(r, o).metadata;
  }

  lemma RefusalMeans(x: Point, r: Request)
    ensures x.Refusal(r.executor, CONFLICT) == Refused(r, "idempotency key was already bound to a different intent")
    ensures x.Refusal(r.executor, BUSY) == Refused(r, "idempotency key is already executing")
    ensures x.Refusal(r.executor, REJECTED) == Refused(r, "capability rejected")
  {}

  lemma RepeatedMeans(x: Point, r: Request, o: Observation)
    ensures x.Repeated(r.executor, o)
              == o.(metadata := o.metadata + map["idempotency_replay" := Bool(true), "executor_id" := Str(r.executor)])
  {
    assert x.Repeated(r.executor, o).metadata
        == o.metadata + map["idempotency_replay" := Bool(true), "executor_id" := Str(r.executor)];
  }

  lemma UnknownMeans(x: Point, r: Request, o: Observation)
    ensures x.StillUnknown(r.executor, o)
              == o.(metadata := o.metadata + map["executor_id" := Str(r.executor), "capability_verified" := Bool(true),
                                                 "idempotency_state" := Str("indeterminate")])
  {
    assert x.StillUnknown(r.executor, o).metadata
        == o.metadata + map["executor_id" := Str(r.executor), "capability_verified" := Bool(true),
                            "idempotency_state" := Str("indeterminate")];
  }

  lemma RecordedAlone(x: Point, s: Shared, r: Request, t: Times, result: Option<Observation>)
    requires x.OpOf(r) in s.rows
    ensures var (s', o) := OnRecord(s, r, s.rows[x.OpOf(r)], t.reserving);
            Alone(x, s, Validated(r), t, result) == (s', Answered(o))
  {
    hide Alone, Point.Refusal, Point.Repeated, Point.StillUnknown, Point.Marked;
    AloneStep(x, s, Validated(r), t, result);
    var row := s.rows[x.OpOf(r)];
    match row.progress
    case Completed(o) => { RefusalMeans(x, r); RepeatedMeans(x, r, o); }
    case Indeterminate(o) => { RefusalMeans(x, r); UnknownMeans(x, r, o); }
    case Pending(_) => { RefusalMeans(x, r); UnknownMeans(x, r, EXPIRED); }
  }

  lemma ReservedAlone(x: Point, s: Shared, r: Request, t: Times, result: Option<Observation>)
    requires x.OpOf(r) !in s.rows
    ensures var (s', o) := FirstTime(x, s, r, t, result);
            Alone(x, s, Validated(r), t, result) == (s', Answered(o))
  {
    hide Alone;
    var op, intent := x.OpOf(r), r.intent.digest;
    AloneStep(x, s, Validated(r), t, result);
    var reserved := s.(rows := s.rows[op := Row(intent, Pending(t.reserving + x.duration))]);
    assert Next(x, s, Validated(r), t.reserving, result) == (reserved, Reserved(r));
    AloneStep(x, reserved, Reserved(r), t, result);
    assert x.Validates(r, t.consuming) <==> Entitled(x, r, t.consuming);
    if Entitled(x, r, t.consuming) && r.capability.nonce !in s.nonces {
      RunAlone(x, s, reserved, r, t, result);
    } else {
      RefusedAlone(x, s, reserved, r, t, result);
    }
  }

  lemma RefusedAlone(x: Point, s: Shared, reserved: Shared, r: Request, t: Times, result: Option<Observation>)
    requires !Entitled(x, r, t.consuming) || r.capability.nonce in s.nonces
    requires reserved == s.(rows := s.rows[x.OpOf(r) := Row(r.intent.digest, Pending(t.reserving + x.duration))])
    ensures var (s', o) := FirstTime(x, s, r, t, result);
            Alone(x, reserved, Reserved(r), t, result) == (s', Answered(o))
  {
    hide Alone;
    AloneStep(x, reserved, Reserved(r), t, result);
    assert reserved.nonces + {r.capability.nonce} == s.nonces || !Entitled(x, r, t.consuming);
    assert Next(x, reserved, Reserved(r), t.consuming, result) == (reserved, Local.Refused(r));
    AloneStep(x, reserved, Local.Refused(r), t, result);
    var answer := Refused(r, "capability rejected");
    assert reserved.rows[x.OpOf(r) := Row(r.intent.digest, Completed(answer))] == s.rows[x.OpOf(r) := Row(r.intent.digest, Completed(answer))];
  }

  lemma RunAlone(x: Point, s: Shared, reserved: Shared, r: Request, t: Times, result: Option<Observation>)
    requires Entitled(x, r, t.consuming) && r.capability.nonce !in s.nonces
    requires reserved == s.(rows := s.rows[x.OpOf(r) := Row(r.intent.digest, Pending(t.reserving + x.duration))])
    ensures var (s', o) := FirstTime(x, s, r, t, result);
            Alone(x, reserved, Reserved(r), t, result) == (s', Answered(o))
  {
    hide Alone, Point.Marked, Checked;
    AloneStep(x, reserved, Reserved(r), t, result);
    var spent := reserved.(nonces := s.nonces + {r.capability.nonce});
    assert Next(x, reserved, Reserved(r), t.consuming, result) == (spent, Consumed(r));
    AloneStep(x, spent, Consumed(r), t, result);
    var running := spent.(raw := s.raw + [r]);
    AloneStep(x, running, Running(r), t, result);
    var (s', o) := FirstTime(x, s, r, t, result);
    var op := x.OpOf(r);
    assert Open(running.rows, op, r.intent.digest);
    MarkedChecked(x, r, if result.None? then RAISED else result.value);
    if result.None? {
      assert running.rows[op := Row(r.intent.digest, Indeterminate(RAISED))] == s'.rows;
    } else {
      assert running.rows[op := Row(r.intent.digest, Completed(o))] == s'.rows;
    }
  }

  /** Left alone, an execution never raises: it does and answers what is written out above. */
  lemma ExecutionExact(x: Point, s: Shared, r: Request, t: Times, result: Option<Observation>)
    ensures Alone(x, s, Entered(r), t, result) == (Execution(x, s, r, t, result).0, Answered(Execution(x, s, r, t, result).1))
  {
    hide Alone, OnRecord, FirstTime;
    AloneStep(x, s, Entered(r), t, result);
    assert x.Validates(r, t.entering) <==> Entitled(x, r, t.entering);
    if Entitled(x, r, t.entering) {
      if x.OpOf(r) in s.rows { RecordedAlone(x, s, r, t, result); } else { ReservedAlone(x, s, r, t, result); }
    }
  }

  /** Any request that enters can be carried through undisturbed. */
  lemma EveryExecutionIsRun(x: Point, actions: seq<Action>, p: nat, r: Request, t: Times, result: Option<Observation>)
    returns (more: seq<Action>)
    requires p !in RunAll(x, actions).callers
    ensures var (y, end) := (RunAll(x, actions), Execution(x, RunAll(x, actions).shared, r, t, result));
            RunAll(x, actions + [Enter(p, r)] + more) == System(end.0, y.callers[p := Answered(end.1)])
  {
    hide Alone, Execution;
    var entered := actions + [Enter(p, r)];
    assert entered[..|actions|] == actions;
    var y := RunAll(x, actions);
    more := AloneIsRun(x, entered, p, t, result);
    ExecutionExact(x, y.shared, r, t, result);
    var end := Execution(x, y.shared, r, t, result);
    assert y.callers[p := Entered(r)][p := Answered(end.1)] == y.callers[p := Answered(end.1)];
  }

  /** A caller's name is taken for good, and a caller that never entered cannot crash. */
  lemma CallersEnterOnce(x: Point, actions: seq<Action>, p: nat, r: Request)
    ensures p in RunAll(x, actions).callers ==> RunAll(x, actions + [Enter(p, r)]) == RunAll(x, actions)
    ensures p !in RunAll(x, actions).callers ==> RunAll(x, actions + [Crash(p)]) == RunAll(x, actions)
  {
    assert (actions + [Enter(p, r)])[..|actions|] == (actions + [Crash(p)])[..|actions|] == actions;
  }

  // ---- disturbances ----

  /** Whoever lost its reservation to an expired lease cannot report a success any more: its result is
      not recorded, and it answers that the outcome is unknown; if it has none to report it raises. */
  lemma LateResultUnknown(x: Point, s: Shared, l: Local, now: int, result: Option<Observation>, later: int)
    requires (l.Running? || l.Refused?) && !Open(s.rows, x.OpOf(l.r), l.r.intent.digest)
    ensures var (s1, l1) := Next(x, s, l, now, result);
            && s1 == s
            && if l.Refused? || result.None? then l1 == Failed
               else !Finished(l1) && Next(x, s1, l1, later, None)
                      == (s, Answered(Checked(l.r, Unclear("execution completed but durable receipt failed"))))
  {
    hide Point.Marked, Checked;
    if l.Running? { MarkedChecked(x, l.r, UNSAVED); }
  }

  /** Nobody holds the effect's reservation, and it was never recorded as completed. */
  ghost predicate Orphaned(x: Point, y: System, op: Op, intent: string, runs: seq<Request>) {
    && op in y.shared.rows && y.shared.rows[op].intent == intent
    && (y.shared.rows[op].progress.Pending? || y.shared.rows[op].progress == Indeterminate(EXPIRED))
    && (forall p :: p in y.callers && Holding(y.callers[p]) ==> x.OpOf(y.callers[p].r) != op)
    && (forall r :: r in y.shared.raw && x.OpOf(r) == op ==> r in runs)
  }

  lemma NextOrphaned(x: Point, s: Shared, l: Local, now: int, result: Option<Observation>, op: Op, intent: string)
    requires !Finished(l) && op in s.rows && s.rows[op].intent == intent && (Holding(l) ==> x.OpOf(l.r) != op)
    requires s.rows[op].progress.Pending? || s.rows[op].progress == Indeterminate(EXPIRED)
    ensures var (s', l') := Next(x, s, l, now, result);
            && op in s'.rows && s'.rows[op].intent == intent
            && (s'.rows[op].progress.Pending? || s'.rows[op].progress == Indeterminate(EXPIRED))
            && (Holding(l') ==> x.OpOf(l'.r) != op)
            && (s'.raw == s.raw || (s'.raw == s.raw + [l.r] && x.OpOf(l.r) != op))
  {
    hide Point.Marked, Point.Refusal, Reply, Point.Validates;
  }

  lemma StepOrphaned(x: Point, y: System, a: Action, op: Op, intent: string, runs: seq<Request>)
    requires Orphaned(x, y, op, intent, runs)
    ensures Orphaned(x, Do(x, y, a), op, intent, runs)
  {
    hide Next, Holding;
    if a.Proceed? && a.caller in y.callers && !Finished(y.callers[a.caller]) {
      NextOrphaned(x, y.shared, y.callers[a.caller], a.now, a.result, op, intent);
    } else {
      NewcomerHolds(if a.Enter? then Entered(a.request) else Failed);
    }
  }

  lemma NewcomerHolds(l: Local)
    requires l.Entered? || l.Failed?
    ensures !Holding(l)
  {}

  lemma {:induction false} OrphanedStays(x: Point, actions: seq<Action>, more: seq<Action>, op: Op, intent: string, runs: seq<Request>)
    requires Orphaned(x, RunAll(x, actions), op, intent, runs)
    ensures Orphaned(x, RunAll(x, actions + more), op, intent, runs)
  {
    hide Orphaned, Do;
    if more == [] {
      assert actions + more == actions;
    } else {
      var front := more[..|more| - 1];
      OrphanedStays(x, actions, front, op, intent, runs);
      assert (actions + more)[..|actions + more| - 1] == actions + front;
      StepOrphaned(x, RunAll(x, actions + front), more[|more| - 1], op, intent, runs);
    }
  }

  predicate Unsettled(x: Point, s: Shared, l: Local) {
    Holding(l) ==>
      && x.OpOf(l.r) in s.rows
      && (s.rows[x.OpOf(l.r)].progress.Pending? || s.rows[x.OpOf(l.r)].progress == Indeterminate(EXPIRED))
  }

  lemma NextUnsettled(x: Point, s: Shared, l: Local, now: int, result: Option<Observation>)
    requires !Finished(l) && CallerInv(x, s, l) && Unsettled(x, s, l)
    ensures var (s', l') := Next(x, s, l, now, result); Unsettled(x, s', l')
  {
    hide Point.Marked, Point.Refusal, Reply, Point.Validates;
  }

  lemma NextElsewhere(x: Point, s: Shared, l: Local, now: int, result: Option<Observation>, k: Local)
    requires !Finished(l) && PairInv(x, l, k) && CallerInv(x, s, k) && Unsettled(x, s, k)
    ensures Unsettled(x, Next(x, s, l, now, result).0, k)
  {
    hide Point.Marked, Point.Refusal, Reply, Point.Validates;
  }

  /** A held reservation is open, or was given up as expired. */
  lemma {:induction false} HeldUnsettled(x: Point, actions: seq<Action>, p: nat)
    requires p in RunAll(x, actions).callers
    ensures Unsettled(x, RunAll(x, actions).shared, RunAll(x, actions).callers[p])
  {
    hide Next, CallerInv, PairInv, Unsettled, RawInv;
    if actions == [] {
      assert false;
    } else {
      var front, a := actions[..|actions| - 1], actions[|actions| - 1];
      var y := RunAll(x, front);
      RunAllInv(x, front);
      forall q | q in y.callers ensures Unsettled(x, y.shared, y.callers[q]) { HeldUnsettled(x, front, q); }
      if a.Proceed? && a.caller in y.callers && !Finished(y.callers[a.caller]) {
        if a.caller == p {
          NextUnsettled(x, y.shared, y.callers[p], a.now, a.result);
        } else {
          NextElsewhere(x, y.shared, y.callers[a.caller], a.now, a.result, y.callers[p]);
        }
      } else {
        NewcomerUnsettled(x, y.shared, RunAll(x, actions).callers[p]);
      }
    }
  }

  lemma NewcomerUnsettled(x: Point, s: Shared, l: Local)
    ensures l.Entered? || l.Failed? ==> Unsettled(x, s, l)
  {}

  /** When a caller crashes between reserving its effect and recording the outcome, the effect is never
      run again and never recorded as completed, whatever happens later: its record stays open, or is
      given up as unknown once the lease has run out. */
  lemma CrashIsFinal(x: Point, actions: seq<Action>, p: nat, more: seq<Action>)
    requires p in RunAll(x, actions).callers && Holding(RunAll(x, actions).callers[p])
    ensures var (r, then_, later) := (RunAll(x, actions).callers[p].r, RunAll(x, actions + [Crash(p)]), RunAll(x, actions + [Crash(p)] + more));
            && then_ == System(RunAll(x, actions).shared, RunAll(x, actions).callers[p := Failed])
            && x.OpOf(r) in later.shared.rows && later.shared.rows[x.OpOf(r)].intent == r.intent.digest
            && (later.shared.rows[x.OpOf(r)].progress.Pending? || later.shared.rows[x.OpOf(r)].progress == Indeterminate(EXPIRED))
            && forall q :: q in later.shared.raw && x.OpOf(q) == x.OpOf(r) ==> q in RunAll(x, actions).shared.raw
  {
    hide RawInv;
    var y, crashed := RunAll(x, actions), actions + [Crash(p)];
    assert crashed[..|actions|] == actions;
    RunAllInv(x, actions);
    HeldUnsettled(x, actions, p);
    var r := y.callers[p].r;
    forall q | q in y.callers && q != p && Holding(y.callers[q]) ensures x.OpOf(y.callers[q].r) != x.OpOf(r) {
      assert PairInv(x, y.callers[p], y.callers[q]);
    }
    assert Orphaned(x, RunAll(x, crashed), x.OpOf(r), r.intent.digest, y.shared.raw);
    OrphanedStays(x, crashed, more, x.OpOf(r), r.intent.digest, y.shared.raw);
  }
}
