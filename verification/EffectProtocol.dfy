/** The enforcement point before a raw executor, as small steps that many callers interleave:
    each store transaction is one step, a caller may crash anywhere, and time is arbitrary. */
module EffectProtocol {
  import opened GraphSchema
  import opened EffectStore

  /** A call of one executor; the stores are shared by any number of them. */
  datatype Request = Request(executor: string, capability: Capability, intent: Intent)

  /** The signature check of an enforcement point, and how long a reservation is leased. */
  datatype Point = Point(verify: Capability -> bool, duration: int) {
    /** Audience, lifetime, exact intent, signature. */
    predicate Validates(r: Request, now: int) {
      && r.capability.executor == r.executor
      && r.capability.issuedAt <= now < r.capability.expiresAt
      && r.capability.intentDigest == r.intent.digest
      && verify(r.capability)
    }

    function OpOf(r: Request): Op {
      Op(r.executor, r.capability.contractDigest, r.intent.idempotencyKey)
    }

    function Refusal(executor: string, reason: string): Observation {
      Observation(false, reason, map[], map["executor_id" := Str(executor), "capability_verified" := Bool(false)])
    }

    function Marked(executor: string, o: Observation): Observation {
      o.(metadata := o.metadata["executor_id" := Str(executor)]["capability_verified" := Bool(true)])
    }

    function Repeated(executor: string, o: Observation): Observation {
      o.(metadata := o.metadata["idempotency_replay" := Bool(true)]["executor_id" := Str(executor)])
    }

    function StillUnknown(executor: string, o: Observation): Observation {
      Marked(executor, o).(metadata := Marked(executor, o).metadata["idempotency_state" := Str("indeterminate")])
    }
  }

  const REJECTED: string := "capability rejected"
  const BUSY: string := "idempotency key is already executing"
  const CONFLICT: string := "idempotency key was already bound to a different intent"
  const RAISED: Observation := Undetermined("raw executor raised; side effect outcome is unknown")
  const UNSAVED: Observation := Undetermined("execution completed but durable receipt failed")

  /** What the callers share; raw lists the raw executions begun, oldest first. */
  datatype Shared = Shared(rows: Rows, nonces: set<string>, raw: seq<Request>)

  const NOTHING: Shared := Shared(map[], {}, [])

  /** Where a caller stands. */
  datatype Local =
    | Entered(r: Request)
    | Validated(r: Request)
    | Reserved(r: Request)
    | Refused(r: Request)
    | Consumed(r: Request)
    | Running(r: Request)
    | Unsaved(r: Request)
    | Answered(observation: Observation)
    | Failed

  predicate Finished(l: Local) {
    l.Answered? || l.Failed?
  }

  function Reply(x: Point, executor: string, outcome: Outcome): Observation
    requires !outcome.Fresh?
  {
    match outcome
    case Conflict => x.Refusal(executor, CONFLICT)
    case Busy => x.Refusal(executor, BUSY)
    case Replay(o) => x.Repeated(executor, o)
    case Unknown(o) => x.StillUnknown(executor, o)
  }

  /** What one caller does next at a time; result is what the raw executor returns, None if it raises. */
  function Next(x: Point, s: Shared, l: Local, now: int, result: Option<Observation>): (Shared, Local)
    requires !Finished(l)
  {
    var op, intent := x.OpOf(l.r), l.r.intent.digest;
    match l
    case Entered(r) => (s, if x.Validates(r, now) then Validated(r) else Answered(x.Refusal(r.executor, REJECTED)))
    case Validated(r) =>
      var outcome := Answer(s.rows, op, intent, now);
      (s.(rows := AfterReserve(s.rows, op, intent, now, x.duration)),
       if outcome.Fresh? then Reserved(r) else Answered(Reply(x, r.executor, outcome)))
    case Reserved(r) =>
      if !x.Validates(r, now) then (s, Refused(r))
      else (s.(nonces := s.nonces + {r.capability.nonce}), if r.capability.nonce in s.nonces then Refused(r) else Consumed(r))
    case Refused(r) =>
      (s.(rows := AfterRecord(s.rows, op, intent, Completed(x.Refusal(r.executor, REJECTED)))),
       if Open(s.rows, op, intent) then Answered(x.Refusal(r.executor, REJECTED)) else Failed)
    case Consumed(r) => (s.(raw := s.raw + [r]), Running(r))
    case Running(r) =>
      if result.None? then
        (s.(rows := AfterRecord(s.rows, op, intent, Indeterminate(RAISED))),
         if Open(s.rows, op, intent) then Answered(x.Marked(r.executor, RAISED)) else Failed)
      else
        (s.(rows := AfterRecord(s.rows, op, intent, Completed(x.Marked(r.executor, result.value)))),
         if Open(s.rows, op, intent) then Answered(x.Marked(r.executor, result.value)) else Unsaved(r))
    case Unsaved(r) =>
      (s.(rows := AfterRecord(s.rows, op, intent, Indeterminate(UNSAVED))), Answered(x.Marked(r.executor, UNSAVED)))
  }

  // ---- one caller alone ----

  /** The times a lone caller reads at its checks. */
  datatype Times = Times(entering: int, reserving: int, consuming: int) {
    function At(l: Local): int {
      if l.Entered? then entering else if l.Validated? then reserving else consuming
    }
  }

  function Remaining(l: Local): nat {
    match l
    case Entered(_) => 6
    case Validated(_) => 5
    case Reserved(_) => 4
    case Consumed(_) => 3
    case Running(_) => 2
    case Refused(_) => 1
    case Unsaved(_) => 1
    case _ => 0
  }

  /** A caller's whole execution when nobody interferes. */
  function Alone(x: Point, s: Shared, l: Local, t: Times, result: Option<Observation>): (end: (Shared, Local))
    ensures Finished(end.1)
    decreases Remaining(l)
  {
    if Finished(l) then (s, l)
    else
      var (s', l') := Next(x, s, l, t.At(l), result);
      Alone(x, s', l', t, result)
  }

  lemma AloneStep(x: Point, s: Shared, l: Local, t: Times, result: Option<Observation>)
    requires !Finished(l)
    ensures var next := Next(x, s, l, t.At(l), result);
            Alone(x, s, l, t, result) == if Finished(next.1) then next else Alone(x, next.0, next.1, t, result)
  {}

  /** The enforcement point as an object.  An execution is the small steps of one caller in order. */
  class CapabilityEnforcingExecutor {
    const executor: string
    const point: Point
    const store: SQLiteIdempotencyStore
    const nonces: NonceStore
    ghost var raw: seq<Request>

    ghost predicate Valid() {
      store.duration == point.duration
    }

    ghost function Contents(): Shared
      reads this, store, nonces
    {
      Shared(store.rows, nonces.consumed, raw)
    }

    constructor (executor: string, point: Point, store: SQLiteIdempotencyStore, nonces: NonceStore)
      requires store.duration == point.duration
      ensures Valid() && this.executor == executor && this.point == point && this.store == store && this.nonces == nonces && raw == []
    {
      this.executor, this.point, this.store, this.nonces, raw := executor, point, store, nonces, [];
    }

    /** The answer is None where the source raises. */
    method Execute(r: Request, t: Times, result: Option<Observation>) returns (answer: Option<Observation>)
      requires Valid() && r.executor == executor
      modifies this, store, nonces
      ensures Valid()
      ensures var (s, l) := Alone(point, old(Contents()), Entered(r), t, result);
              Contents() == s && answer == if l.Failed? then None else Some(l.observation)
    {
      hide Alone, Answer, AfterReserve, AfterRecord, Open, Reply, Point.Validates;
      ghost var end := Alone(point, Contents(), Entered(r), t, result);
      AloneStep(point, Contents(), Entered(r), t, result);
      if !point.Validates(r, t.entering) {
        return Some(point.Refusal(executor, REJECTED));
      }
      AloneStep(point, Contents(), Validated(r), t, result);
      var op, intent := point.OpOf(r), r.intent.digest;
      var outcome := store.Reserve(op, intent, t.reserving);
      if !outcome.Fresh? {
        return Some(Reply(point, executor, outcome));
      }
      AloneStep(point, Contents(), Reserved(r), t, result);
      var unspent := point.Validates(r, t.consuming);
      if unspent { unspent := nonces.Consume(r.capability.nonce); }
      if !unspent {
        assert end == Alone(point, Contents(), Refused(r), t, result);
        AloneStep(point, Contents(), Refused(r), t, result);
        var ok := store.Complete(op, intent, point.Refusal(executor, REJECTED));
        return if ok then Some(point.Refusal(executor, REJECTED)) else None;
      }
      assert end == Alone(point, Contents(), Consumed(r), t, result);
      AloneStep(point, Contents(), Consumed(r), t, result);
      raw := raw + [r];
      AloneStep(point, Contents(), Running(r), t, result);
      if result.None? {
        var ok := store.MarkIndeterminate(op, intent, RAISED);
        return if ok then Some(point.Marked(executor, RAISED)) else None;
      }
      var observation := point.Marked(executor, result.value);
      var ok := store.Complete(op, intent, observation);
      if ok { return Some(observation); }
      AloneStep(point, Contents(), Unsaved(r), t, result);
      ok := store.MarkIndeterminate(op, intent, UNSAVED);
      return Some(point.Marked(executor, UNSAVED));
    }
  }

  // ---- many callers ----

  datatype System = System(shared: Shared, callers: map<nat, Local>)

  datatype Action =
    | Enter(caller: nat, request: Request)
    | Proceed(caller: nat, now: int, result: Option<Observation>)
    | Crash(caller: nat)

  const START: System := System(NOTHING, map[])

  function Do(x: Point, y: System, a: Action): System {
    match a
    case Enter(p, r) => if p in y.callers then y else y.(callers := y.callers[p := Entered(r)])
    case Crash(p) => if p in y.callers then y.(callers := y.callers[p := Failed]) else y
    case Proceed(p, now, result) =>
      if p !in y.callers || Finished(y.callers[p]) then y
      else
        var (s, l) := Next(x, y.shared, y.callers[p], now, result);
        System(s, y.callers[p := l])
  }

  function RunAll(x: Point, actions: seq<Action>): System {
    if actions == [] then START else Do(x, RunAll(x, actions[..|actions| - 1]), actions[|actions| - 1])
  }

  /** The caller holds the reservation of its effect. */
  predicate Holding(l: Local) {
    l.Reserved? || l.Refused? || l.Consumed? || l.Running? || l.Unsaved?
  }

  /** The caller has not begun its raw execution. */
  predicate Before(l: Local) {
    l.Reserved? || l.Refused? || l.Consumed?
  }

  predicate Bound(x: Point, r: Request) {
    r.capability.executor == r.executor && r.capability.intentDigest == r.intent.digest && x.verify(r.capability)
  }

  ghost predicate CallerInv(x: Point, s: Shared, l: Local) {
    && (Holding(l) ==> x.OpOf(l.r) in s.rows && s.rows[x.OpOf(l.r)].intent == l.r.intent.digest)
    && (Before(l) ==> forall r :: r in s.raw ==> x.OpOf(r) != x.OpOf(l.r))
    && (l.Consumed? ==> l.r.capability.nonce in s.nonces && forall r :: r in s.raw ==> r.capability.nonce != l.r.capability.nonce)
    && (l.Validated? || Holding(l) ==> Bound(x, l.r))
  }

  ghost predicate RawInv(x: Point, s: Shared) {
    && (forall r :: r in s.raw ==>
          && Bound(x, r) && r.capability.nonce in s.nonces
          && x.OpOf(r) in s.rows && s.rows[x.OpOf(r)].intent == r.intent.digest)
    && (forall i, j :: 0 <= i < j < |s.raw| ==>
          x.OpOf(s.raw[i]) != x.OpOf(s.raw[j]) && s.raw[i].capability.nonce != s.raw[j].capability.nonce)
  }

  ghost predicate PairInv(x: Point, l: Local, k: Local) {
    && (Holding(l) && Holding(k) ==> x.OpOf(l.r) != x.OpOf(k.r))
    && (l.Consumed? && k.Consumed? ==> l.r.capability.nonce != k.r.capability.nonce)
  }

  ghost predicate SystemInv(x: Point, y: System) {
    && RawInv(x, y.shared)
    && (forall p :: p in y.callers ==> CallerInv(x, y.shared, y.callers[p]))
    && (forall p, q :: p in y.callers && q in y.callers && p != q ==> PairInv(x, y.callers[p], y.callers[q]))
  }

  /** A settled record never changes, and an intent once recorded stays. */
  ghost predicate Settles(rows: Rows, rows': Rows) {
    forall op :: op in rows ==>
      && op in rows' && rows'[op].intent == rows[op].intent
      && (!rows[op].progress.Pending? ==> rows'[op] == rows[op])
  }

  lemma NextSettles(x: Point, s: Shared, l: Local, now: int, result: Option<Observation>)
    requires !Finished(l)
    ensures Settles(s.rows, Next(x, s, l, now, result).0.rows)
  {}

  lemma NextRaw(x: Point, s: Shared, l: Local, now: int, result: Option<Observation>)
    requires !Finished(l) && RawInv(x, s) && CallerInv(x, s, l)
    ensures RawInv(x, Next(x, s, l, now, result).0)
  {
    hide Answer, Settles, AfterReserve, AfterRecord, Point.Validates;
    var s' := Next(x, s, l, now, result).0;
    NextSettles(x, s, l, now, result);
    assert s.nonces <= s'.nonces;
    RawRemains(x, s, s', l);
  }

  lemma RawRemains(x: Point, s: Shared, s': Shared, l: Local)
    requires RawInv(x, s) && CallerInv(x, s, l) && Settles(s.rows, s'.rows) && s.nonces <= s'.nonces
    requires s'.raw == s.raw || (l.Consumed? && s'.raw == s.raw + [l.r])
    ensures RawInv(x, s')
  {
    assert forall r :: r in s'.raw ==> r in s.raw || (l.Consumed? && r == l.r);
  }

  lemma NextKeeps(x: Point, s: Shared, l: Local, now: int, result: Option<Observation>)
    requires !Finished(l) && RawInv(x, s) && CallerInv(x, s, l)
    ensures var (s', l') := Next(x, s, l, now, result);
            RawInv(x, s') && CallerInv(x, s', l') && Settles(s.rows, s'.rows)
  {
    hide RawInv, Settles;
    NextSettles(x, s, l, now, result);
    NextRaw(x, s, l, now, result);
    NextCaller(x, s, l, now, result);
  }

  lemma NextCaller(x: Point, s: Shared, l: Local, now: int, result: Option<Observation>)
    requires !Finished(l) && RawInv(x, s) && CallerInv(x, s, l)
    ensures var (s', l') := Next(x, s, l, now, result); CallerInv(x, s', l')
  {
    hide Point.Marked, Point.Refusal, Reply;
  }

  /** What one caller's step leaves true of another. */
  lemma NextSpares(x: Point, s: Shared, l: Local, now: int, result: Option<Observation>, k: Local)
    requires !Finished(l) && CallerInv(x, s, l) && CallerInv(x, s, k) && PairInv(x, l, k)
    ensures var (s', l') := Next(x, s, l, now, result);
            CallerInv(x, s', k) && PairInv(x, l', k) && PairInv(x, k, l')
  {
    var (s', l') := Next(x, s, l, now, result);
    if l.Consumed? {
      assert forall r :: r in s'.raw <==> r in s.raw || r == l.r;
    }
  }

  lemma DoKeeps(x: Point, y: System, a: Action)
    requires SystemInv(x, y)
    ensures SystemInv(x, Do(x, y, a)) && Settles(y.shared.rows, Do(x, y, a).shared.rows)
  {
    hide RawInv, CallerInv, PairInv, Next, Settles;
    SettlesSelf(y.shared.rows);
    if a.Proceed? && a.caller in y.callers && !Finished(y.callers[a.caller]) {
      var l := y.callers[a.caller];
      NextKeeps(x, y.shared, l, a.now, a.result);
      forall q | q in y.callers && q != a.caller
        ensures var (s', l') := Next(x, y.shared, l, a.now, a.result);
                CallerInv(x, s', y.callers[q]) && PairInv(x, l', y.callers[q]) && PairInv(x, y.callers[q], l') {
        NextSpares(x, y.shared, l, a.now, a.result, y.callers[q]);
      }
    } else if !a.Proceed? {
      NewCallers(x, y, a);
    }
  }

  lemma NewCallers(x: Point, y: System, a: Action)
    requires SystemInv(x, y) && !a.Proceed?
    ensures SystemInv(x, Do(x, y, a))
  {
    hide RawInv, CallerInv, PairInv;
    NewcomerInv(x, y.shared, if a.Enter? then Entered(a.request) else Failed);
  }

  lemma NewcomerInv(x: Point, s: Shared, l: Local)
    requires l.Entered? || l.Failed?
    ensures CallerInv(x, s, l) && forall k :: PairInv(x, l, k) && PairInv(x, k, l)
  {
  }

  lemma SettlesSelf(rows: Rows)
    ensures Settles(rows, rows)
  {}

  lemma {:induction false} RunAllInv(x: Point, actions: seq<Action>)
    ensures SystemInv(x, RunAll(x, actions))
  {
    hide SystemInv;
    if actions == [] {
      StartInv(x);
    } else {
      RunAllInv(x, actions[..|actions| - 1]);
      DoKeeps(x, RunAll(x, actions[..|actions| - 1]), actions[|actions| - 1]);
    }
  }

  lemma StartInv(x: Point)
    ensures SystemInv(x, START)
  {}

  /** At most once: under every interleaving of callers, crashes and lease expiries, no two raw
      executions share an effect, each consumed its own nonce, and each was signed for its intent. */
  lemma RawAtMostOnce(x: Point, actions: seq<Action>)
    ensures var s := RunAll(x, actions).shared;
            && (forall i, j :: 0 <= i < j < |s.raw| ==>
                  x.OpOf(s.raw[i]) != x.OpOf(s.raw[j]) && s.raw[i].capability.nonce != s.raw[j].capability.nonce)
            && (forall r :: r in s.raw ==> Bound(x, r) && r.capability.nonce in s.nonces)
  {
    RunAllInv(x, actions);
  }

  lemma {:induction false} RunSettles(x: Point, actions: seq<Action>, more: seq<Action>)
    ensures Settles(RunAll(x, actions).shared.rows, RunAll(x, actions + more).shared.rows)
  {
    hide Do, SystemInv;
    if more == [] {
      assert actions + more == actions;
    } else {
      var front := more[..|more| - 1];
      RunSettles(x, actions, front);
      assert (actions + more)[..|actions + more| - 1] == actions + front;
      RunAllInv(x, actions + front);
      DoKeeps(x, RunAll(x, actions + front), more[|more| - 1]);
    }
  }

  /** An uninterrupted execution is one of the interleavings. */
  lemma {:induction false} AloneIsRun(x: Point, actions: seq<Action>, p: nat, t: Times,
                                      result: Option<Observation>) returns (more: seq<Action>)
    requires p in RunAll(x, actions).callers
    ensures var y := RunAll(x, actions);
            var end := Alone(x, y.shared, y.callers[p], t, result);
            RunAll(x, actions + more) == System(end.0, y.callers[p := end.1])
    decreases Remaining(RunAll(x, actions).callers[p])
  {
    hide Next;
    var y := RunAll(x, actions);
    var l := y.callers[p];
    if Finished(l) {
      more := [];
      assert actions + more == actions && y.callers[p := l] == y.callers;
    } else {
      var a := Proceed(p, t.At(l), result);
      var next := actions + [a];
      assert next[..|next| - 1] == actions;
      assert RunAll(x, next) == Do(x, y, a);
      NextRemains(x, y.shared, l, t.At(l), result);
      var rest := AloneIsRun(x, next, p, t, result);
      more := [a] + rest;
      assert actions + more == next + rest;
      AloneStep(x, y.shared, l, t, result);
      var end := Alone(x, y.shared, l, t, result);
      assert y.callers[p := RunAll(x, next).callers[p]][p := end.1] == y.callers[p := end.1];
    }
  }

  lemma NextRemains(x: Point, s: Shared, l: Local, now: int, result: Option<Observation>)
    requires !Finished(l)
    ensures Remaining(Next(x, s, l, now, result).1) < Remaining(l)
  {}

  /** Once an outcome is recorded, every later request for the effect is answered from the record
      at any time, whatever happened in between: the same intent by replay, another by conflict. */
  lemma SettledAnswers(x: Point, actions: seq<Action>, more: seq<Action>, r: Request, now: int)
    requires var rows := RunAll(x, actions).shared.rows;
             x.OpOf(r) in rows && !rows[x.OpOf(r)].progress.Pending?
    ensures var row := RunAll(x, actions).shared.rows[x.OpOf(r)];
            var (s, l) := Next(x, RunAll(x, actions + more).shared, Validated(r), now, None);
            && s == RunAll(x, actions + more).shared
            && l == Answered(if row.intent != r.intent.digest then x.Refusal(r.executor, CONFLICT)
                             else if row.progress.Completed? then x.Repeated(r.executor, row.progress.observation)
                             else x.StillUnknown(r.executor, row.progress.recorded))
  {
    RunSettles(x, actions, more);
  }

  // ---- when and for what a raw execution ran ----

  /** The caller took the k-th action from a place. */
  predicate Took(x: Point, actions: seq<Action>, k: nat, l: Local) {
    && k < |actions| && actions[k].Proceed?
    && var y := RunAll(x, actions[..k]); actions[k].caller in y.callers && y.callers[actions[k].caller] == l
  }

  /** The step that brought a caller past its entry to where it stands. */
  lemma {:induction false} Origin(x: Point, actions: seq<Action>, p: nat) returns (k: nat)
    requires p in RunAll(x, actions).callers && !RunAll(x, actions).callers[p].Entered? && !RunAll(x, actions).callers[p].Failed?
    ensures k < |actions| && actions[k].Proceed? && actions[k].caller == p
    ensures var y := RunAll(x, actions[..k]);
            && p in y.callers && !Finished(y.callers[p])
            && Next(x, y.shared, y.callers[p], actions[k].now, actions[k].result).1 == RunAll(x, actions).callers[p]
  {
    hide Next;
    if actions == [] {
      assert false;
    } else {
      var front, a := actions[..|actions| - 1], actions[|actions| - 1];
      var y := RunAll(x, front);
      if a.Proceed? && a.caller == p && p in y.callers && !Finished(y.callers[p]) {
        k := |actions| - 1;
      } else {
        k := Origin(x, front, p);
        assert front[..k] == actions[..k];
      }
    }
  }

  lemma IntoConsumed(x: Point, s: Shared, l: Local, now: int, result: Option<Observation>)
    requires !Finished(l) && Next(x, s, l, now, result).1.Consumed?
    ensures l == Reserved(Next(x, s, l, now, result).1.r)
    ensures x.verify(l.r.capability) && l.r.capability.executor == l.r.executor && l.r.capability.intentDigest == l.r.intent.digest
    ensures l.r.capability.issuedAt <= now < l.r.capability.expiresAt && l.r.capability.nonce !in s.nonces
  {}

  /** A raw execution began after its capability was checked, within its lifetime, for its audience and
      its exact intent, and its nonce was spent for the first time at that moment. */
  ghost predicate AuthorisedAt(x: Point, actions: seq<Action>, k: nat, r: Request) {
    && Took(x, actions, k, Reserved(r))
    && x.verify(r.capability) && r.capability.executor == r.executor && r.capability.intentDigest == r.intent.digest
    && r.capability.issuedAt <= actions[k].now < r.capability.expiresAt
    && r.capability.nonce !in RunAll(x, actions[..k]).shared.nonces
  }

  lemma {:induction false} RawAuthorised(x: Point, actions: seq<Action>, r: Request) returns (k: nat)
    requires r in RunAll(x, actions).shared.raw
    ensures AuthorisedAt(x, actions, k, r)
  {
    hide Next;
    var front, a := actions[..|actions| - 1], actions[|actions| - 1];
    var y := RunAll(x, front);
    if r in y.shared.raw {
      k := RawAuthorised(x, front, r);
      assert front[..k] == actions[..k];
    } else {
      NextRuns(x, y.shared, y.callers[a.caller], a.now, a.result);
      k := Origin(x, front, a.caller);
      assert front[..k] == actions[..k];
      var z := RunAll(x, front[..k]);
      IntoConsumed(x, z.shared, z.callers[a.caller], front[k].now, front[k].result);
    }
  }

  lemma NextRuns(x: Point, s: Shared, l: Local, now: int, result: Option<Observation>)
    requires !Finished(l)
    ensures Next(x, s, l, now, result).0.raw == if l.Consumed? then s.raw + [l.r] else s.raw
  {}

  // ---- what answers and records mean ----

  /** The raw executor returned this for a request of the effect. */
  ghost predicate ReturnedAt(x: Point, actions: seq<Action>, k: nat, op: Op, intent: string, o: Observation) {
    && k < |actions| && actions[k].Proceed? && actions[k].result == Some(o)
    && var y := RunAll(x, actions[..k]);
       var p := actions[k].caller;
       p in y.callers && y.callers[p].Running? && x.OpOf(y.callers[p].r) == op && y.callers[p].r.intent.digest == intent
  }

  ghost predicate Returned(x: Point, actions: seq<Action>, op: Op, intent: string, artifacts: map<string, string>, reason: string) {
    exists k: nat, o :: ReturnedAt(x, actions, k, op, intent, o) && o.success && o.artifacts == artifacts && o.reason == reason
  }

  ghost predicate RowsBacked(x: Point, actions: seq<Action>, rows: Rows) {
    forall op :: op in rows ==>
      && (rows[op].progress.Completed? && rows[op].progress.observation.success ==>
            Returned(x, actions, op, rows[op].intent, rows[op].progress.observation.artifacts, rows[op].progress.observation.reason))
      && (rows[op].progress.Indeterminate? ==> !rows[op].progress.recorded.success)
  }

  lemma ReturnedLater(x: Point, actions: seq<Action>, a: Action, op: Op, intent: string, artifacts: map<string, string>, reason: string)
    requires Returned(x, actions, op, intent, artifacts, reason)
    ensures Returned(x, actions + [a], op, intent, artifacts, reason)
  {
    hide RunAll;
    var k: nat, o :| ReturnedAt(x, actions, k, op, intent, o) && o.success && o.artifacts == artifacts && o.reason == reason;
    assert (actions + [a])[..k] == actions[..k];
    assert ReturnedAt(x, actions + [a], k, op, intent, o);
  }

  lemma RowsLater(x: Point, actions: seq<Action>, a: Action, rows: Rows)
    requires RowsBacked(x, actions, rows)
    ensures RowsBacked(x, actions + [a], rows)
  {
    hide Returned;
    forall op | op in rows && rows[op].progress.Completed? && rows[op].progress.observation.success
      ensures Returned(x, actions + [a], op, rows[op].intent, rows[op].progress.observation.artifacts, rows[op].progress.observation.reason) {
      ReturnedLater(x, actions, a, op, rows[op].intent, rows[op].progress.observation.artifacts, rows[op].progress.observation.reason);
    }
  }

  lemma NextRows(x: Point, actions: seq<Action>, s: Shared, l: Local, now: int, result: Option<Observation>)
    requires !Finished(l) && RowsBacked(x, actions, s.rows)
    requires l.Running? && result.Some? && result.value.success ==>
               Returned(x, actions, x.OpOf(l.r), l.r.intent.digest, result.value.artifacts, result.value.reason)
    ensures RowsBacked(x, actions, Next(x, s, l, now, result).0.rows)
  {
    hide Returned;
  }

  lemma NextAnswers(x: Point, actions: seq<Action>, s: Shared, l: Local, now: int, result: Option<Observation>)
    requires !Finished(l) && RowsBacked(x, actions, s.rows) && Next(x, s, l, now, result).1.Answered?
    requires l.Running? && result.Some? && result.value.success ==>
               Returned(x, actions, x.OpOf(l.r), l.r.intent.digest, result.value.artifacts, result.value.reason)
    ensures var o := Next(x, s, l, now, result).1.observation;
            && (o.success ==> Returned(x, actions, x.OpOf(l.r), l.r.intent.digest, o.artifacts, o.reason))
            && (o.success ==> l.Validated? || l.Running?)
  {
    hide Returned;
  }

  /** Every recorded success is what the raw executor returned, under every interleaving. */
  lemma {:induction false} RecordsBacked(x: Point, actions: seq<Action>)
    ensures RowsBacked(x, actions, RunAll(x, actions).shared.rows)
  {
    hide Next, Returned;
    if actions != [] {
      var front, a := actions[..|actions| - 1], actions[|actions| - 1];
      var y := RunAll(x, front);
      RecordsBacked(x, front);
      RowsLater(x, front, a, y.shared.rows);
      assert actions == front + [a];
      if a.Proceed? && a.caller in y.callers && !Finished(y.callers[a.caller]) {
        StepReturns(x, actions);
        NextRows(x, actions, y.shared, y.callers[a.caller], a.now, a.result);
      }
    }
  }

  lemma StepReturns(x: Point, actions: seq<Action>)
    requires actions != []
    ensures var a := actions[|actions| - 1];
            var y := RunAll(x, actions[..|actions| - 1]);
            a.Proceed? && a.caller in y.callers && y.callers[a.caller].Running? && a.result.Some? && a.result.value.success ==>
              var r := y.callers[a.caller].r;
              Returned(x, actions, x.OpOf(r), r.intent.digest, a.result.value.artifacts, a.result.value.reason)
  {
    hide RunAll;
    var k := |actions| - 1;
    var y := RunAll(x, actions[..k]);
    if actions[k].Proceed? && actions[k].caller in y.callers && y.callers[actions[k].caller].Running? && actions[k].result.Some? {
      var r := y.callers[actions[k].caller].r;
      assert ReturnedAt(x, actions, k, x.OpOf(r), r.intent.digest, actions[k].result.value);
    }
  }

  /** A successful answer means the raw executor returned that success for the very effect and intent
      asked for: nothing refused, busy, in conflict or unknown is ever reported as a success. */
  lemma SuccessReturned(x: Point, actions: seq<Action>, a: Action)
    requires a.Proceed? && a.caller in RunAll(x, actions).callers && !Finished(RunAll(x, actions).callers[a.caller])
    requires var l := RunAll(x, actions + [a]).callers[a.caller]; l.Answered? && l.observation.success
    ensures var (r, o) := (RunAll(x, actions).callers[a.caller].r, RunAll(x, actions + [a]).callers[a.caller].observation);
            Returned(x, actions + [a], x.OpOf(r), r.intent.digest, o.artifacts, o.reason)
  {
    hide Next, Returned, RowsBacked;
    var y, all := RunAll(x, actions), actions + [a];
    assert all[..|actions|] == actions;
    RecordsBacked(x, actions);
    RowsLater(x, actions, a, y.shared.rows);
    StepReturns(x, all);
    NextAnswers(x, all, y.shared, y.callers[a.caller], a.now, a.result);
  }

  /** A request whose capability does not check out, now or when it is to be spent, changes no record
      of another effect, spends nothing and runs nothing. */
  lemma RefusalSpendsNothing(x: Point, s: Shared, l: Local, now: int, result: Option<Observation>)
    requires l.Entered? || l.Reserved?
    requires !(x.verify(l.r.capability) && l.r.capability.executor == l.r.executor && l.r.capability.intentDigest == l.r.intent.digest
               && l.r.capability.issuedAt <= now < l.r.capability.expiresAt)
    ensures var (s', l') := Next(x, s, l, now, result);
            && s' == s
            && (l.Entered? ==> l'.Answered? && !l'.observation.success && Get(l'.observation.metadata, "capability_verified") == Bool(false))
            && (l.Reserved? ==> l' == Refused(l.r))
  {
    assert "executor_id"[0] != "capability_verified"[0];
  }

  /** A reservation is leased for its whole duration: until then the same intent is told to wait, and
      from then on the effect is given up as unknown and never handed out again. */
  lemma LeaseRuns(rows: Rows, op: Op, intent: string, now: int, duration: int, later: int)
    requires Answer(rows, op, intent, now).Fresh?
    ensures var after := AfterReserve(rows, op, intent, now, duration);
            && (later < now + duration ==>
                  Answer(after, op, intent, later) == Busy && AfterReserve(after, op, intent, later, duration) == after)
            && (later >= now + duration ==>
                  && Answer(after, op, intent, later) == Unknown(EXPIRED)
                  && AfterReserve(after, op, intent, later, duration) == rows[op := Row(intent, Indeterminate(EXPIRED))])
            && (forall other :: other != intent ==> Answer(after, op, other, later) == Conflict)
  {
    assert rows[op := Row(intent, Pending(now + duration))][op := Row(intent, Indeterminate(EXPIRED))]
        == rows[op := Row(intent, Indeterminate(EXPIRED))];
  }
}
