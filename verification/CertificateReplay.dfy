/** Replaying a trace simulates the scheduler that emitted it. */
module CertificateReplay {
  import opened GraphSchema
  import opened Manifest
  import opened Monitor
  import opened Attestations
  import opened Scheduler
  import opened SchedulerSafety
  import opened Certificate

  const LIFECYCLE: string := "lifecycle"

  /** The graph has no predicate over the key the scheduler reserves for itself. */
  ghost predicate Clean(m: Manifest) {
    forall e :: e in m.edges ==> !Reads(e.pred)
  }

  predicate Reads(p: Predicate) {
    !p.Always? && p.field == LIFECYCLE
  }

  /** Nor does a caller's payload or a signed fact use it. */
  predicate CleanCall(u: Setup, c: Call) {
    LIFECYCLE !in Laid(c) && (Signed(u, c).Some? ==> LIFECYCLE !in Signed(u, c).value.facts)
  }

  ghost predicate SameBut(p: Payload, q: Payload) {
    forall k :: k != LIFECYCLE ==> Get(p, k) == Get(q, k) && (k in p <==> k in q)
  }

  /** The same completed nodes, reservations and events, except for the reserved key. */
  ghost predicate Similar(s: State, t: State) {
    && s.completed == t.completed && s.started.Keys == t.started.Keys && s.events.Keys == t.events.Keys
    && forall id :: id in s.events ==> SameBut(s.events[id], t.events[id])
  }

  lemma PassesSame(e: Edge, p: Payload, q: Payload)
    requires !Reads(e.pred) && SameBut(p, q)
    ensures Passes(e, p) == Passes(e, q)
  {
    assert "success" != LIFECYCLE && "passed" != LIFECYCLE by {
      assert "success"[0] != LIFECYCLE[0] && "passed"[0] != LIFECYCLE[0];
    }
    if !e.pred.Always? {
      assert Get(p, e.pred.field) == Get(q, e.pred.field);
    }
  }

  lemma HoldsSame(m: Manifest, s: State, t: State, e: Edge)
    requires Clean(m) && Similar(s, t) && e in m.edges
    ensures Holds(s, e) == Holds(t, e)
  {
    hide Passes, SameBut;
    if e.source in s.events { PassesSame(e, s.events[e.source], t.events[e.source]); }
  }

  lemma JustifiedSame(m: Manifest, s: State, t: State, id: string)
    requires Clean(m) && Similar(s, t)
    ensures Justified(m, s, id) == Justified(m, t, id)
  {
    hide Holds, Similar, Clean, LastJoin, Join.SatisfiedBy;
    IncomingEdges(m, m.edges, id);
    forall e | e in Incoming(m, m.edges, id) ensures Holds(s, e) == Holds(t, e) { HoldsSame(m, s, t, e); }
    assert Matched(m, s, id) == Matched(m, t, id);
  }

  lemma EnabledSame(m: Manifest, s: State, t: State, id: string, p: Payload, q: Payload)
    requires Clean(m) && Inv(m, s) && Inv(m, t) && Similar(s, t)
    ensures Enabled(m, s, id, p) == Enabled(m, t, id, q)
  {
    hide Justified, Clean, Enabled, SameBut, LastJoin, Incoming;
    EnabledIgnoresPayload(m, s, id, p);
    EnabledIgnoresPayload(m, t, id, q);
    JustifiedSame(m, s, t, id);
  }

  /** Moves of one kind on one node keep two states similar. */
  lemma MoveSimilar(m: Manifest, s: State, t: State, move: Move, other: Move)
    requires Clean(m) && Inv(m, s) && Inv(m, t) && Similar(s, t) && Apply(m, s, move).Some?
    requires move.id == other.id && SameBut(move.payload, other.payload)
    requires (move.Reserve? && other.Reserve?) || (move.Complete? && other.Complete?) || (move.Advance? && other.Advance?)
    ensures Apply(m, t, other).Some? && Similar(Apply(m, s, move).value, Apply(m, t, other).value)
  {
    hide Clean, Enabled, SameBut, Inv;
    EnabledSame(m, s, t, move.id, move.payload, other.payload);
  }

  lemma MoveSimilarReserve(m: Manifest, s: State, t: State, id: string, p: Payload, q: Payload)
    requires Clean(m) && Inv(m, s) && Inv(m, t) && Similar(s, t) && Apply(m, s, Reserve(id, p)).Some?
    ensures Apply(m, t, Reserve(id, q)).Some? && Similar(Apply(m, s, Reserve(id, p)).value, Apply(m, t, Reserve(id, q)).value)
  {
    hide Clean, Enabled, SameBut, Inv;
    EnabledSame(m, s, t, id, p, q);
  }

  lemma EmittedSame(u: Setup, c: Call)
    requires CleanCall(u, c) && !c.Reserving?
    ensures SameBut(MoveOf(u, c).payload, Emitted(u, c))
    ensures Get(Emitted(u, c), LIFECYCLE) != Str("started")
  {
    var signed := Signed(u, c);
    if signed.Some? {
      var record := CompletionPayload(signed.value, u.seal(signed.value), Laid(c));
      RecordClean(signed.value, u.seal(signed.value), Laid(c));
      assert signed.value.result.Text()[0] in {'s', 'f', 'i'};
      assert "started"[1] == 't' && "succeeded"[1] == 'u';
    }
  }

  lemma RecordClean(c: Completion, seal: string, payload: Payload)
    requires LIFECYCLE !in payload && LIFECYCLE !in c.facts
    ensures LIFECYCLE !in CompletionPayload(c, seal, payload)
  {
    assert |LIFECYCLE| == 9 && |"result"| == 6 && |"success"| == 7 && |"completion_digest"| == 17;
    assert |"producer_identity"| == 17 && |"producer_role"| == 13 && |"artifact_digest"| == 15;
  }

  lemma EmittedStarted(u: Setup, c: Call)
    requires CleanCall(u, c) && c.Reserving?
    ensures Get(Emitted(u, c), LIFECYCLE) == Str("started")
  {}

  /** A successful call's event replays to a state similar to the scheduler's own. */
  lemma EventReplays(u: Setup, s: State, s': State, t: State, c: Call, e: Event)
    requires Clean(u.manifest) && Inv(u.manifest, s) && Inv(u.manifest, t) && Similar(s, t) && CleanCall(u, c)
    requires Apply(u.manifest, s, MoveOf(u, c)) == Some(s') && MoveOf(u, c).id == c.node
    requires e.node == c.node && e.payload == Emitted(u, c)
    ensures Apply(u.manifest, t, MoveFor(t, e)).Some? && Similar(s', Apply(u.manifest, t, MoveFor(t, e)).value)
  {
    hide Clean, Similar, SameBut, Inv, Emitted, CompletionPayload, CleanCall, Apply;
    var m, move := u.manifest, MoveOf(u, c);
    SimilarStarted(s, t);
    MoveJustified(m, s, move);
    if c.Reserving? {
      EmittedStarted(u, c);
      MoveSimilarReserve(m, s, t, c.node, move.payload, e.payload);
    } else {
      EmittedSame(u, c);
      if move.Complete? { CompletesStarted(m, s, move); }
      MoveSimilar(m, s, t, move, MoveFor(t, e));
    }
  }

  lemma SimilarStarted(s: State, t: State)
    requires Similar(s, t)
    ensures s.started.Keys == t.started.Keys
  {}

  lemma CompletesStarted(m: Manifest, s: State, move: Move)
    requires Apply(m, s, move).Some? && move.Complete?
    ensures move.id in s.started
  {}

  /** The events of one run, in the order they were stored. */
  function TraceOf(events: seq<Event>, run: string): seq<Event> {
    if events == [] then []
    else
      var rest, e := TraceOf(events[..|events| - 1], run), events[|events| - 1];
      if e.run == run then rest + [e] else rest
  }

  /** The replayed states are those of the run's stored rows. */
  ghost predicate Matches(u: Setup, db: Database, run: string, states: States) {
    && (forall it :: it in states <==> Key(run, it) in db.rows)
    && forall it :: it in states ==> Similar(db.rows[Key(run, it)].state, states[it]) && Inv(u.manifest, states[it])
  }

  lemma SimilarSelf(s: State)
    ensures Similar(s, s)
  {}

  lemma StateMatches(u: Setup, db: Database, key: Key, states: States)
    requires DbInv(u, db) && Matches(u, db, key.run, states)
    ensures Similar(RowAt(db, key).state, StateAt(states, key.iteration)) && Inv(u.manifest, StateAt(states, key.iteration))
  {
    hide Similar;
    SimilarSelf(INITIAL);
  }

  lemma StepReplays(u: Setup, db: Database, c: Call, e: Event, states: States)
    requires WellFormed(u.manifest) && Clean(u.manifest) && DbInv(u, db) && CleanCall(u, c)
    requires Step(u, db, c).Some? && e == After(u, db, c).events[|After(u, db, c).events| - 1]
    requires Matches(u, db, c.key.run, states)
    ensures e.run == c.key.run && TraceOf(After(u, db, c).events, c.key.run) == TraceOf(db.events, c.key.run) + [e]
    ensures ReplayStep(u.manifest, states, e).Some? && Matches(u, After(u, db, c), c.key.run, ReplayStep(u.manifest, states, e).value)
  {
    hide WellFormed, Clean, DbInv, CleanCall, Step, After, Similar, Inv, Recordable, InstanceId, Apply, MoveFor,
         Emitted;
    var m, db', key := u.manifest, After(u, db, c), c.key;
    StepMoves(u, db, c);
    assert db'.events[..|db'.events| - 1] == db.events;
    StateMatches(u, db, key, states);
    var s, t := RowAt(db, key).state, StateAt(states, key.iteration);
    MoveNode(u, c);
    EventReplays(u, s, RowAt(db', key).state, t, c, e);
    StepKeeps(m, t, MoveFor(t, e));
  }

  lemma MoveNode(u: Setup, c: Call)
    ensures MoveOf(u, c).id == c.node
  {}

  lemma OtherRun(u: Setup, db: Database, c: Call, run: string, states: States)
    requires DbInv(u, db) && Step(u, db, c).Some? && c.key.run != run && Matches(u, db, run, states)
    ensures TraceOf(After(u, db, c).events, run) == TraceOf(db.events, run) && Matches(u, After(u, db, c), run, states)
  {
    hide DbInv, Step, After, Similar, Inv, Recordable, InstanceId, Apply, MoveOf, Emitted;
    StepMoves(u, db, c);
    assert After(u, db, c).events[..|After(u, db, c).events| - 1] == db.events;
  }

  /** One more attempted call: the run's trace is extended by its event, or left alone. */
  lemma CallReplays(u: Setup, db: Database, c: Call, run: string)
    requires WellFormed(u.manifest) && Clean(u.manifest) && DbInv(u, db) && CleanCall(u, c)
    requires var replayed := Replay(u.manifest, TraceOf(db.events, run)); replayed.Some? && Matches(u, db, run, replayed.value)
    ensures var replayed := Replay(u.manifest, TraceOf(After(u, db, c).events, run));
            replayed.Some? && Matches(u, After(u, db, c), run, replayed.value)
  {
    hide WellFormed, Clean, DbInv, CleanCall, Step, Matches, ReplayStep, TraceOf;
    var before := TraceOf(db.events, run);
    var states := Replay(u.manifest, before).value;
    if Step(u, db, c).Some? {
      if c.key.run == run {
        StepAppends(u, db, c);
        var e := After(u, db, c).events[|After(u, db, c).events| - 1];
        StepReplays(u, db, c, e, states);
        assert (before + [e])[..|before|] == before;
      } else {
        OtherRun(u, db, c, run, states);
      }
    }
  }

  /** For every interleaving of calls over any runs and iterations, the trace of each run replays,
      and the replay ends with the completed nodes, reservations and events the scheduler stored,
      but for the reserved key. */
  lemma {:induction false} TraceReplays(u: Setup, calls: seq<Call>, run: string)
    requires WellFormed(u.manifest) && Clean(u.manifest)
    requires forall c :: c in calls ==> CleanCall(u, c)
    ensures var replayed := Replay(u.manifest, TraceOf(DbRun(u, calls).events, run));
            replayed.Some? && Matches(u, DbRun(u, calls), run, replayed.value)
  {
    hide WellFormed, Clean, DbInv, CleanCall, After, Matches, Replay, TraceOf;
    if calls == [] {
      NothingReplays(u, run);
    } else {
      var front, c := calls[..|calls| - 1], calls[|calls| - 1];
      TraceReplays(u, front, run);
      DbRunInv(u, front);
      CallReplays(u, DbRun(u, front), c, run);
    }
  }

  lemma StepAppends(u: Setup, db: Database, c: Call)
    requires DbInv(u, db) && Step(u, db, c).Some?
    ensures |After(u, db, c).events| == |db.events| + 1
  {
    hide DbInv, Step, After, Recordable;
    StepMoves(u, db, c);
  }

  lemma NothingReplays(u: Setup, run: string)
    ensures TraceOf(EMPTY.events, run) == [] && Replay(u.manifest, []) == Some(map[])
    ensures Matches(u, EMPTY, run, map[])
  {}

  // ---- certificates ----

  /** The certificate a run's trace is given, once signed. */
  function CertificateFromTrace(v: Trust, run: string, graph: string, decision: string, keyId: string,
                                trace: seq<Event>, signature: string): Certificate {
    Certificate(run, graph, v.realised(Instances(trace)), Root(v, trace), decision, keyId, signature)
  }

  lemma {:induction false} TraceMembers(events: seq<Event>, run: string)
    ensures forall e :: e in TraceOf(events, run) <==> e in events && e.run == run
  {
    if events != [] {
      TraceMembers(events[..|events| - 1], run);
      assert events == events[..|events| - 1] + [events[|events| - 1]];
    }
  }

  lemma {:induction false} TraceDistinct(events: seq<Event>, run: string)
    requires DistinctIds(events)
    ensures DistinctIds(TraceOf(events, run))
  {
    if events != [] {
      var k := |events| - 1;
      TraceDistinct(events[..k], run);
      TraceMembers(events[..k], run);
      forall e | e in TraceOf(events[..k], run) ensures e.id != events[k].id {
        var i :| 0 <= i < k && events[..k][i] == e;
        assert events[i].id != events[k].id;
      }
    }
  }

  /** All events carry the digest of the scheduler's graph. */
  lemma {:induction false} EventsOfGraph(u: Setup, calls: seq<Call>)
    requires WellFormed(u.manifest)
    ensures forall e :: e in DbRun(u, calls).events ==> e.graph == u.graph
  {
    hide DbInv, Step, Recordable, WellFormed, InstanceId, Emitted, MoveOf;
    if calls != [] {
      var front := calls[..|calls| - 1];
      var db, c := DbRun(u, front), calls[|calls| - 1];
      EventsOfGraph(u, front);
      DbRunInv(u, front);
      if Step(u, db, c).Some? {
        StepMoves(u, db, c);
        var events := After(u, db, c).events;
        assert events == db.events + [events[|db.events|]];
      }
    }
  }

  /** A signed certificate over a run the scheduler emitted is accepted exactly when the trace is
      non-empty, its causal parents are in it, and it ends in the decision: the replay never fails.
      That the scheduler exists shows that its manifest passed the static check. */
  lemma EmittedTraceValid(u: Setup, calls: seq<Call>, v: Trust, run: string, decision: string, signature: string)
    requires WellFormed(u.manifest) && Clean(u.manifest) && v.graph(u.manifest) == u.graph && Monitorable(v, u.manifest)
    requires forall c :: c in calls ==> CleanCall(u, c)
    requires var trace := TraceOf(DbRun(u, calls).events, run);
             v.verify(CertificateFromTrace(v, run, u.graph, decision, v.keyId, trace, signature))
    ensures var trace := TraceOf(DbRun(u, calls).events, run);
            Valid(v, CertificateFromTrace(v, run, u.graph, decision, v.keyId, trace, signature), trace, Some(u.manifest))
            <==> trace != [] && ParentsInside(trace) && EndsAs(trace, decision)
  {
    hide WellFormed, Clean, DbInv, CleanCall, Matches, DbRun, TraceOf, Instances, Replay, EndsAs, ParentsInside,
         DistinctIds, Monitorable;
    TraceReplays(u, calls, run);
    DbRunInv(u, calls);
    DbDistinct(u, DbRun(u, calls));
    TraceDistinct(DbRun(u, calls).events, run);
    TraceMembers(DbRun(u, calls).events, run);
    EventsOfGraph(u, calls);
  }

  lemma DbDistinct(u: Setup, db: Database)
    requires DbInv(u, db)
    ensures DistinctIds(db.events)
  {}

  /** The digests of events and of lists of digests are taken to be injective. */
  ghost predicate InjectiveDigests(v: Trust) {
    && (forall e, f :: v.event(e) == v.event(f) ==> e == f)
    && forall a, b :: v.list(a) == v.list(b) ==> a == b
  }

  lemma RootPinsTrace(v: Trust, trace: seq<Event>, other: seq<Event>)
    requires InjectiveDigests(v) && Root(v, trace) == Root(v, other)
    ensures trace == other
  {
    var a, b := Digests(v, trace), Digests(v, other);
    assert a == b;
    forall i | 0 <= i < |trace| ensures trace[i] == other[i] {
      assert a[i] == v.event(trace[i]) && b[i] == v.event(other[i]);
    }
  }

  /** Whatever trace is presented with a certificate of a run the scheduler emitted, if it validates
      it is the run's own trace, event for event, and its replay is the state the scheduler stored;
      leaving out, adding, changing or reordering an event never validates. */
  lemma CertificatePinsRun(u: Setup, calls: seq<Call>, v: Trust, run: string, decision: string, signature: string,
                           presented: seq<Event>)
    requires WellFormed(u.manifest) && Clean(u.manifest) && InjectiveDigests(v)
    requires forall c :: c in calls ==> CleanCall(u, c)
    requires var cert := CertificateFromTrace(v, run, u.graph, decision, v.keyId, TraceOf(DbRun(u, calls).events, run), signature);
             Valid(v, cert, presented, Some(u.manifest))
    ensures presented == TraceOf(DbRun(u, calls).events, run)
    ensures Replay(u.manifest, presented).Some? && Matches(u, DbRun(u, calls), run, Replay(u.manifest, presented).value)
  {
    hide WellFormed, Clean, CleanCall, Matches, DbRun, TraceOf, Instances, Replay, EndsAs, ParentsInside, DistinctIds,
         Monitorable, Root, InjectiveDigests;
    RootPinsTrace(v, presented, TraceOf(DbRun(u, calls).events, run));
    TraceReplays(u, calls, run);
  }

  /** Every replayed iteration is a run of the monitor. */
  lemma {:induction false} ReplayIsRun(m: Manifest, trace: seq<Event>, iteration: int) returns (moves: seq<Move>)
    requires Replay(m, trace).Some? && iteration in Replay(m, trace).value
    ensures Replay(m, trace).value[iteration] == Run(m, moves)
  {
    hide Apply, MoveFor;
    var front, e := trace[..|trace| - 1], trace[|trace| - 1];
    var states := Replay(m, front).value;
    var start := [];
    if iteration in states {
      start := ReplayIsRun(m, front, iteration);
    }
    moves := start;
    if e.iteration == iteration {
      moves := start + [MoveFor(StateAt(states, iteration), e)];
      assert moves[..|moves| - 1] == start;
    }
  }

  /** The last event's node is reserved or completed in its iteration. */
  lemma LastEventTouched(m: Manifest, trace: seq<Event>)
    requires trace != [] && Replay(m, trace).Some?
    ensures var e := trace[|trace| - 1];
            e.iteration in Replay(m, trace).value && e.node in Touched(Replay(m, trace).value[e.iteration])
  {
    hide Enabled;
  }

  predicate Reservation(e: Event) {
    Get(e.payload, LIFECYCLE) == Str("started")
  }

  /** The last event's node is completed exactly when the event is not a reservation. */
  lemma LastEventCompleted(m: Manifest, trace: seq<Event>)
    requires trace != [] && Replay(m, trace).Some?
    ensures var e := trace[|trace| - 1];
            && e.iteration in Replay(m, trace).value
            && (e.node in Replay(m, trace).value[e.iteration].completed <==> !Reservation(e))
  {
    hide Enabled, Inv;
    var e := trace[|trace| - 1];
    var s := StateAt(Replay(m, trace[..|trace| - 1]).value, e.iteration);
    if Reservation(e) { ReservesOpen(m, s, e.node, e.payload); }
  }

  lemma ReservesOpen(m: Manifest, s: State, id: string, payload: Payload)
    requires Apply(m, s, Reserve(id, payload)).Some?
    ensures id !in s.completed
  {}

  // ---- the trace of a sequence of moves ----

  /** A move whose event replays as itself. */
  predicate Traceable(move: Move) {
    (move.Reserve? && Get(move.payload, LIFECYCLE) == Str("started"))
    || (move.Advance? && Get(move.payload, LIFECYCLE) != Str("started"))
  }

  function Numbered(k: nat): string {
    seq(k + 1, _ => 'e')
  }

  function EventFor(run: string, graph: string, k: nat, move: Move): Event {
    Event(Numbered(k), run, graph, move.id, move.id, "transition", 1, 1, [], NO_REFS, move.payload)
  }

  function TraceFor(run: string, graph: string, moves: seq<Move>): seq<Event> {
    seq(|moves|, k requires 0 <= k < |moves| => EventFor(run, graph, k, moves[k]))
  }

  /** Admitted moves replay, in one iteration, to the state they run to. */
  lemma {:induction false} MovesReplay(m: Manifest, moves: seq<Move>, run: string, graph: string)
    requires WellFormed(m) && Admitted(m, moves) == |moves| && forall k :: 0 <= k < |moves| ==> Traceable(moves[k])
    ensures Replay(m, TraceFor(run, graph, moves)) == Some(if moves == [] then map[] else map[1 := Run(m, moves)])
  {
    hide Apply, WellFormed, Traceable, MoveFor;
    if moves != [] {
      var front, move := moves[..|moves| - 1], moves[|moves| - 1];
      var trace := TraceFor(run, graph, moves);
      assert trace[..|trace| - 1] == TraceFor(run, graph, front);
      AdmittedAtMost(m, front);
      MovesReplay(m, front, run, graph);
      RunInv(m, front);
      MoveForItself(m, Run(m, front), move, trace[|trace| - 1]);
      var states := Replay(m, TraceFor(run, graph, front)).value;
      assert StateAt(states, 1) == Run(m, front);
      assert states[1 := Run(m, moves)] == map[1 := Run(m, moves)];
    }
  }

  lemma {:induction false} AdmittedAtMost(m: Manifest, moves: seq<Move>)
    ensures Admitted(m, moves) <= |moves|
  {
    hide Apply;
    if moves != [] { AdmittedAtMost(m, moves[..|moves| - 1]); }
  }

  lemma MoveForItself(m: Manifest, s: State, move: Move, e: Event)
    requires Inv(m, s) && Apply(m, s, move).Some? && Traceable(move) && e.node == move.id && e.payload == move.payload
    ensures MoveFor(s, e) == move
  {
    hide Inv, Apply;
    MoveJustified(m, s, move);
  }

  lemma TraceForShape(run: string, graph: string, moves: seq<Move>)
    ensures var trace := TraceFor(run, graph, moves);
            && DistinctIds(trace) && ParentsInside(trace) && forall e :: e in trace ==> e.run == run && e.graph == graph
  {
    var trace := TraceFor(run, graph, moves);
    forall i, j | 0 <= i < j < |trace| ensures trace[i].id != trace[j].id {
      assert |trace[i].id| == i + 1 && |trace[j].id| == j + 1;
    }
  }
}
