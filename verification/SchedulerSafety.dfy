/** What any interleaving of scheduler calls keeps, over all runs and iterations sharing one database. */
module SchedulerSafety {
  import opened GraphSchema
  import opened Manifest
  import opened Monitor
  import opened Attestations
  import opened Scheduler

  /** Reserved nodes carry the stamp of their first attempt. */
  ghost predicate AllStamped(u: Setup, key: Key, started: map<string, Payload>) {
    forall n :: n in started ==>
      && Label(Get(started[n], "node_instance_id")) == InstanceId(u, key, n, 1)
      && Number(Get(started[n], "attempt")) == 1
  }

  ghost predicate RowInv(u: Setup, key: Key, row: Row) {
    && KeyOk(key) && Inv(u.manifest, row.state)
    && row.attempts.Keys == Touched(row.state)
    && (forall n :: n in row.attempts ==> row.attempts[n] == 1)
    && AllStamped(u, key, row.state.started)
  }

  /** The event is the first attempt of a node its run has reserved or completed. */
  ghost predicate EventInv(u: Setup, db: Database, e: Event) {
    var key := Key(e.run, e.iteration);
    && key in db.rows && e.node in Touched(db.rows[key].state)
    && e.attempt == 1 && e.instance == InstanceId(u, key, e.node, 1)
  }

  ghost predicate DbInv(u: Setup, db: Database) {
    && (forall key :: key in db.rows ==> RowInv(u, key, db.rows[key]))
    && (forall e :: e in db.events ==> EventInv(u, db, e))
    && (forall i, j :: 0 <= i < j < |db.events| ==> db.events[i].id != db.events[j].id)
  }

  /** The completion a call relies on. */
  function Signed(u: Setup, c: Call): Option<Completion> {
    match c
    case Completing(_, _, _, _, _, signed, _) => Some(signed)
    case Advancing(_, _, node, _, _, _, _, completion, _) => if External(u, node) then completion else None
    case Reserving(_, _, _, _, _, _) => None
  }

  function Laid(c: Call): Payload {
    if c.Completing? then map[] else c.payload
  }

  /** The monitor move a successful call makes. */
  function MoveOf(u: Setup, c: Call): Move {
    if Signed(u, c).Some? then Complete(c.node, CompletionPayload(Signed(u, c).value, u.seal(Signed(u, c).value), Laid(c)))
    else if c.Reserving? then Reserve(c.node, Stamp(c.payload, InstanceId(u, c.key, c.node, 1), 1))
    else Advance(c.node, Laid(c))
  }

  lemma FreshNode(m: Manifest, s: State, node: string, payload: Payload, other: Payload)
    requires Inv(m, s) && Enabled(m, s, node, payload)
    ensures node !in Touched(s) && Enabled(m, s, node, other)
  {
    hide Enabled, Justified;
    EnabledIgnoresPayload(m, s, node, payload);
    EnabledIgnoresPayload(m, s, node, other);
  }

  /** The payload of the event a successful call appends. */
  function Emitted(u: Setup, c: Call): Payload {
    var signed := Signed(u, c);
    if signed.Some? then map["lifecycle" := Str(signed.value.result.Text())] + CompletionPayload(signed.value, u.seal(signed.value), Laid(c))
    else if c.Reserving? then map["lifecycle" := Str("started")] + c.payload
    else Laid(c)
  }

  /** A call made one monitor move in its own row and appended one event of attempt 1. */
  ghost predicate Moved(u: Setup, db: Database, c: Call, db': Database) {
    var row, row', move := RowAt(db, c.key), RowAt(db', c.key), MoveOf(u, c);
    && KeyOk(c.key) && Inv(u.manifest, row.state)
    && Apply(u.manifest, row.state, move) == Some(row'.state)
    && row'.attempts == (if move.Complete? then row.attempts else row.attempts[c.node := 1])
    && db'.rows == db.rows[c.key := row']
    && Recordable(db, c.id, c.event_type, c.parents)
    && |db'.events| == |db.events| + 1 && db'.events[..|db.events|] == db.events
    && var e := db'.events[|db.events|];
       && e.id == c.id && Key(e.run, e.iteration) == c.key && e.node == c.node && e.parents == c.parents
       && e.attempt == 1 && e.instance == InstanceId(u, c.key, c.node, 1)
       && e.graph == u.graph && e.payload == Emitted(u, c)
  }

  lemma RowState(u: Setup, db: Database, key: Key)
    requires DbInv(u, db)
    ensures Inv(u.manifest, RowAt(db, key).state)
    ensures RowAt(db, key).attempts.Keys == Touched(RowAt(db, key).state)
  {
    assert Inv(u.manifest, INITIAL);
  }

  lemma AdvancedMoves(u: Setup, db: Database, c: Call)
    requires DbInv(u, db) && KeyOk(c.key) && c.Advancing? && !External(u, c.node) && Advanced(u, db, c).Some?
    ensures Moved(u, db, c, Advanced(u, db, c).value)
  {
    hide Recordable, Enabled, DbInv, Inv, InstanceId, External;
    RowState(u, db, c.key);
    FreshNode(u.manifest, RowAt(db, c.key).state, c.node, c.payload, c.payload);
  }

  lemma ReservedMoves(u: Setup, db: Database, c: Call)
    requires DbInv(u, db) && KeyOk(c.key) && c.Reserving? && Reserved(u, db, c).Some?
    ensures Moved(u, db, c, Reserved(u, db, c).value)
  {
    hide Recordable, Enabled, DbInv, Inv, InstanceId, Stamp;
    RowState(u, db, c.key);
    var row, payload := RowAt(db, c.key), MoveOf(u, c).payload;
    FreshNode(u.manifest, row.state, c.node, c.payload, payload);
    assert row.state.started[c.node := c.payload][c.node := payload] == row.state.started[c.node := payload];
  }

  /** The completion a call relies on validates at a time for the instance the call completes. */
  predicate ValidAt(u: Setup, c: Call, now: int)
    requires Signed(u, c).Some?
  {
    && u.verifier.Some?
    && u.verifier.value.Validates(Signed(u, c).value, u.graph, u.manifest.contract_digest, c.key.run, c.node,
                                  InstanceId(u, c.key, c.node, 1), now)
  }

  lemma CompletedMoves(u: Setup, db: Database, c: Call, refs: Refs, now: int)
    requires DbInv(u, db) && Signed(u, c).Some?
    requires Completed(u, db, c.key, c.id, c.node, c.event_type, Signed(u, c).value, Laid(c), c.parents, refs, now).Some?
    ensures Moved(u, db, c, Completed(u, db, c.key, c.id, c.node, c.event_type, Signed(u, c).value, Laid(c), c.parents, refs, now).value)
    ensures ValidAt(u, c, now)
  {
    hide Recordable, Inv, InstanceId, CompletionPayload, External, Verifier.Validates, DbInv, Label, Number;
    RowState(u, db, c.key);
    StartedRow(u, db, c.key, c.node);
  }

  lemma StartedRow(u: Setup, db: Database, key: Key, node: string)
    requires DbInv(u, db) && node in RowAt(db, key).state.started
    ensures var started := RowAt(db, key).state.started[node];
            && Label(Get(started, "node_instance_id")) == InstanceId(u, key, node, 1)
            && Number(Get(started, "attempt")) == 1 && KeyOk(key)
  {
    hide Inv, InstanceId;
    assert RowInv(u, key, db.rows[key]);
  }

  lemma StepMoves(u: Setup, db: Database, c: Call)
    requires DbInv(u, db) && Step(u, db, c).Some?
    ensures Moved(u, db, c, After(u, db, c))
    ensures Signed(u, c).Some? ==> Owned(u, c)
  {
    hide Recordable, DbInv, InstanceId, External, Advanced, Reserved, Completed, ValidAt, Owned, Moved;
    if Signed(u, c).Some? { ValidatesOwned(u, c); }
    match c
    case Reserving(_, _, _, _, _, _) =>
      ReservedMoves(u, db, c);
    case Completing(_, _, _, _, _, signed, now) =>
      CompletedMoves(u, db, c, CompletionRefs(signed), now);
    case Advancing(_, _, _, _, _, _, refs, completion, now) => {
      if External(u, c.node) {
        CompletedMoves(u, db, c, refs, now);
      } else {
        AdvancedMoves(u, db, c);
      }
    }
  }

  /** The completion is bound to the instance the call completes. */
  predicate BoundTo(u: Setup, c: Call, signed: Completion) {
    && signed.graph == u.graph && signed.contract == u.manifest.contract_digest && signed.run == c.key.run
    && signed.node == c.node && signed.instance == InstanceId(u, c.key, c.node, 1)
  }

  /** The completion carries a signature that verifies under its producer, a trusted workload active at
      the time, in a role it holds and the node is assigned to, and it is neither expired, nor issued in
      the future, nor too long lived. */
  predicate SignedByOwner(v: Verifier, signed: Completion, node: string, now: int) {
    && v.verify(signed.producer, signed)
    && signed.producer in v.identities
    && var workload := v.identities[signed.producer];
       && workload.validFrom <= now < workload.validUntil && (workload.revokedAt.None? || now < workload.revokedAt.value)
       && signed.role in workload.roles && node in v.owners && v.owners[node] == signed.role
       && now < signed.expires && signed.issued - v.skew <= now && signed.expires - signed.issued <= v.maximumTtl
  }

  /** The completion a call relies on was signed by the node's owner for the instance it completes. */
  ghost predicate Owned(u: Setup, c: Call)
    requires Signed(u, c).Some? && !c.Reserving?
  {
    && u.verifier.Some? && BoundTo(u, c, Signed(u, c).value)
    && SignedByOwner(u.verifier.value, Signed(u, c).value, c.node, c.now)
  }

  /** What the verifier accepts is exactly a bound completion signed by the owner. */
  lemma ValidatesOwned(u: Setup, c: Call)
    requires Signed(u, c).Some? && !c.Reserving?
    ensures ValidAt(u, c, c.now) <==> Owned(u, c)
  {
    hide InstanceId;
  }

  lemma StampRead(payload: Payload, instance: string, attempt: int)
    ensures Label(Get(Stamp(payload, instance, attempt), "node_instance_id")) == instance
    ensures Number(Get(Stamp(payload, instance, attempt), "attempt")) == attempt
  {
    assert "node_instance_id"[0] != "attempt"[0];
  }

  lemma StartedAfter(s: State, m: Manifest, move: Move)
    requires Apply(m, s, move).Some?
    ensures Apply(m, s, move).value.started ==
              if move.Reserve? then s.started[move.id := move.payload] else s.started - {move.id}
    ensures move.Complete? ==> move.id in s.started
  {
    hide Enabled;
  }

  lemma MoveStamped(u: Setup, key: Key, s: State, move: Move, s': State)
    requires AllStamped(u, key, s.started) && Apply(u.manifest, s, move) == Some(s')
    requires move.Reserve? ==> Label(Get(move.payload, "node_instance_id")) == InstanceId(u, key, move.id, 1)
    requires move.Reserve? ==> Number(Get(move.payload, "attempt")) == 1
    ensures AllStamped(u, key, s'.started)
  {
    hide InstanceId, Apply, Label, Number;
    StartedAfter(s, u.manifest, move);
  }

  lemma MoveKeepsRow(u: Setup, key: Key, row: Row, move: Move, row': Row)
    requires WellFormed(u.manifest) && RowInv(u, key, row) && Apply(u.manifest, row.state, move) == Some(row'.state)
    requires row'.attempts == if move.Complete? then row.attempts else row.attempts[move.id := 1]
    requires move.Reserve? ==> Label(Get(move.payload, "node_instance_id")) == InstanceId(u, key, move.id, 1)
    requires move.Reserve? ==> Number(Get(move.payload, "attempt")) == 1
    ensures RowInv(u, key, row') && Extends(row.state, row'.state) && move.id in Touched(row'.state)
    ensures !move.Reserve? ==> move.id in row'.state.completed
  {
    hide Inv, Extends, WellFormed, InstanceId, Apply, AllStamped;
    StepKeeps(u.manifest, row.state, move);
    StepExtends(u.manifest, row.state, move);
    StepShape(u.manifest, row.state, move);
    StartedAfter(row.state, u.manifest, move);
    MoveStamped(u, key, row.state, move, row'.state);
  }

  /** What a successful call keeps of its own row. */
  lemma StepKeepsRow(u: Setup, db: Database, c: Call)
    requires WellFormed(u.manifest) && DbInv(u, db) && Step(u, db, c).Some?
    ensures RowInv(u, c.key, RowAt(After(u, db, c), c.key))
    ensures Extends(RowAt(db, c.key).state, RowAt(After(u, db, c), c.key).state)
    ensures c.node in Touched(RowAt(After(u, db, c), c.key).state)
    ensures !c.Reserving? ==> c.node in RowAt(After(u, db, c), c.key).state.completed
  {
    hide Step, After, Inv, Extends, WellFormed, InstanceId, Recordable, Apply, Touched, Stamp;
    StepMoves(u, db, c);
    StampRead(Laid(c), InstanceId(u, c.key, c.node, 1), 1);
    InitialRow(u, c.key);
    MoveKeepsRow(u, c.key, RowAt(db, c.key), MoveOf(u, c), RowAt(After(u, db, c), c.key));
  }

  lemma InitialRow(u: Setup, key: Key)
    ensures KeyOk(key) ==> RowInv(u, key, Row(INITIAL, map[]))
  {}

  ghost predicate Grows(db: Database, db': Database) {
    && (forall key :: key in db.rows ==> key in db'.rows && Extends(db.rows[key].state, db'.rows[key].state))
    && db.events <= db'.events
  }

  /** The shape of a successful step, without what it means. */
  lemma StepWrites(u: Setup, db: Database, c: Call)
    requires DbInv(u, db) && Step(u, db, c).Some?
    ensures After(u, db, c).rows == db.rows[c.key := RowAt(After(u, db, c), c.key)]
    ensures var e := After(u, db, c).events[|db.events|];
            && After(u, db, c).events == db.events + [e]
            && e.id == c.id && Key(e.run, e.iteration) == c.key && e.node == c.node
            && e.attempt == 1 && e.instance == InstanceId(u, c.key, c.node, 1)
    ensures forall e :: e in db.events ==> e.id != c.id
  {
    hide Step, After, DbInv, InstanceId, Inv, Apply, MoveOf, Emitted;
    StepMoves(u, db, c);
    var events := After(u, db, c).events;
    assert events == events[..|db.events|] + [events[|db.events|]];
  }

  lemma RowsGrow(u: Setup, db: Database, c: Call)
    requires WellFormed(u.manifest) && DbInv(u, db) && Step(u, db, c).Some?
    ensures forall key :: key in db.rows ==>
              key in After(u, db, c).rows && Extends(db.rows[key].state, After(u, db, c).rows[key].state)
  {
    hide Step, After, DbInv, Extends, WellFormed, InstanceId;
    StepWrites(u, db, c);
    StepKeepsRow(u, db, c);
    forall key | key in db.rows ensures Extends(db.rows[key].state, After(u, db, c).rows[key].state) {
      if key != c.key { ExtendsSelf(db.rows[key].state); }
    }
  }

  lemma EventsKept(u: Setup, db: Database, c: Call)
    requires WellFormed(u.manifest) && DbInv(u, db) && Step(u, db, c).Some?
    ensures forall e :: e in After(u, db, c).events ==> EventInv(u, After(u, db, c), e)
  {
    hide Step, After, RowInv, Extends, WellFormed, InstanceId;
    StepWrites(u, db, c);
    StepKeepsRow(u, db, c);
    RowsGrow(u, db, c);
    forall e | e in After(u, db, c).events ensures EventInv(u, After(u, db, c), e) {
      if e in db.events {
        assert EventInv(u, db, e);
        var key := Key(e.run, e.iteration);
        ExtendsTouched(db.rows[key].state, After(u, db, c).rows[key].state);
      }
    }
  }

  lemma StepKeepsDb(u: Setup, db: Database, c: Call)
    requires WellFormed(u.manifest) && DbInv(u, db) && Step(u, db, c).Some?
    ensures DbInv(u, After(u, db, c)) && Grows(db, After(u, db, c))
  {
    hide Step, After, RowInv, EventInv, Extends, WellFormed, InstanceId;
    StepWrites(u, db, c);
    StepKeepsRow(u, db, c);
    RowsGrow(u, db, c);
    EventsKept(u, db, c);
  }

  lemma ExtendsSelf(s: State)
    ensures Extends(s, s)
  {}

  lemma ExtendsTouched(s: State, t: State)
    requires Extends(s, t)
    ensures Touched(s) <= Touched(t)
  {}

  /** Over every sequence of calls the database keeps its invariant. */
  lemma {:induction false} DbRunInv(u: Setup, calls: seq<Call>)
    requires WellFormed(u.manifest)
    ensures DbInv(u, DbRun(u, calls))
  {
    hide Step, DbInv, WellFormed;
    if calls == [] {
      EmptyInv(u);
    } else {
      DbRunInv(u, calls[..|calls| - 1]);
      if Step(u, DbRun(u, calls[..|calls| - 1]), calls[|calls| - 1]).Some? {
        StepKeepsDb(u, DbRun(u, calls[..|calls| - 1]), calls[|calls| - 1]);
      }
    }
  }

  lemma EmptyInv(u: Setup)
    ensures DbInv(u, EMPTY)
  {}

  // ---- theorems over every sequence of calls ----

  ghost predicate Accepted(u: Setup, calls: seq<Call>, i: nat)
    requires i < |calls|
  {
    Step(u, DbRun(u, calls[..i]), calls[i]).Some?
  }

  lemma GrowsSelf(db: Database)
    ensures Grows(db, db)
  {
    forall key | key in db.rows ensures Extends(db.rows[key].state, db.rows[key].state) { ExtendsSelf(db.rows[key].state); }
  }

  lemma GrowsTransitive(a: Database, b: Database, c: Database)
    requires Grows(a, b) && Grows(b, c)
    ensures Grows(a, c)
  {
    hide Extends;
    forall key | key in a.rows ensures Extends(a.rows[key].state, c.rows[key].state) {
      ExtendsTransitive(a.rows[key].state, b.rows[key].state, c.rows[key].state);
    }
  }

  /** Rows only grow and events are only appended. */
  lemma {:induction false} DbRunGrows(u: Setup, calls: seq<Call>, i: nat)
    requires WellFormed(u.manifest) && i <= |calls|
    ensures Grows(DbRun(u, calls[..i]), DbRun(u, calls))
  {
    hide Step, DbInv, WellFormed, Grows;
    if i == |calls| {
      assert calls[..i] == calls;
      GrowsSelf(DbRun(u, calls));
    } else {
      var front := calls[..|calls| - 1];
      DbRunGrows(u, front, i);
      assert front[..i] == calls[..i];
      DbRunInv(u, front);
      if Step(u, DbRun(u, front), calls[|calls| - 1]).Some? {
        StepKeepsDb(u, DbRun(u, front), calls[|calls| - 1]);
      } else {
        GrowsSelf(DbRun(u, front));
      }
      GrowsTransitive(DbRun(u, calls[..i]), DbRun(u, front), DbRun(u, calls));
    }
  }

  /** Every stored row is a run of the monitor, whatever the other runs and iterations did. */
  lemma {:induction false} RowsAreRuns(u: Setup, calls: seq<Call>, key: Key) returns (moves: seq<Move>)
    requires WellFormed(u.manifest) && key in DbRun(u, calls).rows
    ensures DbRun(u, calls).rows[key].state == Run(u.manifest, moves)
  {
    hide Step, DbInv, Inv, WellFormed, Apply;
    var front := calls[..|calls| - 1];
    var db, c := DbRun(u, front), calls[|calls| - 1];
    var start := [];
    if key in db.rows {
      start := RowsAreRuns(u, front, key);
    }
    moves := start;
    DbRunInv(u, front);
    if Step(u, db, c).Some? {
      StepMoves(u, db, c);
      if c.key == key {
        moves := start + [MoveOf(u, c)];
        assert moves[..|moves| - 1] == start;
      }
    }
  }

  /** Every event is the first attempt of its node, and no two events share an identity. */
  lemma EventsOfFirstAttempts(u: Setup, calls: seq<Call>)
    requires WellFormed(u.manifest)
    ensures forall e :: e in DbRun(u, calls).events ==> EventInv(u, DbRun(u, calls), e)
    ensures forall i, j :: 0 <= i < j < |DbRun(u, calls).events| ==> DbRun(u, calls).events[i].id != DbRun(u, calls).events[j].id
  {
    hide EventInv, RowInv;
    DbRunInv(u, calls);
  }

  /** The digest of instances is taken to be injective. */
  ghost predicate Injective(hash: Instance -> string) {
    forall a, b :: hash(a) == hash(b) ==> a == b
  }

  lemma InstanceOf(u: Setup, key: Key, node: string, key': Key, node': string)
    requires Injective(u.hash) && InstanceId(u, key, node, 1) == InstanceId(u, key', node', 1)
    ensures key == key' && node == node'
  {
    assert Instance(key.run, u.graph, node, key.iteration, 1) == Instance(key'.run, u.graph, node', key'.iteration, 1);
  }

  /** Events of one instance belong to one node of one iteration of one run. */
  lemma InstancesUnique(u: Setup, calls: seq<Call>, e: Event, f: Event)
    requires WellFormed(u.manifest) && Injective(u.hash) && e in DbRun(u, calls).events && f in DbRun(u, calls).events
    requires e.instance == f.instance
    ensures e.run == f.run && e.iteration == f.iteration && e.node == f.node
  {
    hide Injective, DbRun, InstanceId, Touched;
    EventsOfFirstAttempts(u, calls);
    InstanceOf(u, Key(e.run, e.iteration), e.node, Key(f.run, f.iteration), f.node);
  }

  /** An accepted completion names the instance it completes, and that node stays completed. */
  lemma CompletedStays(u: Setup, calls: seq<Call>, i: nat)
    requires WellFormed(u.manifest) && i < |calls| && Accepted(u, calls, i) && Signed(u, calls[i]).Some?
    ensures var c, rows := calls[i], DbRun(u, calls).rows;
            && Signed(u, c).value.instance == InstanceId(u, c.key, c.node, 1)
            && c.key in rows && c.node in rows[c.key].state.completed
  {
    hide Step, Inv, WellFormed, InstanceId, Recordable, RowInv, MoveOf;
    var db := DbRun(u, calls[..i]);
    DbRunInv(u, calls[..i]);
    StepMoves(u, db, calls[i]);
    StepKeepsRow(u, db, calls[i]);
    assert calls[..i + 1][..i] == calls[..i];
    assert DbRun(u, calls[..i + 1]) == After(u, db, calls[i]);
    DbRunGrows(u, calls, i + 1);
  }

  /** An accepted completion finds its node reserved and not yet completed. */
  lemma CompletesReserved(u: Setup, db: Database, c: Call)
    requires DbInv(u, db) && Step(u, db, c).Some? && Signed(u, c).Some?
    ensures c.key in db.rows && c.node in db.rows[c.key].state.started && c.node !in db.rows[c.key].state.completed
    ensures Signed(u, c).value.instance == InstanceId(u, c.key, c.node, 1)
  {
    hide InstanceId, Recordable, DbInv;
    StepMoves(u, db, c);
  }

  /** At most one completion is ever admitted for an instance, so each signed completion is
      admitted at most once across all runs and iterations. */
  lemma CompletionAdmittedOnce(u: Setup, calls: seq<Call>, i: nat, j: nat)
    requires WellFormed(u.manifest) && Injective(u.hash) && i < j < |calls|
    requires Accepted(u, calls, i) && Accepted(u, calls, j)
    requires Signed(u, calls[i]).Some? && Signed(u, calls[j]).Some?
    ensures Signed(u, calls[i]).value.instance != Signed(u, calls[j]).value.instance
  {
    hide Step, InstanceId, Injective, DbInv;
    assert calls[..j][..i] == calls[..i];
    CompletedStays(u, calls[..j], i);
    DbRunInv(u, calls[..j]);
    CompletesReserved(u, DbRun(u, calls[..j]), calls[j]);
    if Signed(u, calls[i]).value.instance == Signed(u, calls[j]).value.instance {
      InstanceOf(u, calls[i].key, calls[i].node, calls[j].key, calls[j].node);
      assert false;
    }
  }

  /** What a completed node records as success is the signed result exactly when the caller lays
      no other success over it; through the completion entry point it always is. */
  lemma SuccessIsSigned(u: Setup, db: Database, c: Call)
    requires DbInv(u, db) && Step(u, db, c).Some? && Signed(u, c).Some?
    ensures var events, signed := RowAt(After(u, db, c), c.key).state.events, Signed(u, c).value;
            && c.node in events
            && (Get(events[c.node], "success") == Bool(signed.result == Succeeded)
                <==> ("success" in Laid(c) ==> Laid(c)["success"] == Bool(signed.result == Succeeded)))
            && (c.Completing? ==> Get(events[c.node], "success") == Bool(signed.result == Succeeded))
  {
    hide Step, After, DbInv, InstanceId, Recordable, Inv, CompletionPayload;
    StepMoves(u, db, c);
    RecordedSuccess(Signed(u, c).value, u.seal(Signed(u, c).value), Laid(c));
  }

  lemma RecordedSuccess(c: Completion, seal: string, payload: Payload)
    ensures Get(CompletionPayload(c, seal, payload), "success") ==
              if "success" in payload then payload["success"] else Bool(c.result == Succeeded)
  {
    assert |"success"| == 7 && |"result"| == 6 && |"completion_digest"| == 17 && |"producer_identity"| == 17
           && |"producer_role"| == 13 && |"artifact_digest"| == 15;
  }

  lemma {:induction false} StartedWasReserved(u: Setup, calls: seq<Call>, key: Key, node: string) returns (i: nat)
    requires WellFormed(u.manifest) && key in DbRun(u, calls).rows && node in DbRun(u, calls).rows[key].state.started
    ensures i < |calls| && Accepted(u, calls, i) && calls[i].Reserving? && calls[i].key == key && calls[i].node == node
  {
    hide Step, DbInv, WellFormed, InstanceId, Recordable;
    var front := calls[..|calls| - 1];
    var db, c := DbRun(u, front), calls[|calls| - 1];
    DbRunInv(u, front);
    if key in db.rows && node in db.rows[key].state.started {
      i := StartedWasReserved(u, front, key, node);
      assert front[..i] == calls[..i];
    } else {
      i := |calls| - 1;
      StepMoves(u, db, c);
      StartedAfter(RowAt(db, key).state, u.manifest, MoveOf(u, c));
    }
  }

  /** A completion is admitted only after a reservation of the same instance. */
  lemma CompletionAfterReservation(u: Setup, calls: seq<Call>, j: nat) returns (i: nat)
    requires WellFormed(u.manifest) && j < |calls| && Accepted(u, calls, j) && Signed(u, calls[j]).Some?
    ensures i < j && Accepted(u, calls, i) && calls[i].Reserving?
    ensures InstanceId(u, calls[i].key, calls[i].node, 1) == Signed(u, calls[j]).value.instance
  {
    hide Step, DbInv, WellFormed, InstanceId;
    DbRunInv(u, calls[..j]);
    CompletesReserved(u, DbRun(u, calls[..j]), calls[j]);
    i := StartedWasReserved(u, calls[..j], calls[j].key, calls[j].node);
    assert calls[..j][..i] == calls[..i];
  }

  /** The row's node records the payload laid down by a call's completion. */
  predicate Records(u: Setup, db: Database, key: Key, node: string, c: Call) {
    && key in db.rows && node in db.rows[key].state.completed && node in db.rows[key].state.events
    && c.key == key && c.node == node
    && db.rows[key].state.events[node] == MoveOf(u, c).payload
  }

  /** A completed node of an external role was completed by a signed completion of its owner, and
      still records what that completion laid down. */
  lemma {:induction false} ExternalByOwner(u: Setup, calls: seq<Call>, key: Key, node: string) returns (i: nat)
    requires WellFormed(u.manifest) && External(u, node)
    requires key in DbRun(u, calls).rows && node in DbRun(u, calls).rows[key].state.completed
    ensures i < |calls| && Accepted(u, calls, i) && Records(u, DbRun(u, calls), key, node, calls[i])
    ensures Signed(u, calls[i]).Some? && Owned(u, calls[i])
  {
    hide Step, DbInv, WellFormed, InstanceId, Moved, External, Owned, Extends, Records, MoveOf;
    var front := calls[..|calls| - 1];
    var db, c := DbRun(u, front), calls[|calls| - 1];
    DbRunInv(u, front);
    if key in db.rows && node in db.rows[key].state.completed {
      i := ExternalByOwner(u, front, key, node);
      assert front[..i] == calls[..i];
      if Step(u, db, c).Some? {
        RowsGrow(u, db, c);
        RecordsStay(u, db, After(u, db, c), key, node, calls[i]);
      }
    } else {
      i := |calls| - 1;
      NewlyCompleted(u, db, c, key, node);
      StepMoves(u, db, c);
      ExternalNeedsSigned(u, db, c);
    }
  }

  lemma RecordsStay(u: Setup, db: Database, db': Database, key: Key, node: string, c: Call)
    requires Records(u, db, key, node, c) && key in db'.rows && Extends(db.rows[key].state, db'.rows[key].state)
    ensures Records(u, db', key, node, c)
  {
    hide MoveOf;
  }

  /** A node becomes completed in a row only by a call on it that is no reservation. */
  lemma NewlyCompleted(u: Setup, db: Database, c: Call, key: Key, node: string)
    requires DbInv(u, db) && Step(u, db, c).Some? && node !in RowAt(db, key).state.completed
    requires key in After(u, db, c).rows && node in After(u, db, c).rows[key].state.completed
    ensures c.key == key && c.node == node && !c.Reserving?
    ensures Records(u, After(u, db, c), key, node, c)
  {
    hide Step, After, DbInv, InstanceId, Recordable, Emitted, Apply;
    StepMoves(u, db, c);
    if c.key == key {
      StepShape(u.manifest, RowAt(db, key).state, MoveOf(u, c));
      CompletedRecords(u.manifest, RowAt(db, key).state, MoveOf(u, c));
    }
  }

  lemma CompletedRecords(m: Manifest, s: State, move: Move)
    requires Apply(m, s, move).Some? && !move.Reserve?
    ensures move.id in Apply(m, s, move).value.events && Apply(m, s, move).value.events[move.id] == move.payload
  {
    hide Enabled;
  }

  lemma ExternalNeedsSigned(u: Setup, db: Database, c: Call)
    requires Step(u, db, c).Some? && External(u, c.node) && !c.Reserving?
    ensures Signed(u, c).Some?
  {}

  function EventsOf(events: seq<Event>, key: Key): nat {
    if events == [] then 0
    else
      var e := events[|events| - 1];
      EventsOf(events[..|events| - 1], key) + if Key(e.run, e.iteration) == key then 1 else 0
  }

  lemma {:induction false} EventsSpent(u: Setup, calls: seq<Call>, key: Key)
    requires WellFormed(u.manifest)
    ensures EventsOf(DbRun(u, calls).events, key) <= Spent(RowAt(DbRun(u, calls), key).state)
  {
    hide Step, DbInv, WellFormed, InstanceId, Recordable, Spent, Inv;
    if calls != [] {
      var front := calls[..|calls| - 1];
      var db, c := DbRun(u, front), calls[|calls| - 1];
      EventsSpent(u, front, key);
      DbRunInv(u, front);
      if Step(u, db, c).Some? {
        StepMoves(u, db, c);
        if c.key == key { StepSpends(u.manifest, RowAt(db, key).state, MoveOf(u, c)); }
      }
    }
  }

  /** An iteration of a run emits at most two events per node of the graph. */
  lemma IterationEventsBounded(u: Setup, calls: seq<Call>, key: Key)
    requires WellFormed(u.manifest)
    ensures EventsOf(DbRun(u, calls).events, key) <= 2 * |u.manifest.nodes|
  {
    hide DbRun, Spent;
    EventsSpent(u, calls, key);
    if key in DbRun(u, calls).rows {
      var moves := RowsAreRuns(u, calls, key);
      AdmittedBound(u.manifest, moves);
    } else {
      AdmittedBound(u.manifest, []);
    }
  }
}
