/** The durable scheduler: one row of monitor state per run and iteration, and one table of causal events. */
module Scheduler {
  import opened Text
  import opened GraphSchema
  import opened Manifest
  import opened Monitor
  import opened Attestations

  datatype Instance = Instance(run: string, graph: string, node: string, iteration: int, attempt: int)

  datatype Refs = Refs(inputs: map<string, string>, outputs: map<string, string>, authorization: string, receipts: seq<string>)

  datatype Event = Event(
    id: string, run: string, graph: string, instance: string, node: string, event_type: string,
    iteration: int, attempt: int, parents: seq<string>, refs: Refs, payload: Payload)

  /** A scheduler's fixed parts; hash and seal are the digests of an instance and of a completion. */
  datatype Setup = Setup(
    manifest: Manifest, graph: string, hash: Instance -> string, seal: Completion -> string, verifier: Option<Verifier>)

  datatype Key = Key(run: string, iteration: int)

  datatype Row = Row(state: State, attempts: map<string, int>)

  datatype Database = Database(rows: map<Key, Row>, events: seq<Event>)

  const EMPTY: Database := Database(map[], [])
  const NO_REFS: Refs := Refs(map[], map[], "", [])

  /** One operation a caller attempts, with the event identity drawn for it and the time it runs. */
  datatype Call =
    | Advancing(id: string, key: Key, node: string, event_type: string, payload: Payload, parents: seq<string>,
                refs: Refs, completion: Option<Completion>, now: int)
    | Reserving(id: string, key: Key, node: string, event_type: string, payload: Payload, parents: seq<string>)
    | Completing(id: string, key: Key, node: string, event_type: string, parents: seq<string>, signed: Completion, now: int)

  function RowAt(db: Database, key: Key): Row {
    if key in db.rows then db.rows[key] else Row(INITIAL, map[])
  }

  function Attempt(row: Row, node: string): int {
    (if node in row.attempts then row.attempts[node] else 0) + 1
  }

  function InstanceId(u: Setup, key: Key, node: string, attempt: int): string {
    u.hash(Instance(key.run, u.graph, node, key.iteration, attempt))
  }

  /** The event constructor and the primary key of the event table raise otherwise. */
  predicate Recordable(db: Database, id: string, event_type: string, parents: seq<string>) {
    && !Blank(id) && event_type != ""
    && (forall i, j :: 0 <= i < j < |parents| ==> parents[i] != parents[j])
    && (forall e :: e in db.events ==> e.id != id)
  }

  predicate KeyOk(key: Key) {
    !Blank(key.run) && key.iteration >= 1
  }

  /** The node's role keeps its completion away from the controller. */
  predicate External(u: Setup, node: string) {
    && u.verifier.Some? && node in ById(u.manifest.nodes)
    && Role(ById(u.manifest.nodes)[node]) !in {"controller", "scheduler"}
  }

  function Role(n: Node): string {
    if "producer_role" in n.metadata then n.metadata["producer_role"] else "controller"
  }

  function Written(db: Database, key: Key, row: Row, event: Event): Database {
    Database(db.rows[key := row], db.events + [event])
  }

  function Advanced(u: Setup, db: Database, c: Call): Option<Database>
    requires c.Advancing?
  {
    var row := RowAt(db, c.key);
    var next := Apply(u.manifest, row.state, Advance(c.node, c.payload));
    if next.None? || !Recordable(db, c.id, c.event_type, c.parents) then None
    else
      var attempt := Attempt(row, c.node);
      Some(Written(db, c.key, Row(next.value, row.attempts[c.node := attempt]),
                   Event(c.id, c.key.run, u.graph, InstanceId(u, c.key, c.node, attempt), c.node, c.event_type,
                         c.key.iteration, attempt, c.parents, c.refs, c.payload)))
  }

  /** A reservation is stored with the instance and attempt it was made for. */
  function Stamp(payload: Payload, instance: string, attempt: int): Payload {
    payload["node_instance_id" := Str(instance)]["attempt" := Int(attempt)]
  }

  function Stamped(s: State, node: string, payload: Payload, instance: string, attempt: int): State {
    s.(started := s.started[node := Stamp(payload, instance, attempt)])
  }

  function Reserved(u: Setup, db: Database, c: Call): Option<Database>
    requires c.Reserving?
  {
    var row := RowAt(db, c.key);
    var next := Apply(u.manifest, row.state, Reserve(c.node, c.payload));
    if next.None? || !Recordable(db, c.id, c.event_type, c.parents) then None
    else
      var attempt := Attempt(row, c.node);
      var instance := InstanceId(u, c.key, c.node, attempt);
      Some(Written(db, c.key, Row(Stamped(next.value, c.node, c.payload, instance, attempt), row.attempts[c.node := attempt]),
                   Event(c.id, c.key.run, u.graph, instance, c.node, c.event_type,
                         c.key.iteration, attempt, c.parents, NO_REFS, map["lifecycle" := Str("started")] + c.payload)))
  }

  function Label(v: Value): string {
    if v.Null? then "" else Render(v)
  }

  function Number(v: Value): int {
    if v.Int? then v.number else 1
  }

  function Completed(u: Setup, db: Database, key: Key, id: string, node: string, event_type: string, c: Completion,
                     payload: Payload, parents: seq<string>, refs: Refs, now: int): Option<Database> {
    var row := RowAt(db, key);
    if u.verifier.None? || node !in row.state.started then None
    else
      var started := row.state.started[node];
      var instance := Label(Get(started, "node_instance_id"));
      var record := CompletionPayload(c, u.seal(c), payload);
      if !u.verifier.value.Validates(c, u.graph, u.manifest.contract_digest, key.run, node, instance, now)
         || !Recordable(db, id, event_type, parents) then None
      else
        Some(Written(db, key, Row(Finish(row.state, node, record), row.attempts),
                     Event(id, key.run, u.graph, instance, node, event_type, key.iteration, Number(Get(started, "attempt")),
                           parents, refs, map["lifecycle" := Str(c.result.Text())] + record)))
  }

  function CompletionRefs(c: Completion): Refs {
    Refs(c.inputs, map["primary" := c.artifact], if c.authority == [] then "" else c.authority[0], c.evidence)
  }

  /** The database after a call, or None where the source raises and rolls back. */
  function Step(u: Setup, db: Database, c: Call): Option<Database> {
    match c
    case Reserving(_, key, _, _, _, _) =>
      if KeyOk(key) then Reserved(u, db, c) else None
    case Completing(id, key, node, event_type, parents, signed, now) =>
      Completed(u, db, key, id, node, event_type, signed, map[], parents, CompletionRefs(signed), now)
    case Advancing(id, key, node, event_type, payload, parents, refs, completion, now) =>
      if !KeyOk(key) || node !in ById(u.manifest.nodes) then None
      else if !External(u, node) then Advanced(u, db, c)
      else if completion.None? then None
      else Completed(u, db, key, id, node, event_type, completion.value, payload, parents, refs, now)
  }

  function After(u: Setup, db: Database, c: Call): Database {
    var next := Step(u, db, c);
    if next.Some? then next.value else db
  }

  /** The database after a sequence of attempted calls of any runs and iterations. */
  function DbRun(u: Setup, calls: seq<Call>): Database {
    if calls == [] then EMPTY else After(u, DbRun(u, calls[..|calls| - 1]), calls[|calls| - 1])
  }

  // ---- the scheduler itself ----

  class DurableGraphScheduler {
    const setup: Setup
    var rows: map<Key, Row>
    var events: seq<Event>

    ghost function Contents(): Database
      reads this
    {
      Database(rows, events)
    }

    constructor (setup: Setup)
      ensures this.setup == setup && Contents() == EMPTY
    {
      this.setup := setup;
      rows := map[];
      events := [];
    }

    /** The stored state of a run's iteration, or the initial one. */
    method Load(key: Key) returns (row: Row)
      ensures row == RowAt(Contents(), key)
    {
      row := if key in rows then rows[key] else Row(INITIAL, map[]);
    }

    /** Inserts an event; a clash of identities or an ill-formed event raises. */
    method Append(event: Event) returns (ok: bool)
      modifies this`events
      ensures ok <==> Recordable(old(Contents()), event.id, event.event_type, event.parents)
      ensures events == if ok then old(events) + [event] else old(events)
    {
      ok := !Blank(event.id) && event.event_type != ""
            && (forall i, j :: 0 <= i < j < |event.parents| ==> event.parents[i] != event.parents[j]);
      var k := 0;
      while k < |events|
        invariant k <= |events| && events == old(events)
        invariant ok <==> Recordable(Database(rows, events[..k]), event.id, event.event_type, event.parents)
      {
        assert events[..k + 1] == events[..k] + [events[k]];
        if events[k].id == event.id { ok := false; }
        k := k + 1;
      }
      assert events[..|events|] == events;
      if ok { events := events + [event]; }
    }

    method Save(key: Key, state: State, attempts: map<string, int>)
      modifies this`rows
      ensures rows == old(rows)[key := Row(state, attempts)]
    {
      rows := rows[key := Row(state, attempts)];
    }

    /** Moves a node over its monitor step; an external node only on a validated completion. */
    method Advance(id: string, key: Key, node: string, event_type: string, payload: Payload, parents: seq<string>,
                   refs: Refs, completion: Option<Completion>, now: int) returns (ok: bool)
      modifies this
      ensures ok <==> Step(setup, old(Contents()), Advancing(id, key, node, event_type, payload, parents, refs, completion, now)).Some?
      ensures Contents() == After(setup, old(Contents()), Advancing(id, key, node, event_type, payload, parents, refs, completion, now))
    {
      hide Recordable, Apply;
      var nodes := ById(setup.manifest.nodes);
      if !KeyOk(key) || node !in nodes { return false; }
      if setup.verifier.Some? && Role(nodes[node]) !in {"controller", "scheduler"} {
        if completion.None? { return false; }
        ok := CompleteDirect(id, key, node, event_type, completion.value, payload, parents, refs, now);
        return;
      }
      var row := Load(key);
      var next := Apply(setup.manifest, row.state, Monitor.Advance(node, payload));
      if next.None? { return false; }
      var attempts := row.attempts;
      var attempt := (if node in attempts then attempts[node] else 0) + 1;
      attempts := attempts[node := attempt];
      var event := Event(id, key.run, setup.graph, InstanceId(setup, key, node, attempt), node, event_type,
                         key.iteration, attempt, parents, refs, payload);
      ok := Append(event);
      if ok { Save(key, next.value, attempts); }
    }

    /** Reserves an enabled node before its producer is asked to act. */
    method Reserve(id: string, key: Key, node: string, event_type: string, payload: Payload,
                   parents: seq<string>) returns (ok: bool)
      modifies this
      ensures ok <==> Step(setup, old(Contents()), Reserving(id, key, node, event_type, payload, parents)).Some?
      ensures Contents() == After(setup, old(Contents()), Reserving(id, key, node, event_type, payload, parents))
    {
      hide Recordable, Apply;
      if !KeyOk(key) { return false; }
      var row := Load(key);
      var next := Apply(setup.manifest, row.state, Monitor.Reserve(node, payload));
      if next.None? { return false; }
      var attempts := row.attempts;
      var attempt := (if node in attempts then attempts[node] else 0) + 1;
      attempts := attempts[node := attempt];
      var instance := InstanceId(setup, key, node, attempt);
      var state := Stamped(next.value, node, payload, instance, attempt);
      var event := Event(id, key.run, setup.graph, instance, node, event_type, key.iteration, attempt, parents, NO_REFS,
                         map["lifecycle" := Str("started")] + payload);
      ok := Append(event);
      if ok { Save(key, state, attempts); }
    }

    /** Accepts a producer's signed completion of a reserved node. */
    method Complete(id: string, key: Key, node: string, event_type: string, parents: seq<string>, signed: Completion,
                    now: int) returns (ok: bool)
      modifies this
      ensures ok <==> Step(setup, old(Contents()), Completing(id, key, node, event_type, parents, signed, now)).Some?
      ensures Contents() == After(setup, old(Contents()), Completing(id, key, node, event_type, parents, signed, now))
    {
      ok := CompleteDirect(id, key, node, event_type, signed, map[], parents, CompletionRefs(signed), now);
    }

    method CompleteDirect(id: string, key: Key, node: string, event_type: string, c: Completion, payload: Payload,
                          parents: seq<string>, refs: Refs, now: int) returns (ok: bool)
      modifies this
      ensures ok <==> Completed(setup, old(Contents()), key, id, node, event_type, c, payload, parents, refs, now).Some?
      ensures Contents() == if ok then Completed(setup, old(Contents()), key, id, node, event_type, c, payload, parents, refs, now).value
                            else old(Contents())
    {
      hide Recordable, CompletionPayload, Verifier.Validates;
      if setup.verifier.None? { return false; }
      var row := Load(key);
      if node !in row.state.started { return false; }
      var started := row.state.started[node];
      var instance := Label(Get(started, "node_instance_id"));
      if !setup.verifier.value.Validates(c, setup.graph, setup.manifest.contract_digest, key.run, node, instance, now) {
        return false;
      }
      var record := CompletionPayload(c, setup.seal(c), payload);
      var event := Event(id, key.run, setup.graph, instance, node, event_type, key.iteration, Number(Get(started, "attempt")), parents, refs,
                         map["lifecycle" := Str(c.result.Text())] + record);
      ok := Append(event);
      if ok { Save(key, Finish(row.state, node, record), row.attempts); }
    }
  }
}
