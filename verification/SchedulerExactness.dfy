/** What each scheduler call does to a reachable database, written out: when it succeeds, and the row
    and the event it leaves. */
module SchedulerExactness {
  import opened Text
  import opened GraphSchema
  import opened Manifest
  import opened Monitor
  import opened Attestations
  import opened Scheduler
  import opened SchedulerSafety

  /** The event has a name nobody used, a type, and parents that are not repeated. */
  ghost predicate Fresh(db: Database, id: string, event_type: string, parents: seq<string>) {
    && (exists c :: c in id && !IsSpace(c)) && 0 < |event_type| && |set p | p in parents| == |parents|
    && forall e :: e in db.events ==> e.id != id
  }

  lemma FreshRecordable(db: Database, id: string, event_type: string, parents: seq<string>)
    ensures Recordable(db, id, event_type, parents) <==> Fresh(db, id, event_type, parents)
  {
    hide IsSpace;
    DistinctExactly(parents);
  }

  /** The node is produced outside: a verifier is configured and its role, the controller's by default,
      is neither the controller's nor the scheduler's. */
  ghost predicate Outside(u: Setup, node: string) {
    && u.verifier.Some?
    && exists n :: n in u.manifest.nodes && n.node_id == node && "producer_role" in n.metadata
         && n.metadata["producer_role"] != "controller" && n.metadata["producer_role"] != "scheduler"
  }

  lemma OutsideExternal(u: Setup, node: string)
    requires forall i, j :: 0 <= i < j < |u.manifest.nodes| ==> u.manifest.nodes[i].node_id != u.manifest.nodes[j].node_id
    ensures External(u, node) <==> Outside(u, node)
  {
    ByIdNodes(u.manifest.nodes);
  }

  /** The event of a call: the first attempt of the node in its run and iteration. */
  function EventOf(u: Setup, c: Call, refs: Refs, payload: Payload): Event {
    Event(c.id, c.key.run, u.graph, u.hash(Instance(c.key.run, u.graph, c.node, c.key.iteration, 1)), c.node, c.event_type,
          c.key.iteration, 1, c.parents, refs, payload)
  }

  /** The stored state, or the empty one. */
  function StateOf(db: Database, key: Key): State {
    if key in db.rows then db.rows[key].state else State({}, map[], map[])
  }

  /** The row of the call and the event are new; nothing else changes. */
  ghost predicate Leaves(db: Database, c: Call, after: Database, state: State, event: Event) {
    && after.events == db.events + [event]
    && after.rows.Keys == db.rows.Keys + {c.key}
    && after.rows[c.key].state == state
    && (forall n :: n in after.rows[c.key].attempts <==> n in state.completed || n in state.started)
    && (forall n :: n in after.rows[c.key].attempts ==> after.rows[c.key].attempts[n] == 1)
    && forall key :: key in db.rows && key != c.key ==> after.rows[key] == db.rows[key]
  }

  predicate Counted(key: Key) {
    (exists c :: c in key.run && !IsSpace(c)) && 1 <= key.iteration
  }

  lemma CountedOk(key: Key)
    ensures KeyOk(key) <==> Counted(key)
  {
    hide IsSpace;
  }

  /** In a reachable database an enabled node was never attempted. */
  lemma FirstAttempt(u: Setup, db: Database, key: Key, node: string, payload: Payload)
    requires DbInv(u, db)
    ensures RowAt(db, key).state == StateOf(db, key) && Inv(u.manifest, StateOf(db, key))
    ensures RowAt(db, key).attempts.Keys == StateOf(db, key).completed + StateOf(db, key).started.Keys
    ensures forall n :: n in RowAt(db, key).attempts ==> RowAt(db, key).attempts[n] == 1
    ensures Enabled(u.manifest, StateOf(db, key), node, payload) ==> Attempt(RowAt(db, key), node) == 1
  {
    RowState(u, db, key);
    hide Inv;
    if key in db.rows { assert RowInv(u, key, db.rows[key]); }
  }

  // ---- reservations ----

  function ReservedState(s: State, node: string, payload: Payload, instance: string): State {
    State(s.completed, s.events, s.started[node := payload + map["node_instance_id" := Str(instance), "attempt" := Int(1)]])
  }

  lemma StampMeans(payload: Payload, instance: string)
    ensures Stamp(payload, instance, 1) == payload + map["node_instance_id" := Str(instance), "attempt" := Int(1)]
  {}

  /** A reservation succeeds exactly for a named run, a counted iteration, an enabled node and a fresh
      event.  It stores the payload with the instance and attempt laid over it. */
  lemma ReserveExactly(u: Setup, db: Database, c: Call)
    requires DbInv(u, db) && c.Reserving?
    ensures Step(u, db, c).Some?
            <==> Counted(c.key) && Enabled(u.manifest, StateOf(db, c.key), c.node, c.payload) && Fresh(db, c.id, c.event_type, c.parents)
    ensures Step(u, db, c).Some? ==>
              var event := EventOf(u, c, Refs(map[], map[], "", []), map["lifecycle" := Str("started")] + c.payload);
              Leaves(db, c, After(u, db, c), ReservedState(StateOf(db, c.key), c.node, c.payload, event.instance), event)
  {
    hide DbInv, Enabled, Recordable, Fresh, KeyOk, Counted, Inv, Stamp, Attempt;
    CountedOk(c.key);
    FreshRecordable(db, c.id, c.event_type, c.parents);
    FirstAttempt(u, db, c.key, c.node, c.payload);
    if Step(u, db, c).Some? {
      StampMeans(c.payload, InstanceId(u, c.key, c.node, 1));
      var s, t := StateOf(db, c.key), After(u, db, c).rows[c.key].state;
      assert t.started == s.started[c.node := Stamp(c.payload, InstanceId(u, c.key, c.node, 1), 1)];
    }
  }

  // ---- nodes the controller completes itself ----

  function FinishedState(s: State, node: string, record: Payload): State {
    State(s.completed + {node}, s.events[node := record], map n | n in s.started && n != node :: s.started[n])
  }

  /** A node of the controller's own is completed exactly for a named run, a counted iteration, an
      enabled node and a fresh event, with the caller's payload and references. */
  lemma AdvanceExactly(u: Setup, db: Database, c: Call)
    requires DbInv(u, db) && c.Advancing? && !External(u, c.node)
    ensures Step(u, db, c).Some?
            <==> Counted(c.key) && Enabled(u.manifest, StateOf(db, c.key), c.node, c.payload) && Fresh(db, c.id, c.event_type, c.parents)
    ensures Step(u, db, c).Some? ==>
              Leaves(db, c, After(u, db, c), FinishedState(StateOf(db, c.key), c.node, c.payload), EventOf(u, c, c.refs, c.payload))
  {
    hide DbInv, Fresh, KeyOk, Counted, External, Leaves, Advanced, Enabled;
    CountedOk(c.key);
    AdvancedExactly(u, db, c);
    ByIdNodes(u.manifest.nodes);
    EnabledKnown(u.manifest, StateOf(db, c.key), c.node, c.payload);
  }

  lemma EnabledKnown(m: Manifest, s: State, node: string, payload: Payload)
    ensures Enabled(m, s, node, payload) ==> node in Ids(m)
  {}

  lemma AdvancedExactly(u: Setup, db: Database, c: Call)
    requires DbInv(u, db) && c.Advancing?
    ensures Advanced(u, db, c).Some? <==> Enabled(u.manifest, StateOf(db, c.key), c.node, c.payload) && Fresh(db, c.id, c.event_type, c.parents)
    ensures Advanced(u, db, c).Some? ==>
              Leaves(db, c, Advanced(u, db, c).value, FinishedState(StateOf(db, c.key), c.node, c.payload), EventOf(u, c, c.refs, c.payload))
  {
    hide DbInv, Recordable, Fresh, Inv, Attempt, Enabled;
    FreshRecordable(db, c.id, c.event_type, c.parents);
    FirstAttempt(u, db, c.key, c.node, c.payload);
    FinishMeans(StateOf(db, c.key), c.node, c.payload);
  }

  lemma FinishMeans(s: State, node: string, record: Payload)
    ensures Finish(s, node, record) == FinishedState(s, node, record)
  {
    assert s.started - {node} == map n | n in s.started && n != node :: s.started[n];
  }

  // ---- nodes produced outside ----

  /** The signed completion a call brings: always, or only for a node produced outside. */
  function Brought(c: Call): Option<Completion> {
    match c
    case Completing(_, _, _, _, _, signed, _) => Some(signed)
    case Advancing(_, _, _, _, _, _, _, completion, _) => completion
    case Reserving(_, _, _, _, _, _) => None
  }

  /** The payload laid over a completion. */
  function Over(c: Call): Payload {
    if c.Advancing? then c.payload else map[]
  }

  /** The references the event carries: the caller's, or those the completion itself names. */
  function Cited(c: Call): Refs
    requires !c.Reserving? && Brought(c).Some?
  {
    if c.Advancing? then c.refs
    else
      var signed := Brought(c).value;
      Refs(signed.inputs, map["primary" := signed.artifact], if |signed.authority| > 0 then signed.authority[0] else "", signed.evidence)
  }

  /** A node produced outside is completed exactly when it is reserved, the owner signed a completion
      bound to that reservation, and the event is fresh.  What is recorded is the completion, with the
      caller's payload laid over it. */
  lemma CompleteExactly(u: Setup, db: Database, c: Call)
    requires DbInv(u, db) && (c.Completing? || (c.Advancing? && External(u, c.node)))
    ensures Step(u, db, c).Some?
            <==> && u.verifier.Some? && c.node in StateOf(db, c.key).started && Brought(c).Some?
                 && BoundTo(u, c, Brought(c).value) && SignedByOwner(u.verifier.value, Brought(c).value, c.node, c.now)
                 && Fresh(db, c.id, c.event_type, c.parents)
    ensures Step(u, db, c).Some? ==>
              var signed := Brought(c).value;
              var record := CompletionPayload(signed, u.seal(signed), Over(c));
              Leaves(db, c, After(u, db, c), FinishedState(StateOf(db, c.key), c.node, record),
                     EventOf(u, c, Cited(c), map["lifecycle" := Str(signed.result.Text())] + record))
  {
    hide DbInv, Fresh, CompletionPayload, BoundTo, SignedByOwner, Completed, Leaves, External, KeyOk;
    if Brought(c).Some? {
      CompletedAllowed(u, db, c);
      if CompletedBy(u, db, c).Some? { CompletedLeaves(u, db, c); }
    }
    StepCompletes(u, db, c);
  }

  function CompletedBy(u: Setup, db: Database, c: Call): Option<Database>
    requires !c.Reserving? && Brought(c).Some?
  {
    Completed(u, db, c.key, c.id, c.node, c.event_type, Brought(c).value, Over(c), c.parents, Cited(c), c.now)
  }

  lemma StepCompletes(u: Setup, db: Database, c: Call)
    requires DbInv(u, db) && (c.Completing? || (c.Advancing? && External(u, c.node)))
    ensures Step(u, db, c) == if Brought(c).Some? then CompletedBy(u, db, c) else None
  {
    hide DbInv, CompletionPayload, Verifier.Validates, Recordable;
    if Brought(c).Some? && CompletedBy(u, db, c).Some? { StartedRow(u, db, c.key, c.node); }
  }

  lemma CompletedAllowed(u: Setup, db: Database, c: Call)
    requires DbInv(u, db) && (c.Completing? || (c.Advancing? && External(u, c.node))) && Brought(c).Some?
    ensures CompletedBy(u, db, c).Some?
            <==> && u.verifier.Some? && c.node in StateOf(db, c.key).started
                 && BoundTo(u, c, Brought(c).value) && SignedByOwner(u.verifier.value, Brought(c).value, c.node, c.now)
                 && Fresh(db, c.id, c.event_type, c.parents)
  {
    hide DbInv, Recordable, Fresh, Inv, CompletionPayload, Verifier.Validates, BoundTo, SignedByOwner, InstanceId, ValidAt, Label,
         Number, External;
    FreshRecordable(db, c.id, c.event_type, c.parents);
    RowState(u, db, c.key);
    BroughtSigned(u, c);
    ValidatesOwned(u, c);
    ValidAtMeans(u, c);
    if c.node in StateOf(db, c.key).started { StartedRow(u, db, c.key, c.node); }
  }

  lemma CompletedLeaves(u: Setup, db: Database, c: Call)
    requires DbInv(u, db) && !c.Reserving? && Brought(c).Some? && CompletedBy(u, db, c).Some?
    ensures var signed := Brought(c).value;
            var record := CompletionPayload(signed, u.seal(signed), Over(c));
            Leaves(db, c, CompletedBy(u, db, c).value, FinishedState(StateOf(db, c.key), c.node, record),
                   EventOf(u, c, Cited(c), map["lifecycle" := Str(signed.result.Text())] + record))
  {
    hide DbInv, Recordable, Inv, CompletionPayload, Verifier.Validates, Label, Number;
    FirstAttempt(u, db, c.key, c.node, map[]);
    StartedRow(u, db, c.key, c.node);
    FinishMeans(StateOf(db, c.key), c.node, CompletionPayload(Brought(c).value, u.seal(Brought(c).value), Over(c)));
  }

  lemma BroughtSigned(u: Setup, c: Call)
    requires !c.Reserving? && Brought(c).Some? && (c.Completing? || External(u, c.node))
    ensures Signed(u, c) == Brought(c)
  {}

  lemma ValidAtMeans(u: Setup, c: Call)
    requires Signed(u, c).Some? && !c.Reserving?
    ensures ValidAt(u, c, c.now)
            <==> && u.verifier.Some?
                 && u.verifier.value.Validates(Signed(u, c).value, u.graph, u.manifest.contract_digest, c.key.run, c.node,
                                               InstanceId(u, c.key, c.node, 1), c.now)
  {}
}
