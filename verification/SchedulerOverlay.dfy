/** A run in which the caller's payload hides the success its completion was signed for. */
module SchedulerOverlay {
  import opened Text
  import opened GraphSchema
  import opened Paths
  import opened Tarjan
  import opened Manifest
  import Static = Manifest
  import opened Monitor
  import opened Attestations
  import opened Scheduler
  import opened SchedulerSafety

  const WORK: string := "work"
  const KEY: Key := Key("run", 1)

  /** One node, owned by a worker, that is both entry and end. */
  const LONE: Manifest := Manifest("", "",
    [Node(WORK, Task, Static.Effect.Terminal, "", None, None, [], [], [], map["producer_role" := "worker"])], [], [])

  function SetupOf(hash: Instance -> string, seal: Completion -> string): Setup {
    Setup(LONE, "graph", hash, seal,
          Some(Verifier(map["w" := Identity({"worker"}, 0, 10, None)], map[WORK := "worker"], 10, 0, (producer, c) => true)))
  }

  function SignedSuccess(hash: Instance -> string): Completion {
    Completion("graph", "", KEY.run, WORK, hash(Instance(KEY.run, "graph", WORK, 1, 1)), "w", "worker", "", Succeeded, 0, 5, "",
               map[], map[], [], [], "")
  }

  const RESERVATION: Call := Reserving("e1", KEY, WORK, "reserved", map[], [])

  function Overlaid(hash: Instance -> string): Call {
    Advancing("e2", KEY, WORK, "finished", map["success" := Bool(false)], [], NO_REFS, Some(SignedSuccess(hash)), 0)
  }

  lemma LoneLookup()
    ensures ById(LONE.nodes) == map[WORK := LONE.nodes[0]] && Ids(LONE) == {WORK}
    ensures Incoming(LONE, LONE.edges, WORK) == [] && Outgoing(LONE, LONE.edges, WORK) == []
  {
    assert LONE.nodes[..0] == [];
  }

  lemma NotBlankAt(s: string)
    requires s != "" && !IsSpace(s[0])
    ensures !Blank(s)
  {
    assert s[0] in s;
  }

  lemma LoneWellFormed()
    ensures WellFormed(LONE)
  {
    NotBlankAt(WORK);
    hide Blank;
  }

  lemma LoneNode(n: Node, parse: string -> Option<int>)
    requires n in LONE.nodes
    ensures NodeReachOk(LONE, n) && NodeRolesOk(LONE, n) && TrustOk(LONE, n) && MemoryOk(LONE, n, parse)
  {
    hide Reach, Forward;
    LoneLookup();
    ForwardEdges(LONE);
    ReachSelf(Forward(LONE), WORK);
    assert WORK in Entries(LONE);
    assert n.Meta("approval_required") == "" && n.Meta("human_control") == "" && n.Meta("trust") == "";
  }

  /** A scheduler can be built for the manifest. */
  lemma LoneAccepted(parse: string -> Option<int>)
    ensures Static.Accepted(LONE, parse)
  {
    hide NodeReachOk, NodeRolesOk, TrustOk, MemoryOk, Forward, HasEdge, IsCyclicComponent, CycleOk;
    LoneLookup();
    ForwardEdges(LONE);
    RankAcyclic(Forward(LONE), (id: string) => 0);
    NoCyclicComponents(Forward(LONE));
    forall n | n in LONE.nodes ensures NodeReachOk(LONE, n) && NodeRolesOk(LONE, n) && TrustOk(LONE, n) && MemoryOk(LONE, n, parse) {
      LoneNode(n, parse);
    }
    assert WORK in Entries(LONE);
  }

  lemma NoCyclicComponents(g: Graph)
    requires Acyclic(g)
    ensures forall c :: !IsCyclicComponent(g, c)
  {}

  lemma WorkEnabled()
    ensures Enabled(LONE, INITIAL, WORK, map[]) && Recordable(EMPTY, "e1", "reserved", []) && KeyOk(KEY)
  {
    hide Blank, Ids, ById;
    LoneLookup();
    NotBlankAt("e1");
    NotBlankAt(KEY.run);
    assert LastJoin(LONE.joins, WORK).None?;
  }

  lemma ReservationAccepted(hash: Instance -> string, seal: Completion -> string)
    ensures var u := SetupOf(hash, seal);
            var db := After(u, EMPTY, RESERVATION);
            && Step(u, EMPTY, RESERVATION).Some?
            && KEY in db.rows && db.rows[KEY].state.completed == {}
            && db.rows[KEY].state.started == map[WORK := Stamp(map[], hash(Instance(KEY.run, "graph", WORK, 1, 1)), 1)]
            && |db.events| == 1 && db.events[0].id == "e1"
  {
    hide Stamp, Enabled, Recordable;
    WorkEnabled();
  }

  lemma OverlaidValid(hash: Instance -> string, seal: Completion -> string, db: Database)
    requires |db.events| == 1 && db.events[0].id == "e1"
    ensures var u := SetupOf(hash, seal);
            && External(u, WORK) && Recordable(db, "e2", "finished", [])
            && u.verifier.value.Validates(SignedSuccess(hash), u.graph, LONE.contract_digest, KEY.run, WORK,
                                          hash(Instance(KEY.run, "graph", WORK, 1, 1)), 0)
  {
    LoneLookup();
    NotBlankAt("e2");
    hide Blank, Ids, ById;
    assert "e1"[1] != "e2"[1];
  }

  lemma OverlaidAccepted(hash: Instance -> string, seal: Completion -> string, db: Database)
    requires KEY in db.rows && db.rows[KEY].state.started == map[WORK := Stamp(map[], hash(Instance(KEY.run, "graph", WORK, 1, 1)), 1)]
    requires |db.events| == 1 && db.events[0].id == "e1"
    ensures var u := SetupOf(hash, seal);
            var payload := CompletionPayload(SignedSuccess(hash), seal(SignedSuccess(hash)), map["success" := Bool(false)]);
            && External(u, WORK) && Step(u, db, Overlaid(hash)).Some?
            && After(u, db, Overlaid(hash)).rows == db.rows[KEY := Row(Finish(db.rows[KEY].state, WORK, payload), db.rows[KEY].attempts)]
  {
    hide Blank, Stamp, Ids, ById, CompletionPayload, Recordable, External, Verifier.Validates, SignedSuccess, Label;
    LoneLookup();
    NotBlankAt(KEY.run);
    StampRead(map[], hash(Instance(KEY.run, "graph", WORK, 1, 1)), 1);
    OverlaidValid(hash, seal, db);
  }

  /** With any digests, a scheduler whose manifest passed the static check reserves a worker's node
      and then completes it on the worker's signed success, recording the caller's false. */
  lemma SuccessOverridden(hash: Instance -> string, seal: Completion -> string, parse: string -> Option<int>)
    returns (calls: seq<Call>)
    ensures WellFormed(LONE) && Static.Accepted(LONE, parse)
    ensures var u := SetupOf(hash, seal);
            && |calls| == 2 && SchedulerSafety.Accepted(u, calls, 1)
            && Signed(u, calls[1]).Some? && Signed(u, calls[1]).value.result == Succeeded
            && KEY in DbRun(u, calls).rows && WORK in DbRun(u, calls).rows[KEY].state.events
            && Get(DbRun(u, calls).rows[KEY].state.events[WORK], "success") == Bool(false)
  {
    hide Static.Accepted, WellFormed, Step, External, CompletionPayload, Stamp, RESERVATION;
    LoneWellFormed();
    LoneAccepted(parse);
    var u := SetupOf(hash, seal);
    calls := [RESERVATION, Overlaid(hash)];
    assert calls[..1] == [RESERVATION] && [RESERVATION][..0] == [];
    assert DbRun(u, [RESERVATION]) == After(u, EMPTY, RESERVATION);
    ReservationAccepted(hash, seal);
    OverlaidAccepted(hash, seal, DbRun(u, [RESERVATION]));
    RecordedSuccess(SignedSuccess(hash), seal(SignedSuccess(hash)), map["success" := Bool(false)]);
  }
}
