/** The transition monitor: which nodes a manifest enables, and the steps between its states. */
module Monitor {
  import opened GraphSchema
  import opened Manifest

  datatype State = State(completed: set<string>, events: map<string, Payload>, started: map<string, Payload>)

  const INITIAL: State := State({}, map[], map[])

  /** What the constructors insist on for the parts of a manifest. */
  ghost predicate WellFormed(m: Manifest) {
    && (forall n :: n in m.nodes ==> n.WellFormed())
    && (forall e :: e in m.edges ==> e.WellFormed())
    && (forall j :: j in m.joins ==> j.WellFormed())
  }

  /** The join with an identity; the last one declared wins. */
  function LastJoin(joins: seq<Join>, id: string): (j: Option<Join>)
    ensures j.Some? ==> j.value in joins && j.value.node_id == id
    ensures j.None? <==> forall k :: k in joins ==> k.node_id != id
  {
    if joins == [] then None
    else
      assert joins == joins[..|joins| - 1] + [joins[|joins| - 1]];
      if joins[|joins| - 1].node_id == id then Some(joins[|joins| - 1]) else LastJoin(joins[..|joins| - 1], id)
  }

  /** Whether an edge may be followed given what its source recorded. */
  predicate Passes(e: Edge, source: Payload) {
    && (match e.condition
        case Unconditional => true
        case ExecutionSuccess => Get(source, "success") == Bool(true)
        case OutcomeUnknownOrFailed => Get(source, "success") in {Bool(false), Int(0), Str("indeterminate")}
        case GuardPass => Get(source, "passed") == Bool(true))
    && e.pred.Evaluate(source)
  }

  /** The source reads the caller's payload for an edge whose source recorded nothing. */
  predicate ConditionMatches(e: Edge, events: map<string, Payload>, payload: Payload) {
    Passes(e, if e.source in events then events[e.source] else payload)
  }

  predicate Enabled(m: Manifest, s: State, id: string, payload: Payload) {
    && id in Ids(m) && id !in s.completed && id !in s.started
    && var incoming := Incoming(m, m.edges, id);
       var join := LastJoin(m.joins, id);
       if join.Some? then
         join.value.SatisfiedBy(
           set e | e in incoming && e.source in s.completed && ConditionMatches(e, s.events, payload) :: e.source)
       else if incoming == [] then s.completed == {}
       else forall e :: e in incoming ==> e.source in s.completed && ConditionMatches(e, s.events, payload)
  }

  datatype Move =
    | Advance(id: string, payload: Payload)
    | Reserve(id: string, payload: Payload)
    | Complete(id: string, payload: Payload)

  function Finish(s: State, id: string, payload: Payload): State {
    State(s.completed + {id}, s.events[id := payload], s.started - {id})
  }

  /** The next state, or None where the source raises. */
  function Apply(m: Manifest, s: State, move: Move): Option<State> {
    match move
    case Advance(id, payload) => if Enabled(m, s, id, payload) then Some(Finish(s, id, payload)) else None
    case Reserve(id, payload) => if Enabled(m, s, id, payload) then Some(s.(started := s.started[id := payload])) else None
    case Complete(id, payload) => if id in s.started then Some(Finish(s, id, payload)) else None
  }

  /** The state after a sequence of attempted moves; a rejected move changes nothing. */
  function Run(m: Manifest, moves: seq<Move>): State {
    if moves == [] then INITIAL
    else
      var s := Run(m, moves[..|moves| - 1]);
      var next := Apply(m, s, moves[|moves| - 1]);
      if next.Some? then next.value else s
  }

  function Admitted(m: Manifest, moves: seq<Move>): nat {
    if moves == [] then 0
    else
      var front := moves[..|moves| - 1];
      Admitted(m, front) + if Apply(m, Run(m, front), moves[|moves| - 1]).Some? then 1 else 0
  }

  // ---- what every step keeps ----

  /** The edge's source is completed and what it recorded lets the edge be followed. */
  predicate Holds(s: State, e: Edge) {
    e.source in s.completed && e.source in s.events && Passes(e, s.events[e.source])
  }

  function Matched(m: Manifest, s: State, id: string): set<string> {
    set e | e in Incoming(m, m.edges, id) && Holds(s, e) :: e.source
  }

  /** The enabling condition of a node, read from recorded payloads only. */
  predicate Justified(m: Manifest, s: State, id: string) {
    var join := LastJoin(m.joins, id);
    if join.Some? then join.value.SatisfiedBy(Matched(m, s, id))
    else forall e :: e in Incoming(m, m.edges, id) ==> Holds(s, e)
  }

  /** The nodes completed or reserved. */
  function Touched(s: State): set<string> {
    s.completed + s.started.Keys
  }

  ghost predicate Inv(m: Manifest, s: State) {
    && s.started.Keys !! s.completed
    && s.events.Keys == s.completed
    && Touched(s) <= Ids(m)
    && forall id :: id in Touched(s) ==> Justified(m, s, id)
  }

  /** Later states only add: completed nodes stay, and what they recorded never changes. */
  ghost predicate Extends(s: State, t: State) {
    && s.completed <= t.completed
    && Touched(s) <= Touched(t)
    && forall id :: id in s.completed && id in s.events ==> id in t.events && t.events[id] == s.events[id]
  }

  lemma JustifiedForever(m: Manifest, s: State, t: State, id: string)
    requires WellFormed(m) && Extends(s, t) && Justified(m, s, id)
    ensures Justified(m, t, id)
  {
    var join := LastJoin(m.joins, id);
    if join.Some? {
      assert Matched(m, s, id) <= Matched(m, t, id);
      JoinMonotone(join.value, Matched(m, s, id), Matched(m, t, id));
    }
  }

  /** A node's enabling condition never depends on the payload offered by the caller. */
  lemma EnabledIgnoresPayload(m: Manifest, s: State, id: string, payload: Payload)
    requires Inv(m, s)
    ensures Enabled(m, s, id, payload) <==>
              && id in Ids(m) && id !in Touched(s) && Justified(m, s, id)
              && (LastJoin(m.joins, id).None? && Incoming(m, m.edges, id) == [] ==> s.completed == {})
  {
    var incoming := Incoming(m, m.edges, id);
    assert Matched(m, s, id) ==
      set e | e in incoming && e.source in s.completed && ConditionMatches(e, s.events, payload) :: e.source;
  }

  /** A step is accepted only for a node whose enabling condition holds. */
  lemma MoveJustified(m: Manifest, s: State, move: Move)
    requires Inv(m, s) && Apply(m, s, move).Some?
    ensures Justified(m, s, move.id) && move.id in Ids(m) && move.id !in s.completed
    ensures !move.Complete? ==> move.id !in s.started
  {
    hide Justified;
    if !move.Complete? {
      EnabledIgnoresPayload(m, s, move.id, move.payload);
    }
  }

  lemma StepExtends(m: Manifest, s: State, move: Move)
    requires Inv(m, s) && Apply(m, s, move).Some?
    ensures Extends(s, Apply(m, s, move).value)
  {
    MoveJustified(m, s, move);
    hide Justified, Enabled;
  }

  lemma StepShape(m: Manifest, s: State, move: Move)
    requires Inv(m, s) && Apply(m, s, move).Some?
    ensures var t := Apply(m, s, move).value;
            && Touched(t) == Touched(s) + {move.id}
            && t.started.Keys == (if move.Reserve? then s.started.Keys + {move.id} else s.started.Keys - {move.id})
            && t.completed == (if move.Reserve? then s.completed else s.completed + {move.id})
            && t.events.Keys == t.completed
  {
    MoveJustified(m, s, move);
    hide Justified, Enabled;
  }

  /** Every accepted step keeps the invariant. */
  lemma StepKeeps(m: Manifest, s: State, move: Move)
    requires WellFormed(m) && Inv(m, s) && Apply(m, s, move).Some?
    ensures Inv(m, Apply(m, s, move).value)
  {
    MoveJustified(m, s, move);
    StepExtends(m, s, move);
    StepShape(m, s, move);
    hide Justified, Extends, Apply;
    var t := Apply(m, s, move).value;
    forall id | id in Touched(t) ensures Justified(m, t, id) {
      JustifiedForever(m, s, t, id);
    }
  }

  /** Every accepted step consumes part of a bounded budget. */
  lemma StepSpends(m: Manifest, s: State, move: Move)
    requires Inv(m, s) && Apply(m, s, move).Some?
    ensures Spent(Apply(m, s, move).value) > Spent(s)
  {
    MoveJustified(m, s, move);
    StepShape(m, s, move);
    hide Justified, Apply;
  }

  function Spent(s: State): nat {
    2 * |s.completed| + |s.started.Keys|
  }

  /** Safety over whole runs: the invariant holds after any sequence of calls. */
  lemma {:induction false} RunInv(m: Manifest, moves: seq<Move>)
    requires WellFormed(m)
    ensures Inv(m, Run(m, moves))
  {
    if moves != [] {
      var front := moves[..|moves| - 1];
      RunInv(m, front);
      if Apply(m, Run(m, front), moves[|moves| - 1]).Some? {
        StepKeeps(m, Run(m, front), moves[|moves| - 1]);
      }
    }
  }

  lemma ExtendsTransitive(s: State, t: State, u: State)
    requires Extends(s, t) && Extends(t, u)
    ensures Extends(s, u)
  {}

  /** Recorded payloads are immutable and completed nodes stay completed, over any further calls. */
  lemma {:induction false} RunExtends(m: Manifest, moves: seq<Move>, more: seq<Move>)
    requires WellFormed(m)
    ensures Extends(Run(m, moves), Run(m, moves + more))
  {
    hide Apply, Inv;
    if more == [] {
      assert moves + more == moves;
    } else {
      var front := more[..|more| - 1];
      RunExtends(m, moves, front);
      assert (moves + more)[..|moves + more| - 1] == moves + front;
      RunInv(m, moves + front);
      if Apply(m, Run(m, moves + front), more[|more| - 1]).Some? {
        StepExtends(m, Run(m, moves + front), more[|more| - 1]);
      }
      ExtendsTransitive(Run(m, moves), Run(m, moves + front), Run(m, moves + more));
    }
  }

  /** At most two moves per node are ever admitted. */
  lemma {:induction false} AdmittedBound(m: Manifest, moves: seq<Move>)
    requires WellFormed(m)
    ensures Admitted(m, moves) <= Spent(Run(m, moves)) <= 2 * |m.nodes|
  {
    RunInv(m, moves);
    var s := Run(m, moves);
    IdsBound(m.nodes);
    SubsetSize(Touched(s), Ids(m));
    assert |s.completed + s.started.Keys| == |s.completed| + |s.started.Keys|;
    if moves != [] {
      var front := moves[..|moves| - 1];
      AdmittedBound(m, front);
      RunInv(m, front);
      if Apply(m, Run(m, front), moves[|moves| - 1]).Some? {
        StepSpends(m, Run(m, front), moves[|moves| - 1]);
      }
    }
  }

  lemma SubsetSize(a: set<string>, b: set<string>)
    requires a <= b
    ensures |a| <= |b|
  {
    assert b == a + (b - a);
  }

  lemma {:induction false} IdsBound(nodes: seq<Node>)
    ensures |set n | n in nodes :: n.node_id| <= |nodes|
  {
    if nodes != [] {
      var k := |nodes| - 1;
      IdsBound(nodes[..k]);
      assert nodes == nodes[..k] + [nodes[k]];
      assert (set n | n in nodes :: n.node_id) == (set n | n in nodes[..k] :: n.node_id) + {nodes[k].node_id};
    }
  }

  /** A completed or reserved node that is no join has every predecessor completed: non-join
      nodes complete in an order extending the edge relation. */
  lemma PredecessorsFirst(m: Manifest, moves: seq<Move>, e: Edge)
    requires WellFormed(m) && e in m.edges && Known(m, e) && LastJoin(m.joins, e.target).None?
    requires e.target in Touched(Run(m, moves))
    ensures Holds(Run(m, moves), e)
  {
    RunInv(m, moves);
    IncomingEdges(m, m.edges, e.target);
    assert Justified(m, Run(m, moves), e.target);
  }

  // ---- the enabling condition written out ----

  /** What the source of an edge must have recorded for the edge to be followed. */
  predicate Followed(e: Edge, recorded: Payload) {
    && (e.condition == ExecutionSuccess ==> "success" in recorded && recorded["success"] == Bool(true))
    && (e.condition == GuardPass ==> "passed" in recorded && recorded["passed"] == Bool(true))
    && (e.condition == OutcomeUnknownOrFailed ==>
          "success" in recorded && (recorded["success"] == Bool(false) || recorded["success"] == Int(0)
                                    || recorded["success"] == Str("indeterminate")))
    && e.pred.Evaluate(recorded)
  }

  /** The edge is followed from a completed source. */
  predicate FollowedIn(m: Manifest, s: State, e: Edge) {
    && e in m.edges && (exists n :: n in m.nodes && n.node_id == e.source)
    && e.source in s.completed && e.source in s.events && Followed(e, s.events[e.source])
  }

  /** Whether predecessors that satisfy a join precede its node, by the join's own policy. */
  ghost predicate JoinMet(m: Manifest, s: State, j: Join) {
    match j.policy
    case All => forall p :: p in j.predecessors ==> Arrived(m, s, j.node_id, p)
    case AnyOf => exists p :: p in j.predecessors && Arrived(m, s, j.node_id, p)
    case _ => exists ps: set<string> ::
                Some(|ps|) == j.threshold && forall p :: p in ps ==> p in j.predecessors && Arrived(m, s, j.node_id, p)
  }

  ghost predicate Arrived(m: Manifest, s: State, id: string, source: string) {
    exists e :: FollowedIn(m, s, e) && e.target == id && e.source == source
  }

  predicate LastDeclared(joins: seq<Join>, id: string, j: Join) {
    exists i :: 0 <= i < |joins| && joins[i] == j && j.node_id == id && forall k :: i < k < |joins| ==> joins[k].node_id != id
  }

  lemma FollowedMeans(e: Edge, recorded: Payload)
    ensures Passes(e, recorded) <==> Followed(e, recorded)
  {}

  lemma LastDeclaredNext(joins: seq<Join>, id: string, j: Join)
    requires joins != [] && joins[|joins| - 1].node_id != id
    ensures LastDeclared(joins, id, j) <==> LastDeclared(joins[..|joins| - 1], id, j)
  {
    var k := |joins| - 1;
    var front := joins[..k];
    assert forall x :: 0 <= x < k ==> front[x] == joins[x];
    if LastDeclared(joins, id, j) {
      var i :| 0 <= i < |joins| && joins[i] == j && j.node_id == id && forall x :: i < x < |joins| ==> joins[x].node_id != id;
      assert front[i] == j;
    }
    if LastDeclared(front, id, j) {
      var i :| 0 <= i < k && front[i] == j && j.node_id == id && forall x :: i < x < k ==> front[x].node_id != id;
      assert joins[i] == j;
    }
  }

  lemma {:induction false} LastJoinMeans(joins: seq<Join>, id: string, j: Join)
    ensures LastJoin(joins, id) == Some(j) <==> LastDeclared(joins, id, j)
  {
    if joins != [] {
      var k := |joins| - 1;
      if joins[k].node_id == id {
        assert j == joins[k] ==> LastDeclared(joins, id, j);
      } else {
        LastJoinMeans(joins[..k], id, j);
        LastDeclaredNext(joins, id, j);
      }
    }
  }

  /** The predecessors that count towards a join are those that arrived. */
  lemma MatchedArrived(m: Manifest, s: State, id: string, source: string)
    requires id in Ids(m)
    ensures source in Matched(m, s, id) <==> Arrived(m, s, id, source)
  {
    hide Passes, Followed;
    IncomingEdges(m, m.edges, id);
    forall e: Edge | e.source in s.events ensures Passes(e, s.events[e.source]) <==> Followed(e, s.events[e.source]) {
      FollowedMeans(e, s.events[e.source]);
    }
    if e :| FollowedIn(m, s, e) && e.target == id && e.source == source {
      assert e in Incoming(m, m.edges, id) && Holds(s, e);
    }
    if source in Matched(m, s, id) {
      var e :| e in Incoming(m, m.edges, id) && Holds(s, e) && e.source == source;
      assert FollowedIn(m, s, e);
    }
  }

  lemma JoinMeetsPolicy(m: Manifest, s: State, j: Join)
    requires j.WellFormed() && j.node_id in Ids(m)
    ensures j.SatisfiedBy(Matched(m, s, j.node_id)) <==> JoinMet(m, s, j)
  {
    hide Matched, Arrived, Join.SatisfiedBy;
    var arrived := Matched(m, s, j.node_id);
    forall p ensures p in arrived <==> Arrived(m, s, j.node_id, p) { MatchedArrived(m, s, j.node_id, p); }
    JoinMeaning(j, arrived);
    if j.policy.Quorum? || j.policy.Threshold? {
      QuorumMeaning(j, arrived);
    }
  }

  /** A join node is enabled exactly when it is untouched and the policy of the join declared last for it
      is met by predecessors whose edges are followed. */
  lemma JoinEnabled(m: Manifest, s: State, j: Join, payload: Payload)
    requires WellFormed(m) && Inv(m, s) && LastDeclared(m.joins, j.node_id, j)
    ensures Enabled(m, s, j.node_id, payload)
            <==> && (exists n :: n in m.nodes && n.node_id == j.node_id)
                 && j.node_id !in s.completed && j.node_id !in s.started && JoinMet(m, s, j)
  {
    hide Enabled, Inv, JoinMet, Matched, Join.SatisfiedBy, Join.WellFormed;
    EnabledIgnoresPayload(m, s, j.node_id, payload);
    LastJoinMeans(m.joins, j.node_id, j);
    if j.node_id in Ids(m) { JoinMeetsPolicy(m, s, j); }
  }

  /** Any other node is enabled exactly when it is untouched and every edge into it is followed; a node
      without edges into it, only before anything is completed. */
  lemma NodeEnabled(m: Manifest, s: State, id: string, payload: Payload)
    requires Inv(m, s) && forall j :: j in m.joins ==> j.node_id != id
    ensures Enabled(m, s, id, payload)
            <==> && (exists n :: n in m.nodes && n.node_id == id) && id !in s.completed && id !in s.started
                 && (forall e :: e in m.edges && e.target == id && e.source in Ids(m) ==> FollowedIn(m, s, e))
                 && ((exists e :: e in m.edges && e.target == id && e.source in Ids(m)) || s.completed == {})
  {
    hide Enabled, Inv, Passes, Followed;
    EnabledIgnoresPayload(m, s, id, payload);
    IncomingEdges(m, m.edges, id);
    forall e: Edge | e.source in s.events ensures Passes(e, s.events[e.source]) <==> Followed(e, s.events[e.source]) {
      FollowedMeans(e, s.events[e.source]);
    }
    var incoming := Incoming(m, m.edges, id);
    if incoming != [] { assert incoming[0] in incoming; }
  }

  /** What a move changes, node by node. */
  lemma MoveRecords(m: Manifest, s: State, move: Move, n: string)
    requires Inv(m, s) && Apply(m, s, move).Some?
    ensures var t := Apply(m, s, move).value;
            if n == move.id then
              if move.Reserve? then n !in t.completed && n !in t.events && n in t.started && t.started[n] == move.payload
              else n in t.completed && n in t.events && t.events[n] == move.payload && n !in t.started
            else
              && (n in t.completed <==> n in s.completed)
              && (n in t.events <==> n in s.events) && (n in s.events ==> t.events[n] == s.events[n])
              && (n in t.started <==> n in s.started) && (n in s.started ==> t.started[n] == s.started[n])
  {
    hide Enabled, Justified;
    MoveJustified(m, s, move);
  }
}
