/** Execution certificates: the replay of a causal trace through the monitor, and what it proves. */
module Certificate {
  import opened GraphSchema
  import opened Manifest
  import opened Monitor
  import opened Scheduler
  import StaticCheck

  datatype Certificate = Certificate(
    run: string, graph: string, realised: string, root: string, decision: string, keyId: string, signature: string)

  /** The validator's key, the digests both sides compute: of an event, of a list of digests, of the
      instances of a trace in sorted order, and of a manifest; and the source's int(). */
  datatype Trust = Trust(
    keyId: string, verify: Certificate -> bool, event: Event -> string, list: seq<string> -> string,
    realised: multiset<string> -> string, graph: Manifest -> string, parse: string -> Option<int>)

  function Digests(v: Trust, trace: seq<Event>): seq<string> {
    seq(|trace|, i requires 0 <= i < |trace| => v.event(trace[i]))
  }

  function Root(v: Trust, trace: seq<Event>): string {
    v.list(Digests(v, trace))
  }

  function Instances(trace: seq<Event>): multiset<string> {
    if trace == [] then multiset{} else Instances(trace[..|trace| - 1]) + multiset{trace[|trace| - 1].instance}
  }

  /** The node that must end the trace of a final decision; other decisions demand none. */
  function Terminal(decision: string): Option<string> {
    if decision == "accept" then Some(ACCEPT)
    else if decision == "escalate" then Some("decision.escalate")
    else None
  }

  /** The replayed states, one per iteration. */
  type States = map<int, State>

  function StateAt(states: States, iteration: int): State {
    if iteration in states then states[iteration] else INITIAL
  }

  /** A reservation event reserves; any other event completes a reserved node or advances a free one. */
  function MoveFor(s: State, e: Event): Move {
    if Get(e.payload, "lifecycle") == Str("started") then Reserve(e.node, e.payload)
    else if e.node in s.started then Complete(e.node, e.payload)
    else Advance(e.node, e.payload)
  }

  function ReplayStep(m: Manifest, states: States, e: Event): Option<States> {
    var s := StateAt(states, e.iteration);
    var next := Apply(m, s, MoveFor(s, e));
    if next.None? then None else Some(states[e.iteration := next.value])
  }

  function Replay(m: Manifest, trace: seq<Event>): Option<States> {
    if trace == [] then Some(map[])
    else
      var before := Replay(m, trace[..|trace| - 1]);
      if before.None? then None else ReplayStep(m, before.value, trace[|trace| - 1])
  }

  predicate DistinctIds(trace: seq<Event>) {
    forall i, j :: 0 <= i < j < |trace| ==> trace[i].id != trace[j].id
  }

  predicate ParentsInside(trace: seq<Event>) {
    forall e, p :: e in trace && p in e.parents ==> exists f :: f in trace && f.id == p
  }

  predicate EndsAs(trace: seq<Event>, decision: string) {
    Terminal(decision).Some? ==> trace != [] && trace[|trace| - 1].node == Terminal(decision).value
  }

  /** The manifests a transition monitor can be built for. */
  ghost predicate Monitorable(v: Trust, m: Manifest) {
    Accepted(m, v.parse)
  }

  /** What the validator accepts. */
  ghost predicate Valid(v: Trust, c: Certificate, trace: seq<Event>, m: Option<Manifest>) {
    && c.keyId == v.keyId && v.verify(c)
    && trace != [] && (forall e :: e in trace ==> e.run == c.run && e.graph == c.graph)
    && DistinctIds(trace) && ParentsInside(trace)
    && Root(v, trace) == c.root && v.realised(Instances(trace)) == c.realised
    && (m.Some? ==> v.graph(m.value) == c.graph && Monitorable(v, m.value) && Replay(m.value, trace).Some?)
    && EndsAs(trace, c.decision)
  }

  lemma {:induction false} PrefixReplays(m: Manifest, trace: seq<Event>, k: nat)
    requires k <= |trace| && Replay(m, trace).Some?
    ensures Replay(m, trace[..k]).Some?
  {
    if k == |trace| {
      assert trace[..k] == trace;
    } else {
      PrefixReplays(m, trace[..|trace| - 1], k);
      assert trace[..|trace| - 1][..k] == trace[..k];
    }
  }

  method ReplayTrace(m: Manifest, trace: seq<Event>) returns (ok: bool)
    ensures ok <==> Replay(m, trace).Some?
  {
    hide Apply;
    var states: States := map[];
    for k := 0 to |trace|
      invariant Replay(m, trace[..k]) == Some(states)
    {
      var event := trace[k];
      var state := if event.iteration in states then states[event.iteration] else INITIAL;
      var next;
      if Get(event.payload, "lifecycle") == Str("started") {
        next := Apply(m, state, Reserve(event.node, event.payload));
      } else if event.node in state.started {
        next := Apply(m, state, Complete(event.node, event.payload));
      } else {
        next := Apply(m, state, Advance(event.node, event.payload));
      }
      assert trace[..k + 1][..k] == trace[..k];
      if next.None? {
        if Replay(m, trace).Some? { PrefixReplays(m, trace, k + 1); }
        return false;
      }
      states := states[event.iteration := next.value];
    }
    assert trace[..|trace|] == trace;
    return true;
  }

  method InstancesOf(trace: seq<Event>) returns (instances: multiset<string>)
    ensures instances == Instances(trace)
  {
    instances := multiset{};
    for k := 0 to |trace|
      invariant instances == Instances(trace[..k])
    {
      assert trace[..k + 1][..k] == trace[..k];
      instances := instances + multiset{trace[k].instance};
    }
    assert trace[..|trace|] == trace;
  }

  /** Identities of the first k events. */
  function Ids(trace: seq<Event>, k: nat): set<string>
    requires k <= |trace|
  {
    set i | 0 <= i < k :: trace[i].id
  }

  predicate DistinctTo(trace: seq<Event>, k: nat)
    requires k <= |trace|
  {
    forall i, j :: 0 <= i < j < k ==> trace[i].id != trace[j].id
  }

  /** The dictionary of a trace by identity has one entry per event iff identities are distinct. */
  method ById(trace: seq<Event>) returns (events: map<string, Event>)
    ensures events.Keys == Ids(trace, |trace|)
    ensures |events| == |trace| <==> DistinctIds(trace)
  {
    hide DistinctTo, Ids;
    events := map[];
    NoIds(trace);
    for k := 0 to |trace|
      invariant events.Keys == Ids(trace, k)
      invariant |events| <= k && (|events| == k <==> DistinctTo(trace, k))
    {
      NextId(trace, k);
      BuildSize(events, trace[k].id, trace[k]);
      events := events[trace[k].id := trace[k]];
    }
    AllDistinct(trace);
  }

  lemma NoIds(trace: seq<Event>)
    ensures Ids(trace, 0) == {} && DistinctTo(trace, 0)
  {}

  lemma AllDistinct(trace: seq<Event>)
    ensures DistinctIds(trace) <==> DistinctTo(trace, |trace|)
  {}

  lemma NextId(trace: seq<Event>, k: nat)
    requires k < |trace|
    ensures Ids(trace, k + 1) == Ids(trace, k) + {trace[k].id}
    ensures DistinctTo(trace, k + 1) <==> DistinctTo(trace, k) && trace[k].id !in Ids(trace, k)
  {}

  lemma IdsMembers(trace: seq<Event>)
    ensures forall p :: p in Ids(trace, |trace|) <==> exists e :: e in trace && e.id == p
  {
    forall e | e in trace ensures e.id in Ids(trace, |trace|) {
      var i :| 0 <= i < |trace| && trace[i] == e;
    }
  }

  lemma BuildSize(events: map<string, Event>, id: string, e: Event)
    ensures |events[id := e]| == if id in events then |events| else |events| + 1
    ensures events[id := e].Keys == events.Keys + {id}
  {
    assert events[id := e].Keys == events.Keys + {id};
    if id in events { assert events.Keys + {id} == events.Keys; }
  }

  /** Accepts a certificate exactly when it is signed, its digests match the trace, every causal
      parent is in the trace, the manifest passes the static check, the trace replays through it,
      and it ends in the decision. */
  method Validate(v: Trust, c: Certificate, trace: seq<Event>, m: Option<Manifest>) returns (ok: bool)
    ensures ok <==> Valid(v, c, trace, m)
  {
    hide Replay, Instances, Ids, DistinctIds, Accepted, Digests;
    if c.keyId != v.keyId || !v.verify(c) { return false; }
    if trace == [] || exists e :: e in trace && (e.run != c.run || e.graph != c.graph) { return false; }
    var byId := ById(trace);
    IdsMembers(trace);
    if |byId| != |trace| || exists e, p :: e in trace && p in e.parents && p !in byId { return false; }
    forall e, p | e in trace && p in e.parents ensures exists f :: f in trace && f.id == p {
      assert p in byId.Keys;
    }
    if Root(v, trace) != c.root { return false; }
    var instances := InstancesOf(trace);
    if v.realised(instances) != c.realised { return false; }
    if m.Some? {
      if v.graph(m.value) != c.graph { return false; }
      var checked := StaticCheck.Validate(m.value, v.parse);
      if checked != StaticCheck.Report([]) { return false; }
      var replayed := ReplayTrace(m.value, trace);
      if !replayed { return false; }
    }
    var terminal := Terminal(c.decision);
    return terminal.None? || trace[|trace| - 1].node == terminal.value;
  }

  // ---- what validity means ----

  function IdsOf(trace: seq<Event>): seq<string> {
    seq(|trace|, i requires 0 <= i < |trace| => trace[i].id)
  }

  function InstancesIn(trace: seq<Event>): seq<string> {
    seq(|trace|, i requires 0 <= i < |trace| => trace[i].instance)
  }

  lemma {:induction false} InstancesCounted(trace: seq<Event>)
    ensures Instances(trace) == multiset(InstancesIn(trace))
  {
    if trace != [] {
      var k := |trace| - 1;
      InstancesCounted(trace[..k]);
      assert InstancesIn(trace) == InstancesIn(trace[..k]) + [trace[k].instance];
    } else {
      assert InstancesIn(trace) == [];
    }
  }

  lemma IdsCounted(trace: seq<Event>)
    ensures DistinctIds(trace) <==> |set id | id in IdsOf(trace)| == |trace|
  {
    var ids := IdsOf(trace);
    DistinctExactly(ids);
    if DistinctIds(trace) {
      forall i, j | 0 <= i < j < |ids| ensures ids[i] != ids[j] { assert trace[i].id != trace[j].id; }
    }
    if forall i, j :: 0 <= i < j < |ids| ==> ids[i] != ids[j] {
      forall i, j | 0 <= i < j < |trace| ensures trace[i].id != trace[j].id { assert ids[i] != ids[j]; }
    }
  }

  /** Every parent of an event is the identity of one. */
  ghost predicate ParentsGiven(trace: seq<Event>) {
    forall i, p :: 0 <= i < |trace| && p in trace[i].parents ==> p in IdsOf(trace)
  }

  lemma IdListed(trace: seq<Event>, p: string)
    ensures p in IdsOf(trace) <==> exists f :: f in trace && f.id == p
  {
    var ids := IdsOf(trace);
    if p in ids {
      var i :| 0 <= i < |ids| && ids[i] == p;
      assert trace[i] in trace;
    }
    if f :| f in trace && f.id == p {
      var i :| 0 <= i < |trace| && trace[i] == f;
      assert ids[i] == p;
    }
  }

  lemma ParentsListed(trace: seq<Event>)
    ensures ParentsInside(trace) <==> ParentsGiven(trace)
  {
    hide IdsOf;
    if ParentsInside(trace) {
      forall i, p | 0 <= i < |trace| && p in trace[i].parents ensures p in IdsOf(trace) {
        assert trace[i] in trace;
        IdListed(trace, p);
      }
    }
    if ParentsGiven(trace) {
      forall e, p | e in trace && p in e.parents ensures exists f :: f in trace && f.id == p {
        var i :| 0 <= i < |trace| && trace[i] == e;
        IdListed(trace, p);
      }
    }
  }

  ghost predicate OneRun(trace: seq<Event>, run: string, graph: string) {
    forall i :: 0 <= i < |trace| ==> trace[i].run == run && trace[i].graph == graph
  }

  /** The certificate is signed under the trusted key and seals exactly this trace: each event in order,
      the instances in whatever order, all of one run and one graph, no identity twice and no parent
      missing. */
  ghost predicate Seals(v: Trust, c: Certificate, trace: seq<Event>) {
    && v.verify(c) && c.keyId == v.keyId
    && 0 < |trace| == |set id | id in IdsOf(trace)|
    && OneRun(trace, c.run, c.graph) && ParentsGiven(trace)
    && c.root == v.list(seq(|trace|, i requires 0 <= i < |trace| => v.event(trace[i])))
    && c.realised == v.realised(multiset(InstancesIn(trace)))
  }

  /** Validity written out: the trace is sealed, ends in the decision of a final certificate, and, where
      the manifest is given, follows the graph that the certificate names. */
  lemma ValidMeans(v: Trust, c: Certificate, trace: seq<Event>, m: Option<Manifest>)
    ensures Valid(v, c, trace, m)
            <==> && Seals(v, c, trace)
                 && (c.decision == "accept" ==> trace[|trace| - 1].node == "decision.accept")
                 && (c.decision == "escalate" ==> trace[|trace| - 1].node == "decision.escalate")
                 && (m.Some? ==> c.graph == v.graph(m.value) && Accepted(m.value, v.parse) && Replay(m.value, trace).Some?)
  {
    hide Accepted, Replay, Instances, DistinctIds, ParentsInside, ParentsGiven, OneRun, IdsOf, InstancesIn;
    InstancesCounted(trace);
    IdsCounted(trace);
    ParentsListed(trace);
    assert Digests(v, trace) == seq(|trace|, i requires 0 <= i < |trace| => v.event(trace[i]));
    OfOneRun(trace, c.run, c.graph);
  }

  lemma OfOneRun(trace: seq<Event>, run: string, graph: string)
    ensures (forall e :: e in trace ==> e.run == run && e.graph == graph)
            <==> OneRun(trace, run, graph)
  {
    forall i | 0 <= i < |trace| ensures trace[i] in trace {}
  }
}
