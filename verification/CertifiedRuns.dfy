/** What a stored run, and a valid certificate, prove about a compiled control graph. */
module CertifiedRuns {
  import opened GraphSchema
  import opened Manifest
  import opened Monitor
  import opened ControlGraph
  import opened ControlGraphShape
  import opened ControlGraphValid
  import opened ControlGraphAccepted
  import opened CompiledSafety
  import opened CompiledReach
  import opened Scheduler
  import opened SchedulerSafety
  import opened Certificate
  import opened CertificateReplay

  /** The chain of evidence behind an accepting state, which has not escalated. */
  ghost predicate EvidencedAccept(p: Plan, s: State) {
    && Done(s, GuardJoin)
    && (forall i :: 0 <= i < |p.guards| ==> GuardEvidence(p, s, i))
    && ExecutionEvidence(s)
    && DispatchAuthority(p, s)
    && !Active(s, EscalateDecision)
  }

  lemma AcceptEvidenced(p: Plan, c: Contract, moves: seq<Move>)
    requires PlanOk(p) && Active(Run(Layout(p, c), moves), AcceptDecision)
    ensures EvidencedAccept(p, Run(Layout(p, c), moves))
  {
    hide PlanOk, Layout, Run, Name, GuardEvidence, DispatchAuthority;
    var s := Run(Layout(p, c), moves);
    NoAcceptWithoutAllGuards(p, c, moves);
    AcceptExcludesEscalate(p, c, moves);
    DispatchDone(s);
    NoEffectWithoutCapability(p, c, moves);
  }

  lemma DispatchDone(s: State)
    requires ExecutionEvidence(s)
    ensures Active(s, ExecutorDispatch)
  {
    hide Name;
  }

  /** A valid certificate of acceptance over a compiled graph proves the whole chain of evidence,
      whoever produced the trace; the accept decision itself is completed exactly when the trace does
      not end in a reservation of it. */
  lemma CertifiedAccept(p: Plan, c: Contract, v: Trust, cert: Certificate, trace: seq<Event>)
    requires PlanOk(p) && Valid(v, cert, trace, Some(Layout(p, c))) && cert.decision == "accept"
    ensures var it := trace[|trace| - 1].iteration;
            && it in Replay(Layout(p, c), trace).value
            && EvidencedAccept(p, Replay(Layout(p, c), trace).value[it])
            && (ACCEPT in Replay(Layout(p, c), trace).value[it].completed <==> !Reservation(trace[|trace| - 1]))
  {
    hide PlanOk, Layout, EvidencedAccept, ParentsInside, DistinctIds, Instances, Replay, Run, Monitorable, Digests;
    var m, it := Layout(p, c), trace[|trace| - 1].iteration;
    LastEventTouched(m, trace);
    LastEventCompleted(m, trace);
    AcceptNamed();
    var moves := ReplayIsRun(m, trace, it);
    AcceptEvidenced(p, c, moves);
  }

  /** What stands behind an escalation: an outcome that is a failure or unknown, and its reconciliation;
      the run has not accepted. */
  ghost predicate EvidencedEscalation(s: State) {
    && Done(s, ExecutorResult) && Done(s, OperationReconcile) && !Active(s, AcceptDecision)
    && Recorded(s, ExecutorResult, "success") in {Bool(false), Int(0), Str("indeterminate")}
  }

  /** A valid certificate of escalation over a compiled graph proves it. */
  lemma CertifiedEscalate(p: Plan, c: Contract, v: Trust, cert: Certificate, trace: seq<Event>)
    requires PlanOk(p) && Valid(v, cert, trace, Some(Layout(p, c))) && cert.decision == "escalate"
    ensures var it := trace[|trace| - 1].iteration;
            it in Replay(Layout(p, c), trace).value && EvidencedEscalation(Replay(Layout(p, c), trace).value[it])
  {
    hide PlanOk, Layout, ParentsInside, DistinctIds, Instances, Replay, Run, Monitorable, Digests, Inv;
    var m, it := Layout(p, c), trace[|trace| - 1].iteration;
    LastEventTouched(m, trace);
    EscalateNamed();
    var moves := ReplayIsRun(m, trace, it);
    AcceptExcludesEscalate(p, c, moves);
    CompiledInv(p, c, moves);
    EscalateBehind(p, c, Run(m, moves));
  }

  lemma EscalateNamed()
    ensures Name(EscalateDecision) == "decision.escalate"
  {}

  lemma CompiledWellFormed(p: Plan, c: Contract)
    requires PlanOk(p)
    ensures WellFormed(Layout(p, c))
  {
    hide Layout;
    PlanNonEmpty(p);
    LayoutWellFormed(p, c);
  }

  /** A graph the compiler returns passes the check again when a monitor is built for it. */
  lemma CompiledMonitorable(p: Plan, c: Contract, v: Trust)
    requires PlanOk(p) && TokensDistinct(p)
    ensures Monitorable(v, Layout(p, c))
  {
    hide PlanOk, Layout, TokensDistinct;
    LayoutAccepted(p, c, v.parse);
  }

  /** No compiled graph reads the key the scheduler reserves, so traces of compiled graphs replay. */
  lemma CompiledClean(p: Plan, c: Contract)
    ensures Clean(Layout(p, c))
  {
    forall e | e in Edges(p) ensures !Reads(e.pred) {
      var a := EdgeArc(p, e);
      ArcReads(p, a);
    }
  }

  lemma ArcReads(p: Plan, a: Arc)
    requires ArcInto(p, a)
    ensures !Reads(a.pred)
  {
    assert "rule_index" != LIFECYCLE && "approval_required" != LIFECYCLE by {
      assert |"rule_index"| == 10 && |"approval_required"| == 17 && |LIFECYCLE| == 9;
    }
  }

  /** A signed certificate over a compiled graph's run is accepted exactly when its causal parents
      are in the trace and the trace ends in the decision. */
  lemma CompiledTraceValid(u: Setup, p: Plan, c: Contract, calls: seq<Call>, v: Trust, run: string, decision: string,
                           signature: string)
    requires PlanOk(p) && TokensDistinct(p) && u.manifest == Layout(p, c) && v.graph(u.manifest) == u.graph
    requires forall call :: call in calls ==> CleanCall(u, call)
    requires var trace := TraceOf(DbRun(u, calls).events, run);
             v.verify(CertificateFromTrace(v, run, u.graph, decision, v.keyId, trace, signature))
    ensures var trace := TraceOf(DbRun(u, calls).events, run);
            Valid(v, CertificateFromTrace(v, run, u.graph, decision, v.keyId, trace, signature), trace, Some(u.manifest))
            <==> trace != [] && ParentsInside(trace) && EndsAs(trace, decision)
  {
    hide PlanOk, Layout, DbRun, TraceOf, Valid, ParentsInside, EndsAs, CertificateFromTrace, CleanCall, Monitorable;
    CompiledWellFormed(p, c);
    CompiledClean(p, c);
    CompiledMonitorable(p, c, v);
    EmittedTraceValid(u, calls, v, run, decision, signature);
  }

  /** In every database a compiled graph's scheduler can reach, through any interleaving of calls,
      each accepting row has the whole chain of evidence. */
  lemma StoredAcceptEvidenced(u: Setup, p: Plan, c: Contract, calls: seq<Call>, key: Key)
    requires PlanOk(p) && u.manifest == Layout(p, c)
    requires key in DbRun(u, calls).rows && Active(DbRun(u, calls).rows[key].state, AcceptDecision)
    ensures EvidencedAccept(p, DbRun(u, calls).rows[key].state)
  {
    hide PlanOk, Layout, EvidencedAccept, Run, DbRun, WellFormed;
    CompiledWellFormed(p, c);
    var moves := RowsAreRuns(u, calls, key);
    AcceptEvidenced(p, c, moves);
  }

  /** Every compiled graph has a trace that certifies acceptance, once signed, although the accept
      decision was reserved and never completed. */
  lemma ReservedAccept(p: Plan, c: Contract, v: Trust, run: string, signature: string) returns (trace: seq<Event>)
    requires PlanOk(p) && TokensDistinct(p)
    ensures var m := Layout(p, c);
            var cert := CertificateFromTrace(v, run, v.graph(m), "accept", v.keyId, trace, signature);
            && (v.verify(cert) ==> Valid(v, cert, trace, Some(m)))
            && Replay(m, trace).Some? && 1 in Replay(m, trace).value
            && ACCEPT !in Replay(m, trace).value[1].completed
  {
    hide PlanOk, Layout, TokensDistinct, Run, Replay, Instances, Monitorable, WellFormed, Valid, CertificateFromTrace;
    var m := Layout(p, c);
    var moves := ReservingRun(p, c);
    CompiledWellFormed(p, c);
    CompiledMonitorable(p, c, v);
    trace := TraceFor(run, v.graph(m), moves);
    MovesReplay(m, moves, run, v.graph(m));
    LastEventCompleted(m, trace);
    TraceValid(v, m, trace, run, signature);
  }

  lemma TraceValid(v: Trust, m: Manifest, trace: seq<Event>, run: string, signature: string)
    requires Monitorable(v, m) && Replay(m, trace).Some? && trace != [] && trace[|trace| - 1].node == ACCEPT
    requires DistinctIds(trace) && ParentsInside(trace) && forall e :: e in trace ==> e.run == run && e.graph == v.graph(m)
    ensures var cert := CertificateFromTrace(v, run, v.graph(m), "accept", v.keyId, trace, signature);
            v.verify(cert) ==> Valid(v, cert, trace, Some(m))
  {
    hide Monitorable, Replay, Instances, DistinctIds, ParentsInside, Digests;
  }

  /** A run whose last move reserves the accept decision. */
  lemma ReservingRun(p: Plan, c: Contract) returns (moves: seq<Move>)
    requires PlanOk(p)
    ensures moves != [] && Admitted(Layout(p, c), moves) == |moves| && forall k :: 0 <= k < |moves| ==> Traceable(moves[k])
    ensures moves[|moves| - 1].id == ACCEPT && moves[|moves| - 1].Reserve?
  {
    PlanNonEmpty(p);
    hide PlanOk, Layout, Enabled, Run, ArcInto, Built, Recording;
    var front, done := Prepare(p, c, 0, false);
    var payload := map[LIFECYCLE := Str("started")];
    RecordingUnreserved();
    AcceptEnabled(p, c, Run(Layout(p, c), front), done, Recording(0, false, true), payload, front);
    moves := front + [Reserve(ACCEPT, payload)];
    assert moves[..|moves| - 1] == front;
  }

  lemma AcceptEnabled(p: Plan, c: Contract, s: State, done: set<Ref>, q: Payload, payload: Payload, moves: seq<Move>)
    requires PlanOk(p) && s == Run(Layout(p, c), moves) && Built(s, done, q) && GuardJoin in done && AcceptDecision !in done
    ensures Enabled(Layout(p, c), s, ACCEPT, payload)
  {
    hide PlanOk, Layout, Enabled, Inv, Run, ArcInto, Built, Passes;
    LinkPasses(ACCEPTANCE, q);
    SingleArcsInto(p);
    SoleReady(p, done, q, ACCEPTANCE);
    CompiledInv(p, c, moves);
    ReadyEnabled(p, c, s, done, q, AcceptDecision, payload);
    AcceptNamed();
  }

  lemma RecordingUnreserved()
    ensures Get(Recording(0, false, true), LIFECYCLE) != Str("started")
  {
    assert |"rule_index"| == 10 && |"approval_required"| == 17 && |"success"| == 7 && |"passed"| == 6 && |LIFECYCLE| == 9;
  }
}
