/** The hash-chained evidence ledger and the lease outbox that publishes its heads. */
module Ledger {
  import opened Text
  import opened GraphSchema

  datatype Body = Body(eventType: string, occurredAt: string, payload: string)

  datatype Event = Event(body: Body, parent: string, hash: string)

  /** The digest of a body under its parent's hash. */
  type Digest = (Body, string) -> string

  /** The parent of the first event. */
  const GENESIS: string := Zeros(64)

  /** The digest is taken to be injective and never to be the genesis value. */
  ghost predicate Collisionless(digest: Digest) {
    && (forall a, p, b, q :: digest(a, p) == digest(b, q) ==> a == b && p == q)
    && (forall a, p :: digest(a, p) != GENESIS)
  }

  lemma Injects(digest: Digest, a: Body, p: string, b: Body, q: string)
    requires Collisionless(digest)
    ensures digest(a, p) != GENESIS && (digest(a, p) == digest(b, q) ==> a == b && p == q)
  {}

  /** The hash after the first i events. */
  function HashAt(events: seq<Event>, i: nat): string
    requires i <= |events|
  {
    if i == 0 then GENESIS else events[i - 1].hash
  }

  function HeadOf(events: seq<Event>): string {
    HashAt(events, |events|)
  }

  predicate Linked(digest: Digest, events: seq<Event>, i: nat)
    requires i < |events|
  {
    events[i].parent == HashAt(events, i) && events[i].hash == digest(events[i].body, events[i].parent)
  }

  /** Every event's parent is its predecessor's hash, and its own hash is its digest. */
  predicate Chained(digest: Digest, events: seq<Event>) {
    forall i :: 0 <= i < |events| ==> Linked(digest, events, i)
  }

  datatype LeaseState = Pending | Leased(owner: string, expires: int) | Delivered

  datatype OutRow = OutRow(hash: string, sequence: int, state: LeaseState, attempts: int)

  datatype Store = Store(events: seq<Event>, head: string, outbox: seq<OutRow>)

  const EMPTY: Store := Store([], GENESIS, [])

  /** What verify_chain reports. */
  predicate Verified(digest: Digest, s: Store) {
    Chained(digest, s.events) && s.head == HeadOf(s.events)
  }

  // ---- operations ----

  datatype Action =
    | Append(body: Body)
    | Claim(worker: string, limit: int, seconds: int, now: int)
    | Complete(hash: string, worker: string)
    | Release(hash: string, worker: string)

  /** The unique column raises on a repeated hash and the append is rolled back. */
  predicate Appendable(digest: Digest, s: Store, body: Body) {
    forall e :: e in s.events ==> e.hash != digest(body, s.head)
  }

  function Appended(digest: Digest, s: Store, body: Body): Store {
    var hash := digest(body, s.head);
    Store(s.events + [Event(body, s.head, hash)], hash,
          if exists r :: r in s.outbox && r.hash == hash then s.outbox
          else s.outbox + [OutRow(hash, |s.events| + 1, Pending, 0)])
  }

  predicate Eligible(r: OutRow, now: int) {
    r.state.Pending? || (r.state.Leased? && r.state.expires <= now)
  }

  function EligibleIn(rows: seq<OutRow>, now: int): nat {
    if rows == [] then 0 else EligibleIn(rows[..|rows| - 1], now) + if Eligible(rows[|rows| - 1], now) then 1 else 0
  }

  /** A row among the first eligible ones is leased to the worker. */
  function ClaimedRow(rows: seq<OutRow>, i: nat, worker: string, limit: int, seconds: int, now: int): OutRow
    requires i < |rows|
  {
    if Eligible(rows[i], now) && EligibleIn(rows[..i], now) < limit
    then rows[i].(state := Leased(worker, now + seconds), attempts := rows[i].attempts + 1)
    else rows[i]
  }

  function Claimed(rows: seq<OutRow>, worker: string, limit: int, seconds: int, now: int): (r: seq<OutRow>)
    ensures |r| == |rows| && forall i :: 0 <= i < |r| ==> r[i] == ClaimedRow(rows, i, worker, limit, seconds, now)
  {
    seq(|rows|, i requires 0 <= i < |rows| => ClaimedRow(rows, i, worker, limit, seconds, now))
  }

  predicate Owns(r: OutRow, hash: string, worker: string) {
    r.hash == hash && r.state.Leased? && r.state.owner == worker
  }

  /** The rows of a hash whose lease the worker holds move to a state. */
  function Settled(rows: seq<OutRow>, hash: string, worker: string, state: LeaseState): (r: seq<OutRow>)
    ensures |r| == |rows|
    ensures forall i :: 0 <= i < |r| ==> r[i] == if Owns(rows[i], hash, worker) then rows[i].(state := state) else rows[i]
  {
    seq(|rows|, i requires 0 <= i < |rows| => if Owns(rows[i], hash, worker) then rows[i].(state := state) else rows[i])
  }

  predicate ClaimOk(worker: string, limit: int, seconds: int) {
    !Blank(worker) && limit >= 1 && seconds >= 1
  }

  function Do(digest: Digest, s: Store, a: Action): Store {
    match a
    case Append(body) => if Appendable(digest, s, body) then Appended(digest, s, body) else s
    case Claim(worker, limit, seconds, now) =>
      if ClaimOk(worker, limit, seconds) then s.(outbox := Claimed(s.outbox, worker, limit, seconds, now)) else s
    case Complete(hash, worker) => s.(outbox := Settled(s.outbox, hash, worker, Delivered))
    case Release(hash, worker) => s.(outbox := Settled(s.outbox, hash, worker, Pending))
  }

  function RunAll(digest: Digest, actions: seq<Action>): Store {
    if actions == [] then EMPTY else Do(digest, RunAll(digest, actions[..|actions| - 1]), actions[|actions| - 1])
  }

  // ---- the ledger itself ----

  class EvidenceLedger {
    const digest: Digest
    var events: seq<Event>
    var head: string
    var outbox: seq<OutRow>

    function Contents(): Store
      reads this
    {
      Store(events, head, outbox)
    }

    constructor (digest: Digest)
      ensures this.digest == digest && Contents() == EMPTY
    {
      this.digest, events, head, outbox := digest, [], GENESIS, [];
    }

    /** The new hash, or None where a repeated hash rolls the append back. */
    method Append(body: Body) returns (hash: Option<string>)
      modifies this
      ensures Contents() == Do(digest, old(Contents()), Action.Append(body))
      ensures hash == if Appendable(digest, old(Contents()), body) then Some(digest(body, old(head))) else None
    {
      var h := digest(body, head);
      if exists e :: e in events && e.hash == h { return None; }
      var sequence := |events| + 1;
      events := events + [Event(body, head, h)];
      head := h;
      if !exists r :: r in outbox && r.hash == h { outbox := outbox + [OutRow(h, sequence, Pending, 0)]; }
      return Some(h);
    }

    method VerifyChain() returns (ok: bool)
      ensures ok <==> Verified(digest, Contents())
    {
      hide GENESIS;
      var parent := GENESIS;
      for i := 0 to |events|
        invariant parent == HashAt(events, i)
        invariant forall k :: 0 <= k < i ==> Linked(digest, events, k)
      {
        var event := events[i];
        if event.parent != parent || event.hash != digest(event.body, parent) {
          assert !Linked(digest, events, i);
          return false;
        }
        parent := event.hash;
      }
      return head == parent;
    }

    method ClaimAnchorOperations(worker: string, limit: int, seconds: int, now: int) returns (ok: bool)
      modifies this`outbox
      ensures ok <==> (exists c :: c in worker && !IsSpace(c)) && limit >= 1 && seconds >= 1
      ensures Contents() == Do(digest, old(Contents()), Claim(worker, limit, seconds, now))
    {
      if !ClaimOk(worker, limit, seconds) { return false; }
      var taken, rows := 0, outbox;
      for i := 0 to |rows|
        invariant |outbox| == |rows| && forall k :: i <= k < |rows| ==> outbox[k] == rows[k]
        invariant forall k :: 0 <= k < i ==> outbox[k] == ClaimedRow(rows, k, worker, limit, seconds, now)
        invariant taken == (if EligibleIn(rows[..i], now) < limit then EligibleIn(rows[..i], now) else limit)
      {
        assert rows[..i + 1][..i] == rows[..i];
        if Eligible(rows[i], now) && taken < limit {
          outbox := outbox[i := rows[i].(state := Leased(worker, now + seconds), attempts := rows[i].attempts + 1)];
          taken := taken + 1;
        }
      }
      return true;
    }

    method Settle(hash: string, worker: string, state: LeaseState) returns (changed: nat)
      modifies this`outbox
      ensures outbox == Settled(old(outbox), hash, worker, state)
      ensures changed > 0 <==> exists r :: r in old(outbox) && Owns(r, hash, worker)
    {
      changed := 0;
      var rows := outbox;
      for i := 0 to |rows|
        invariant |outbox| == |rows| && forall k :: i <= k < |rows| ==> outbox[k] == rows[k]
        invariant forall k :: 0 <= k < i ==> outbox[k] == if Owns(rows[k], hash, worker) then rows[k].(state := state) else rows[k]
        invariant changed > 0 <==> exists k :: 0 <= k < i && Owns(rows[k], hash, worker)
      {
        if Owns(rows[i], hash, worker) {
          outbox := outbox[i := rows[i].(state := state)];
          changed := changed + 1;
        }
      }
    }

    /** Raises, changing nothing, unless the worker holds the lease. */
    method CompleteAnchorOperation(hash: string, worker: string) returns (ok: bool)
      modifies this`outbox
      ensures ok <==> exists r :: r in old(outbox) && Owns(r, hash, worker)
      ensures Contents() == Do(digest, old(Contents()), Complete(hash, worker))
    {
      var changed := Settle(hash, worker, Delivered);
      ok := changed > 0;
    }

    method ReleaseAnchorOperation(hash: string, worker: string)
      modifies this`outbox
      ensures Contents() == Do(digest, old(Contents()), Release(hash, worker))
    {
      var _ := Settle(hash, worker, Pending);
    }
  }

  // ---- the chain ----

  lemma {:induction false} HashesDistinct(digest: Digest, events: seq<Event>, i: nat, j: nat)
    requires Collisionless(digest) && Chained(digest, events) && i < j <= |events|
    ensures HashAt(events, i) != HashAt(events, j)
  {
    hide Collisionless;
    assert Linked(digest, events, j - 1);
    if i == 0 {
      Injects(digest, events[j - 1].body, events[j - 1].parent, events[j - 1].body, events[j - 1].parent);
    } else {
      assert Linked(digest, events, i - 1);
      Injects(digest, events[i - 1].body, events[i - 1].parent, events[j - 1].body, events[j - 1].parent);
      HashesDistinct(digest, events, i - 1, j - 1);
    }
  }

  lemma AppendFresh(digest: Digest, s: Store, body: Body)
    requires Collisionless(digest) && Verified(digest, s)
    ensures Appendable(digest, s, body)
  {
    hide Collisionless;
    forall e | e in s.events ensures e.hash != digest(body, s.head) {
      var i :| 0 <= i < |s.events| && s.events[i] == e;
      assert Linked(digest, s.events, i);
      Injects(digest, body, s.head, e.body, e.parent);
      HashesDistinct(digest, s.events, i, |s.events|);
    }
  }

  /** On a verified ledger an append never clashes, keeps it verified, and only extends it. */
  lemma AppendKeeps(digest: Digest, s: Store, body: Body)
    requires Collisionless(digest) && Verified(digest, s)
    ensures Appendable(digest, s, body) && Verified(digest, Appended(digest, s, body))
    ensures s.events < Appended(digest, s, body).events
  {
    hide Collisionless;
    AppendFresh(digest, s, body);
    var events := Appended(digest, s, body).events;
    forall i | 0 <= i < |events| ensures Linked(digest, events, i) {
      if i < |s.events| { assert Linked(digest, s.events, i); }
    }
  }

  /** The head pins the whole history: verified ledgers with equal heads hold the same events. */
  lemma {:induction false} HeadPinsHistory(digest: Digest, a: seq<Event>, b: seq<Event>)
    requires Collisionless(digest) && Chained(digest, a) && Chained(digest, b) && HeadOf(a) == HeadOf(b)
    ensures a == b
    decreases |a|
  {
    hide Collisionless;
    if a != [] { HashesDistinct(digest, a, 0, |a|); }
    if b != [] { HashesDistinct(digest, b, 0, |b|); }
    if a != [] {
      var x, y := a[|a| - 1], b[|b| - 1];
      assert Linked(digest, a, |a| - 1) && Linked(digest, b, |b| - 1);
      Injects(digest, x.body, x.parent, y.body, y.parent);
      FrontChained(digest, a);
      FrontChained(digest, b);
      HeadPinsHistory(digest, a[..|a| - 1], b[..|b| - 1]);
      assert a == a[..|a| - 1] + [x] && b == b[..|b| - 1] + [y];
    }
  }

  lemma FrontChained(digest: Digest, a: seq<Event>)
    requires a != [] && Chained(digest, a)
    ensures Chained(digest, a[..|a| - 1])
  {
    var front := a[..|a| - 1];
    forall i | 0 <= i < |front| ensures Linked(digest, front, i) {
      assert Linked(digest, a, i);
    }
  }

  // ---- the outbox ----

  /** One row per event, in order. */
  ghost predicate RowPerEvent(s: Store) {
    && |s.outbox| == |s.events|
    && forall i :: 0 <= i < |s.events| ==> s.outbox[i].hash == s.events[i].hash && s.outbox[i].sequence == i + 1
  }

  /** Delivered rows stay as they are, and no row is lost. */
  ghost predicate Advances(s: Store, t: Store) {
    && |s.outbox| <= |t.outbox| && s.events <= t.events
    && forall i :: 0 <= i < |s.outbox| && s.outbox[i].state.Delivered? ==> t.outbox[i] == s.outbox[i]
  }

  lemma DoKeeps(digest: Digest, s: Store, a: Action)
    requires Collisionless(digest) && Verified(digest, s) && RowPerEvent(s)
    ensures Verified(digest, Do(digest, s, a)) && RowPerEvent(Do(digest, s, a)) && Advances(s, Do(digest, s, a))
  {
    hide Chained, Collisionless, EligibleIn;
    if a.Append? {
      AppendKeeps(digest, s, a.body);
      forall r | r in s.outbox ensures r.hash != digest(a.body, s.head) {
        var i :| 0 <= i < |s.outbox| && s.outbox[i] == r;
        assert s.events[i] in s.events;
      }
    }
  }

  predicate LeasedTo(s: Store, i: nat, worker: string) {
    i < |s.outbox| && s.outbox[i].state.Leased? && s.outbox[i].state.owner == worker
  }

  lemma DeliversOwned(digest: Digest, s: Store, a: Action, i: nat)
    requires i < |Do(digest, s, a).outbox| && Do(digest, s, a).outbox[i].state.Delivered?
    requires i < |s.outbox| ==> !s.outbox[i].state.Delivered?
    ensures a.Complete? && LeasedTo(s, i, a.worker) && s.outbox[i].hash == a.hash
  {
    hide EligibleIn;
  }

  /** A leased row was leased so before, or has just been claimed. */
  lemma LeasesClaimed(digest: Digest, s: Store, a: Action, i: nat, worker: string)
    requires LeasedTo(Do(digest, s, a), i, worker)
    ensures LeasedTo(s, i, worker) || (a.Claim? && a.worker == worker)
  {
    hide EligibleIn;
  }

  /** The claim behind a lease, and the worker's hold on the row ever since. */
  lemma {:induction false} LeaseHasClaim(digest: Digest, actions: seq<Action>, i: nat, worker: string) returns (k: nat)
    requires LeasedTo(RunAll(digest, actions), i, worker)
    ensures k < |actions| && actions[k].Claim? && actions[k].worker == worker
    ensures forall t :: k < t <= |actions| ==> LeasedTo(RunAll(digest, actions[..t]), i, worker)
  {
    hide Do, LeasedTo;
    if actions == [] {
      NothingLeased(i, worker);
      assert false;
    } else {
      var front := actions[..|actions| - 1];
      assert actions[..|actions|] == actions;
      LeasesClaimed(digest, RunAll(digest, front), actions[|actions| - 1], i, worker);
      if LeasedTo(RunAll(digest, front), i, worker) {
        k := LeaseHasClaim(digest, front, i, worker);
        assert forall t :: 0 <= t < |actions| ==> front[..t] == actions[..t];
      } else {
        k := |actions| - 1;
      }
    }
  }

  lemma NothingLeased(i: nat, worker: string)
    ensures !LeasedTo(EMPTY, i, worker)
  {}

  /** Over every interleaving, a delivered row was completed, under its own hash, by a worker that had
      claimed it earlier and held its lease from then on. */
  lemma {:induction false} DeliveredByOwner(digest: Digest, actions: seq<Action>, i: nat) returns (k: nat, j: nat)
    requires Collisionless(digest) && i < |RunAll(digest, actions).outbox| && RunAll(digest, actions).outbox[i].state.Delivered?
    ensures k < j < |actions| && actions[k].Claim? && actions[j].Complete?
    ensures actions[k].worker == actions[j].worker && actions[j].hash == RunAll(digest, actions).outbox[i].hash
    ensures forall t :: k < t <= j ==> LeasedTo(RunAll(digest, actions[..t]), i, actions[k].worker)
  {
    hide Do, LeasedTo, Verified, Collisionless, RowPerEvent;
    if actions == [] {
      assert false;
    } else {
      var front, a := actions[..|actions| - 1], actions[|actions| - 1];
      var before := RunAll(digest, front);
      RunAllKeeps(digest, front);
      DoKeeps(digest, before, a);
      if i < |before.outbox| && before.outbox[i].state.Delivered? {
        k, j := DeliveredByOwner(digest, front, i);
        assert forall t :: 0 <= t < |actions| ==> front[..t] == actions[..t];
      } else {
        DeliversOwned(digest, before, a, i);
        j := |actions| - 1;
        k := LeaseHasClaim(digest, front, i, a.worker);
        assert forall t :: 0 <= t <= j ==> front[..t] == actions[..t];
        CompleteKeepsHash(digest, before, a, i);
      }
    }
  }

  lemma CompleteKeepsHash(digest: Digest, s: Store, a: Action, i: nat)
    requires a.Complete? && i < |Do(digest, s, a).outbox|
    ensures i < |s.outbox| && Do(digest, s, a).outbox[i].hash == s.outbox[i].hash
  {}

  lemma {:induction false} RunAllKeeps(digest: Digest, actions: seq<Action>)
    requires Collisionless(digest)
    ensures Verified(digest, RunAll(digest, actions)) && RowPerEvent(RunAll(digest, actions))
  {
    hide Verified, RowPerEvent, Do;
    if actions == [] {
      EmptyVerified(digest);
    } else {
      RunAllKeeps(digest, actions[..|actions| - 1]);
      DoKeeps(digest, RunAll(digest, actions[..|actions| - 1]), actions[|actions| - 1]);
    }
  }

  lemma EmptyVerified(digest: Digest)
    ensures Verified(digest, EMPTY) && RowPerEvent(EMPTY)
  {}

  lemma AdvancesTransitive(a: Store, b: Store, c: Store)
    requires Advances(a, b) && Advances(b, c)
    ensures Advances(a, c)
  {}

  /** Under every interleaving, history is append-only and delivery is final. */
  lemma {:induction false} RunAdvances(digest: Digest, actions: seq<Action>, more: seq<Action>)
    requires Collisionless(digest)
    ensures Advances(RunAll(digest, actions), RunAll(digest, actions + more))
  {
    hide Advances, Verified, RowPerEvent, Do;
    if more == [] {
      assert actions + more == actions;
      AdvancesSelf(RunAll(digest, actions));
    } else {
      var front := more[..|more| - 1];
      RunAdvances(digest, actions, front);
      assert (actions + more)[..|actions + more| - 1] == actions + front;
      RunAllKeeps(digest, actions + front);
      DoKeeps(digest, RunAll(digest, actions + front), more[|more| - 1]);
      AdvancesTransitive(RunAll(digest, actions), RunAll(digest, actions + front), RunAll(digest, actions + more));
    }
  }

  lemma AdvancesSelf(s: Store)
    ensures Advances(s, s)
  {}

  /** Two ledgers that reached the same head went through the same events. */
  lemma EqualHeadsEqualEvents(digest: Digest, actions: seq<Action>, others: seq<Action>)
    requires Collisionless(digest) && RunAll(digest, actions).head == RunAll(digest, others).head
    ensures RunAll(digest, actions).events == RunAll(digest, others).events
  {
    hide RunAll, Chained;
    RunAllKeeps(digest, actions);
    RunAllKeeps(digest, others);
    HeadPinsHistory(digest, RunAll(digest, actions).events, RunAll(digest, others).events);
  }

  // ---- leases ----

  /** A held lease is safe until it expires: until then only its worker, completing or releasing that
      row, can change it. */
  lemma LeaseHeld(digest: Digest, s: Store, a: Action, i: nat)
    requires i < |s.outbox| && s.outbox[i].state.Leased? && i < |Do(digest, s, a).outbox|
    requires a.Claim? ==> a.now < s.outbox[i].state.expires
    requires (a.Complete? || a.Release?) ==> a.worker != s.outbox[i].state.owner || a.hash != s.outbox[i].hash
    ensures Do(digest, s, a).outbox[i] == s.outbox[i]
  {
    hide EligibleIn;
  }

  predicate Takeable(r: OutRow, now: int) {
    match r.state
    case Pending => true
    case Leased(_, expires) => expires <= now
    case Delivered => false
  }

  function TakeableBefore(rows: seq<OutRow>, i: nat, now: int): set<int>
    requires i <= |rows|
  {
    set k | 0 <= k < i && Takeable(rows[k], now)
  }

  /** A claim leases, from its time on, exactly the pending and expired rows that fewer than limit such
      rows precede, one more attempt counted, and leaves every other row as it is. */
  lemma ClaimLeases(digest: Digest, s: Store, worker: string, limit: int, seconds: int, now: int, i: nat)
    requires !Blank(worker) && limit >= 1 && seconds >= 1 && i < |s.outbox|
    ensures var t := Do(digest, s, Claim(worker, limit, seconds, now));
            && |t.outbox| == |s.outbox| && t.events == s.events && t.head == s.head
            && t.outbox[i] == if Takeable(s.outbox[i], now) && |TakeableBefore(s.outbox, i, now)| < limit
                              then OutRow(s.outbox[i].hash, s.outbox[i].sequence, Leased(worker, now + seconds), s.outbox[i].attempts + 1)
                              else s.outbox[i]
  {
    hide Eligible, EligibleIn;
    EligibleCount(s.outbox, i, now);
    assert Eligible(s.outbox[i], now) <==> Takeable(s.outbox[i], now) by { EligibleTakeable(s.outbox[i], now); }
  }

  lemma EligibleTakeable(r: OutRow, now: int)
    ensures Eligible(r, now) <==> Takeable(r, now)
  {}

  lemma TakeableNext(rows: seq<OutRow>, i: nat, now: int)
    requires i < |rows|
    ensures TakeableBefore(rows, i + 1, now) == TakeableBefore(rows, i, now) + if Takeable(rows[i], now) then {i} else {}
  {
    hide Takeable;
  }

  lemma {:induction false} EligibleCount(rows: seq<OutRow>, i: nat, now: int)
    requires i <= |rows|
    ensures EligibleIn(rows[..i], now) == |TakeableBefore(rows, i, now)|
  {
    hide Takeable, Eligible;
    if i == 0 {
      assert TakeableBefore(rows, i, now) == {};
    } else {
      EligibleCount(rows, i - 1, now);
      EligibleTakeable(rows[i - 1], now);
      assert rows[..i][..i - 1] == rows[..i - 1];
      TakeableNext(rows, i - 1, now);
    }
  }

  // ---- the other operations, row by row ----

  /** An append puts one event behind the history, moves the head to it, and queues one pending,
      never attempted row for it. */
  lemma AppendMeans(digest: Digest, s: Store, body: Body)
    requires Collisionless(digest) && Verified(digest, s) && RowPerEvent(s)
    ensures var hash := digest(body, s.head);
            Do(digest, s, Append(body))
              == Store(s.events + [Event(body, s.head, hash)], hash, s.outbox + [OutRow(hash, |s.outbox| + 1, Pending, 0)])
  {
    hide Collisionless, Verified;
    AppendKeeps(digest, s, body);
    forall r | r in s.outbox ensures r.hash != digest(body, s.head) {
      var i :| 0 <= i < |s.outbox| && s.outbox[i] == r;
      assert s.events[i] in s.events;
    }
  }

  /** Completing delivers, and releasing returns to pending, exactly the row of that hash leased to that
      worker; what has been attempted stays counted. */
  lemma SettleMeans(digest: Digest, s: Store, hash: string, worker: string, i: nat)
    requires i < |s.outbox|
    ensures var (r, done, back) := (s.outbox[i], Do(digest, s, Complete(hash, worker)), Do(digest, s, Release(hash, worker)));
            && done.events == back.events == s.events && done.head == back.head == s.head
            && |done.outbox| == |back.outbox| == |s.outbox|
            && if r.hash == hash && r.state.Leased? && r.state.owner == worker
               then done.outbox[i] == OutRow(hash, r.sequence, Delivered, r.attempts) && back.outbox[i] == OutRow(hash, r.sequence, Pending, r.attempts)
               else done.outbox[i] == back.outbox[i] == r
  {}

  lemma TakeableFew(rows: seq<OutRow>, i: nat, now: int)
    requires i <= |rows|
    ensures |TakeableBefore(rows, i, now)| <= i
  {
    if i > 0 {
      TakeableFew(rows, i - 1, now);
      TakeableNext(rows, i - 1, now);
    }
  }

  /** No row is stuck: whatever holds it, once its lease has run out any worker that claims enough rows
      and completes this one delivers it. */
  lemma CanDeliver(digest: Digest, actions: seq<Action>, i: nat, worker: string, limit: int, seconds: int, now: int)
    requires i < |RunAll(digest, actions).outbox| && limit > i && seconds >= 1 && !Blank(worker)
    requires var state := RunAll(digest, actions).outbox[i].state; state.Leased? ==> state.expires <= now
    ensures var hash := RunAll(digest, actions).outbox[i].hash;
            var rows := RunAll(digest, actions + [Claim(worker, limit, seconds, now), Complete(hash, worker)]).outbox;
            i < |rows| && rows[i].state == Delivered
  {
    hide Do, Takeable;
    var s := RunAll(digest, actions);
    var claim, hash := Claim(worker, limit, seconds, now), s.outbox[i].hash;
    var all := actions + [claim, Complete(hash, worker)];
    assert all[..|all| - 1] == actions + [claim] && (actions + [claim])[..|actions|] == actions;
    TakeableFew(s.outbox, i, now);
    ClaimLeases(digest, s, worker, limit, seconds, now, i);
    TakeableMeans(s.outbox[i], now);
    var t := Do(digest, s, claim);
    SettleMeans(digest, t, hash, worker, i);
  }

  lemma TakeableMeans(r: OutRow, now: int)
    ensures Takeable(r, now) <==> r.state == Pending || (r.state.Leased? && r.state.expires <= now)
  {}
}
