/** The final verifier: which receipts are fresh, and when the task is complete. */
module Completion {
  import opened GraphSchema

  datatype Status = Pass | Fail | Inconclusive

  /** A check of an action's report; issued is its receipt time, empty where there is none, and
      signed is the workspace digest of a verified receipt, if it carries one. */
  datatype Check = Check(name: string, status: Status, issued: string, signed: Option<string>)

  datatype Action = Action(sequence: int, source: Option<string>, checks: seq<Check>)

  /** Text order of the source: by characters, a prefix before its extensions. */
  predicate Before(a: string, b: string) {
    if b == [] then false
    else if a == [] then true
    else a[0] < b[0] || (a[0] == b[0] && Before(a[1..], b[1..]))
  }

  lemma {:induction false} BeforeTotal(a: string, b: string)
    ensures (Before(a, b) || Before(b, a) || a == b) && !(Before(a, b) && Before(b, a)) && !Before(a, a)
    decreases |a| + |b|
  {
    BeforeIrreflexive(a);
    if a != [] && b != [] {
      assert a == [a[0]] + a[1..] && b == [b[0]] + b[1..];
      BeforeTotal(a[1..], b[1..]);
    }
  }

  lemma {:induction false} BeforeIrreflexive(a: string)
    ensures !Before(a, a)
  {
    if a != [] { BeforeIrreflexive(a[1..]); }
  }

  lemma {:induction false} BeforeTransitive(a: string, b: string, c: string)
    requires Before(a, b) && Before(b, c)
    ensures Before(a, c)
    decreases |b|
  {
    if a != [] && a[0] == b[0] && b[0] == c[0] {
      BeforeTransitive(a[1..], b[1..], c[1..]);
    }
  }

  /** The order written out: where the texts first differ the smaller character decides, and a text
      comes before its extensions. */
  lemma {:induction false} BeforeMeans(a: string, b: string)
    ensures Before(a, b) <==> exists i :: 0 <= i < |b| && i <= |a| && a[..i] == b[..i] && (i == |a| || a[i] < b[i])
  {
    if b != [] && a != [] {
      BeforeMeans(a[1..], b[1..]);
      assert a == [a[0]] + a[1..] && b == [b[0]] + b[1..];
      if a[0] < b[0] { assert a[..0] == b[..0]; }
      if a[0] == b[0] && Before(a[1..], b[1..]) {
        var i :| 0 <= i < |b[1..]| && i <= |a[1..]| && a[1..][..i] == b[1..][..i] && (i == |a[1..]| || a[1..][i] < b[1..][i]);
        assert a[..i + 1] == [a[0]] + a[1..][..i] && b[..i + 1] == [b[0]] + b[1..][..i];
      }
      if i :| 0 <= i < |b| && i <= |a| && a[..i] == b[..i] && (i == |a| || a[i] < b[i]) {
        if i > 0 {
          assert a[..i][0] == b[..i][0];
          assert a[1..][..i - 1] == a[..i][1..] && b[1..][..i - 1] == b[..i][1..];
        }
      }
    } else if b != [] {
      assert a[..0] == b[..0];
    }
  }

  // ---- gathering evidence ----

  /** The workspace digest an action's receipts agree on. */
  function SourceDigest(checks: seq<Check>): Option<string> {
    var signed := set c | c in checks && c.signed.Some? && c.signed.value != "" :: c.signed.value;
    if |signed| == 1 then Some(Only(signed)) else None
  }

  function Only(s: set<string>): string
    requires |s| == 1
  {
    OnlyIs(s);
    var x :| x in s;
    x
  }

  lemma OnlyIs(s: set<string>)
    requires |s| == 1
    ensures exists x :: x in s
    ensures forall x, y :: x in s && y in s ==> x == y
  {
    assert s != {};
    var x :| x in s;
    assert |s - {x}| == 0;
    forall y | y in s ensures y == x { assert y !in s - {x}; }
  }

  /** Some signed receipt names the digest, and none names another. */
  predicate Agreed(checks: seq<Check>, digest: string) {
    && digest != "" && (exists c :: c in checks && c.signed == Some(digest))
    && forall c :: c in checks && c.signed.Some? && c.signed.value != "" ==> c.signed.value == digest
  }

  lemma SourceAgreed(checks: seq<Check>, digest: string)
    ensures SourceDigest(checks) == Some(digest) <==> Agreed(checks, digest)
  {
    var signed := set c | c in checks && c.signed.Some? && c.signed.value != "" :: c.signed.value;
    if |signed| == 1 { OnlyIs(signed); }
    if Agreed(checks, digest) { assert signed == {digest}; }
    if SourceDigest(checks) == Some(digest) {
      assert digest in signed;
      forall c | c in checks && c.signed.Some? && c.signed.value != "" ensures c.signed.value == digest {
        assert c.signed.value in signed;
      }
    }
  }

  class EvidenceAccumulator {
    var actions: seq<Action>

    /** Actions are numbered from one, without gaps. */
    ghost predicate Valid()
      reads this
    {
      forall i :: 0 <= i < |actions| ==> actions[i].sequence == i + 1
    }

    constructor ()
      ensures Valid() && actions == []
    {
      actions := [];
    }

    /** One more action, numbered on; a workspace digest is recorded exactly where some signed receipt
        names it and no signed receipt names another. */
    method Append(checks: seq<Check>)
      requires Valid()
      modifies this
      ensures Valid() && |actions| == |old(actions)| + 1 && old(actions) < actions
      ensures actions[|old(actions)|].checks == checks
      ensures forall digest :: actions[|old(actions)|].source == Some(digest) <==> Agreed(checks, digest)
    {
      actions := actions + [Action(|actions| + 1, SourceDigest(checks), checks)];
      forall digest ensures SourceDigest(checks) == Some(digest) <==> Agreed(checks, digest) { SourceAgreed(checks, digest); }
    }
  }

  // ---- fresh statuses ----

  datatype Entry = Entry(sequence: int, issued: string, status: Status)

  /** Actions about the final workspace; only the last one if that is not known. */
  function Relevant(actions: seq<Action>): seq<Action> {
    if actions == [] then []
    else
      var last := actions[|actions| - 1];
      if last.source.None? then [last] else WithSource(actions, last.source)
  }

  function WithSource(actions: seq<Action>, source: Option<string>): (r: seq<Action>)
    ensures forall a :: a in r <==> a in actions && a.source == source
  {
    if actions == [] then []
    else
      var rest := WithSource(actions[1..], source);
      assert actions == [actions[0]] + actions[1..];
      if actions[0].source == source then [actions[0]] + rest else rest
  }

  /** An entry of a named check among the relevant actions. */
  predicate IsEntry(actions: seq<Action>, name: string, e: Entry) {
    exists a, c :: a in Relevant(actions) && c in a.checks && c.name == name
      && e == Entry(a.sequence, c.issued, c.status)
  }

  predicate Later(d: Entry, e: Entry) {
    Before(d.issued, e.issued) || (d.issued == e.issued && d.sequence < e.sequence)
  }

  /** No entry of the check is later. */
  ghost predicate Latest(actions: seq<Action>, name: string, e: Entry) {
    IsEntry(actions, name, e) && forall d :: IsEntry(actions, name, d) ==> !Later(e, d)
  }

  /** The check's latest receipt exists and every receipt as late has the status. */
  ghost predicate Freshly(actions: seq<Action>, name: string, status: Status) {
    && (exists e :: Latest(actions, name, e))
    && forall e :: Latest(actions, name, e) ==> e.status == status
  }

  ghost predicate FreshlyPasses(actions: seq<Action>, name: string) {
    Freshly(actions, name, Pass)
  }

  ghost predicate Evidenced(actions: seq<Action>, name: string) {
    exists e :: IsEntry(actions, name, e)
  }

  /** Evidence from the final workspace; only the last action's if that workspace is not known. */
  predicate Current(actions: seq<Action>, a: Action) {
    && a in actions
    && var last := actions[|actions| - 1];
       if last.source.Some? then a.source == last.source else a == last
  }

  /** The selection loop keeps exactly that evidence. */
  lemma RelevantCurrent(actions: seq<Action>, a: Action)
    ensures a in Relevant(actions) <==> Current(actions, a)
  {}

  /** A check of that evidence which none of its name outdates: the receipt time decides, and at equal
      times the action's number. */
  ghost predicate Newest(actions: seq<Action>, name: string, a: Action, c: Check) {
    && Current(actions, a) && c in a.checks && c.name == name
    && forall b, d :: Current(actions, b) && d in b.checks && d.name == name ==>
         Before(d.issued, c.issued) || (d.issued == c.issued && b.sequence <= a.sequence)
  }

  lemma NewestLatest(actions: seq<Action>, name: string, a: Action, c: Check)
    requires Current(actions, a) && c in a.checks && c.name == name
    ensures Newest(actions, name, a, c) <==> Latest(actions, name, Entry(a.sequence, c.issued, c.status))
  {
    hide Relevant, Current;
    var e := Entry(a.sequence, c.issued, c.status);
    forall x ensures x in Relevant(actions) <==> Current(actions, x) { RelevantCurrent(actions, x); }
    assert IsEntry(actions, name, e);
    forall b, d | Current(actions, b) && d in b.checks && d.name == name
      ensures IsEntry(actions, name, Entry(b.sequence, d.issued, d.status))
      ensures Later(e, Entry(b.sequence, d.issued, d.status))
              <==> !(Before(d.issued, c.issued) || (d.issued == c.issued && b.sequence <= a.sequence)) {
      BeforeTotal(c.issued, d.issued);
    }
  }

  /** A status is fresh exactly when there is a newest check of the name, and all newest ones have it. */
  lemma FreshlyMeans(actions: seq<Action>, name: string, status: Status)
    ensures Freshly(actions, name, status)
            <==> && (exists a, c :: Newest(actions, name, a, c))
                 && (forall a, c :: Newest(actions, name, a, c) ==> c.status == status)
  {
    hide Current, Relevant, Later;
    forall x ensures x in Relevant(actions) <==> Current(actions, x) { RelevantCurrent(actions, x); }
    forall a, c | Newest(actions, name, a, c) ensures Latest(actions, name, Entry(a.sequence, c.issued, c.status)) {
      NewestLatest(actions, name, a, c);
    }
    forall e | Latest(actions, name, e)
      ensures exists a, c :: Newest(actions, name, a, c) && e == Entry(a.sequence, c.issued, c.status) {
      var a, c :| a in Relevant(actions) && c in a.checks && c.name == name && e == Entry(a.sequence, c.issued, c.status);
      NewestLatest(actions, name, a, c);
    }
  }

  /** Some check of that evidence passes under the name. */
  ghost predicate PassedNow(actions: seq<Action>, name: string) {
    exists a, c :: Current(actions, a) && c in a.checks && c.name == name && c.status == Pass
  }

  /** What freshly passes has a pass on the final workspace itself, or on the last action. */
  lemma PassIsCurrent(actions: seq<Action>, name: string)
    requires FreshlyPasses(actions, name)
    ensures PassedNow(actions, name)
  {
    hide Relevant, Current, Later;
    var e :| Latest(actions, name, e);
    var a, c :| a in Relevant(actions) && c in a.checks && c.name == name && e == Entry(a.sequence, c.issued, c.status);
    RelevantCurrent(actions, a);
  }

  /** The same evidence of the final workspace, whatever there is of other workspaces. */
  ghost predicate SameNow(actions: seq<Action>, others: seq<Action>) {
    && actions != [] && others != [] && actions[|actions| - 1] == others[|others| - 1]
    && var last := actions[|actions| - 1];
       last.source.Some? ==> forall a: Action :: a.source == last.source ==> (a in actions <==> a in others)
  }

  lemma SameEntries(actions: seq<Action>, others: seq<Action>, name: string, e: Entry)
    requires SameNow(actions, others)
    ensures IsEntry(actions, name, e) <==> IsEntry(others, name, e)
  {
    hide Relevant;
    forall a ensures a in Relevant(actions) <==> a in Relevant(others) {
      RelevantCurrent(actions, a);
      RelevantCurrent(others, a);
    }
  }

  /** Evidence of other workspaces decides nothing: removing or adding it changes no status. */
  lemma OthersIrrelevant(actions: seq<Action>, others: seq<Action>, name: string)
    requires SameNow(actions, others)
    ensures Evidenced(actions, name) <==> Evidenced(others, name)
    ensures forall status :: Freshly(actions, name, status) <==> Freshly(others, name, status)
  {
    hide IsEntry, Later, SameNow;
    forall e ensures IsEntry(actions, name, e) <==> IsEntry(others, name, e) { SameEntries(actions, others, name, e); }
    assert forall e :: Latest(actions, name, e) <==> Latest(others, name, e);
  }

  // ---- the loops that compute it ----

  type Candidates = map<string, seq<Entry>>

  ghost predicate Holds(c: Candidates, name: string, e: Entry) {
    name in c && e in c[name]
  }

  method Gather(actions: seq<Action>) returns (candidates: Candidates)
    ensures forall name, e :: Holds(candidates, name, e) <==> IsEntry(actions, name, e)
    ensures forall name :: name in candidates ==> candidates[name] != []
  {
    candidates := map[];
    var relevant := Relevant(actions);
    for i := 0 to |relevant|
      invariant forall name, e :: Holds(candidates, name, e) <==> EntryIn(relevant[..i], [], 0, name, e)
      invariant forall name :: name in candidates ==> candidates[name] != []
    {
      hide EntryIn;
      var action := relevant[i];
      forall name, e ensures EntryIn(relevant[..i], [], 0, name, e) <==> EntryIn(relevant[..i], action.checks[..0], action.sequence, name, e) {
        NoChecks(relevant[..i], action, name, e);
      }
      for k := 0 to |action.checks|
        invariant forall name, e :: Holds(candidates, name, e) <==> EntryIn(relevant[..i], action.checks[..k], action.sequence, name, e)
        invariant forall name :: name in candidates ==> candidates[name] != []
      {
        var check := action.checks[k];
        var sofar := if check.name in candidates then candidates[check.name] else [];
        var entry := Entry(action.sequence, check.issued, check.status);
        forall name, e
          ensures EntryIn(relevant[..i], action.checks[..k + 1], action.sequence, name, e)
                  <==> EntryIn(relevant[..i], action.checks[..k], action.sequence, name, e) || (name == check.name && e == entry) {
          OneMoreCheck(relevant[..i], action.checks, action.sequence, k, name, e);
        }
        ghost var before := candidates;
        candidates := candidates[check.name := sofar + [entry]];
        forall name, e ensures Holds(candidates, name, e) <==> Holds(before, name, e) || (name == check.name && e == entry) {
          assert e in sofar + [entry] <==> e in sofar || e == entry;
        }
      }
      forall name, e
        ensures EntryIn(relevant[..i], action.checks[..|action.checks|], action.sequence, name, e) <==> EntryIn(relevant[..i + 1], [], 0, name, e) {
        OneMoreAction(relevant, i, name, e);
      }
    }
    assert relevant[..|relevant|] == relevant;
  }

  /** Entries of whole actions, and of the first checks of the next. */
  predicate EntryIn(actions: seq<Action>, checks: seq<Check>, sequence: int, name: string, e: Entry) {
    || (exists a, c :: a in actions && c in a.checks && c.name == name && e == Entry(a.sequence, c.issued, c.status))
    || (exists c :: c in checks && c.name == name && e == Entry(sequence, c.issued, c.status))
  }

  lemma NoChecks(actions: seq<Action>, a: Action, name: string, e: Entry)
    ensures EntryIn(actions, [], 0, name, e) <==> EntryIn(actions, a.checks[..0], a.sequence, name, e)
  {}

  lemma OneMoreCheck(actions: seq<Action>, checks: seq<Check>, sequence: int, k: nat, name: string, e: Entry)
    requires k < |checks|
    ensures EntryIn(actions, checks[..k + 1], sequence, name, e)
            <==> EntryIn(actions, checks[..k], sequence, name, e)
                 || (name == checks[k].name && e == Entry(sequence, checks[k].issued, checks[k].status))
  {
    assert checks[..k + 1] == checks[..k] + [checks[k]];
  }

  lemma OneMoreAction(actions: seq<Action>, i: nat, name: string, e: Entry)
    requires i < |actions|
    ensures EntryIn(actions[..i], actions[i].checks[..|actions[i].checks|], actions[i].sequence, name, e)
            <==> EntryIn(actions[..i + 1], [], 0, name, e)
  {
    assert actions[..i + 1] == actions[..i] + [actions[i]];
    assert actions[i].checks[..|actions[i].checks|] == actions[i].checks;
  }

  /** A latest entry of a non-empty list, the first of those as late. */
  method LatestOf(entries: seq<Entry>) returns (latest: Entry)
    requires entries != []
    ensures latest in entries && forall d :: d in entries ==> !Later(latest, d)
  {
    latest := entries[0];
    BeforeTotal(latest.issued, latest.issued);
    for i := 1 to |entries|
      invariant latest in entries
      invariant forall k :: 0 <= k < i ==> !Later(latest, entries[k])
    {
      if Later(latest, entries[i]) {
        forall k | 0 <= k < i ensures !Later(entries[i], entries[k]) {
          NotLater(latest, entries[i], entries[k]);
        }
        BeforeTotal(entries[i].issued, entries[i].issued);
        latest := entries[i];
      }
    }
  }

  lemma NotLater(a: Entry, b: Entry, c: Entry)
    requires Later(a, b) && !Later(a, c)
    ensures !Later(b, c)
  {
    BeforeTotal(a.issued, c.issued);
    BeforeTotal(b.issued, c.issued);
    if Before(a.issued, b.issued) && Before(b.issued, c.issued) { BeforeTransitive(a.issued, b.issued, c.issued); }
  }

  /** Whether a status is the one all latest receipts of a check have; where they disagree, or have
      none of the two decisive statuses, the check is inconclusive. */
  ghost predicate Decided(actions: seq<Action>, name: string, status: Status) {
    forall s: Status :: s != Inconclusive ==> (status == s <==> Freshly(actions, name, s))
  }

  /** The status of each check there is evidence for. */
  method FreshStatuses(actions: seq<Action>) returns (statuses: map<string, Status>)
    ensures forall name :: name in statuses <==> Evidenced(actions, name)
    ensures forall name :: name in statuses ==> Decided(actions, name, statuses[name])
    ensures forall name :: name in statuses && statuses[name] == Pass <==> FreshlyPasses(actions, name)
  {
    hide IsEntry, Decided, Evidenced, Holds, FreshlyPasses;
    var candidates := Gather(actions);
    CandidatesEvidenced(actions, candidates);
    statuses := map[];
    var names := candidates.Keys;
    while names != {}
      invariant names <= candidates.Keys && statuses.Keys == candidates.Keys - names
      invariant forall name :: name in statuses ==> Decided(actions, name, statuses[name])
      decreases |names|
    {
      var name :| name in names;
      var latest := LatestOf(candidates[name]);
      var tied := set e | e in candidates[name] && e.issued == latest.issued && e.sequence == latest.sequence :: e.status;
      TiedDecides(actions, name, candidates[name], latest, tied);
      statuses := statuses[name := if |tied| > 1 then Inconclusive else latest.status];
      names := names - {name};
    }
    PassesFresh(actions, statuses);
  }

  lemma CandidatesEvidenced(actions: seq<Action>, candidates: Candidates)
    requires forall name, e :: Holds(candidates, name, e) <==> IsEntry(actions, name, e)
    requires forall name :: name in candidates ==> candidates[name] != []
    ensures forall name :: name in candidates <==> Evidenced(actions, name)
    ensures forall name, e :: name in candidates ==> (e in candidates[name] <==> IsEntry(actions, name, e))
  {
    hide IsEntry;
    forall name ensures name in candidates <==> Evidenced(actions, name) {
      if name in candidates { assert Holds(candidates, name, candidates[name][0]); }
      if Evidenced(actions, name) {
        var e :| IsEntry(actions, name, e);
        assert Holds(candidates, name, e);
      }
    }
    forall name, e | name in candidates ensures e in candidates[name] <==> IsEntry(actions, name, e) {
      assert Holds(candidates, name, e) <==> IsEntry(actions, name, e);
    }
  }

  lemma TiedDecides(actions: seq<Action>, name: string, entries: seq<Entry>, latest: Entry, tied: set<Status>)
    requires forall e :: e in entries <==> IsEntry(actions, name, e)
    requires latest in entries && forall d :: d in entries ==> !Later(latest, d)
    requires tied == set e | e in entries && e.issued == latest.issued && e.sequence == latest.sequence :: e.status
    ensures Decided(actions, name, if |tied| > 1 then Inconclusive else latest.status)
  {
    hide IsEntry;
    assert Latest(actions, name, latest);
    forall e ensures Latest(actions, name, e) <==> e in entries && e.issued == latest.issued && e.sequence == latest.sequence {
      BeforeTotal(e.issued, latest.issued);
      if Latest(actions, name, e) { assert !Later(latest, e) && !Later(e, latest); }
    }
    assert latest.status in tied;
    if |tied| <= 1 {
      forall s | s in tied ensures s == latest.status {
        if s != latest.status { TwoMembers(tied, s, latest.status); }
      }
      forall e | Latest(actions, name, e) ensures e.status == latest.status { assert e.status in tied; }
    } else {
      Another(tied, latest.status);
      var b :| b in tied && b != latest.status;
      var e :| e in entries && e.issued == latest.issued && e.sequence == latest.sequence && e.status == b;
      assert Latest(actions, name, e);
    }
  }

  lemma TwoMembers(s: set<Status>, a: Status, b: Status)
    requires a in s && b in s && a != b
    ensures |s| >= 2
  {
    assert |s - {a}| == |s| - 1 && b in s - {a};
  }

  lemma Another(s: set<Status>, a: Status)
    requires |s| > 1
    ensures exists b :: b in s && b != a
  {
    assert |s - {a}| >= |s| - 1;
    assert s - {a} != {};
    var b :| b in s - {a};
  }

  // ---- the final verifier ----

  datatype Goal = Goal(conditions: seq<string>)

  /** The checks bound to each condition, and the guards of the whole task. */
  datatype Bindings = Bindings(checks: map<string, seq<string>>, guards: seq<string>)

  predicate BindingsCover(b: Bindings, goal: Goal) {
    && (forall c :: c in goal.conditions ==> c in b.checks && b.checks[c] != [])
    && (forall c :: c in b.checks ==> c in goal.conditions)
  }

  /** The condition of success, stated without the loops that decide it. */
  ghost predicate Complete(b: Bindings, goal: Goal, actions: seq<Action>) {
    && actions != []
    && (forall c, n :: c in goal.conditions && c in b.checks && n in b.checks[c] ==> FreshlyPasses(actions, n))
    && (forall n :: n in b.guards ==> FreshlyPasses(actions, n))
  }

  lemma PassesFresh(actions: seq<Action>, statuses: map<string, Status>)
    requires forall name :: name in statuses <==> Evidenced(actions, name)
    requires forall name :: name in statuses ==> Decided(actions, name, statuses[name])
    ensures forall name :: name in statuses && statuses[name] == Pass <==> FreshlyPasses(actions, name)
  {
    hide IsEntry;
    forall name ensures name in statuses && statuses[name] == Pass <==> FreshlyPasses(actions, name) {
      if FreshlyPasses(actions, name) {
        var e :| Latest(actions, name, e);
        assert Evidenced(actions, name);
      }
    }
  }

  /** Every check bound to a condition of the goal and every guard has a pass on the final workspace. */
  ghost predicate PassedAll(b: Bindings, goal: Goal, actions: seq<Action>) {
    && (forall c :: c in goal.conditions ==>
          c in b.checks && b.checks[c] != [] && forall n :: n in b.checks[c] ==> PassedNow(actions, n))
    && forall n :: n in b.guards ==> PassedNow(actions, n)
  }

  lemma CompletePasses(b: Bindings, goal: Goal, actions: seq<Action>)
    requires BindingsCover(b, goal) && Complete(b, goal, actions)
    ensures PassedAll(b, goal, actions)
  {
    hide FreshlyPasses, PassedNow;
    forall n | FreshlyPasses(actions, n) ensures PassedNow(actions, n) { PassIsCurrent(actions, n); }
  }

  /** The newest checks of the name on the final workspace pass, and there is one. */
  ghost predicate NewestPass(actions: seq<Action>, name: string) {
    && (exists a, c :: Newest(actions, name, a, c))
    && forall a, c :: Newest(actions, name, a, c) ==> c.status == Pass
  }

  ghost predicate BoundTo(b: Bindings, goal: Goal, name: string) {
    exists c :: c in goal.conditions && c in b.checks && name in b.checks[c]
  }

  /** Success written out: the newest checks pass of everything bound to a condition of the goal and
      of every guard. */
  lemma CompleteMeans(b: Bindings, goal: Goal, actions: seq<Action>)
    ensures Complete(b, goal, actions)
            <==> actions != [] && forall n :: n in b.guards || BoundTo(b, goal, n) ==> NewestPass(actions, n)
  {
    hide Freshly, NewestPass;
    forall n ensures FreshlyPasses(actions, n) <==> NewestPass(actions, n) { FreshPassMeans(actions, n); }
    forall c, n | c in goal.conditions && c in b.checks && n in b.checks[c] ensures BoundTo(b, goal, n) {}
  }

  lemma FreshPassMeans(actions: seq<Action>, name: string)
    ensures FreshlyPasses(actions, name) <==> NewestPass(actions, name)
  {
    hide Freshly, Newest;
    FreshlyMeans(actions, name, Pass);
  }

  /** The verdict does not depend on evidence of other workspaces. */
  lemma CompleteSame(b: Bindings, goal: Goal, actions: seq<Action>, others: seq<Action>)
    requires SameNow(actions, others)
    ensures Complete(b, goal, actions) <==> Complete(b, goal, others)
  {
    hide Freshly;
    forall n ensures FreshlyPasses(actions, n) <==> FreshlyPasses(others, n) { OthersIrrelevant(actions, others, n); }
  }

  /** Inconclusive for bindings that do not cover the goal; otherwise pass exactly on completion, which
      means a pass on the final workspace for everything the task is bound to. */
  method Verify(b: Bindings, goal: Goal, actions: seq<Action>) returns (status: Status)
    ensures status == Inconclusive <==>
              || (exists c :: c in goal.conditions && (c !in b.checks || b.checks[c] == []))
              || (exists c :: c in b.checks && c !in goal.conditions)
    ensures status == Pass <==> BindingsCover(b, goal) && Complete(b, goal, actions)
    ensures status == Pass ==> actions != [] && PassedAll(b, goal, actions)
  {
    hide FreshlyPasses, Evidenced, Decided, PassedAll;
    if BindingsCover(b, goal) && Complete(b, goal, actions) { CompletePasses(b, goal, actions); }
    var statuses := FreshStatuses(actions);
    var covered, failed := true, false;
    for i := 0 to |goal.conditions|
      invariant covered <==> forall k :: 0 <= k < i ==> goal.conditions[k] in b.checks && b.checks[goal.conditions[k]] != []
      invariant !failed <==> forall k, n ::
        0 <= k < i && goal.conditions[k] in b.checks && n in b.checks[goal.conditions[k]] ==> FreshlyPasses(actions, n)
    {
      var condition := goal.conditions[i];
      var names := if condition in b.checks then b.checks[condition] else [];
      if names == [] { covered := false; }
      if exists n :: n in names && !(n in statuses && statuses[n] == Pass) { failed := true; }
    }
    if exists c :: c in b.checks && c !in goal.conditions { covered := false; }
    if exists n :: n in b.guards && !(n in statuses && statuses[n] == Pass) { failed := true; }
    if !covered { return Inconclusive; }
    if actions == [] || failed { return Fail; }
    return Pass;
  }
}
