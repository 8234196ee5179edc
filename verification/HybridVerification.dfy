/** The phased verifier, which stops at the first hard failure, against one that runs every check. */
module HybridVerification {
  import opened GraphSchema
  import opened Completion

  datatype Category = Correctness | Policy | Evidence | Quality

  /** What one check reports, in phase order; a check that raises reports Inconclusive. */
  datatype Result = Result(name: string, category: Category, phase: int, status: Status)

  /** The checks a contract makes mandatory, category by category, in its order. */
  datatype Requirement = Requirement(category: Category, names: seq<string>)

  datatype Report = Report(correctness: Status, policy: Status, evidence: Status, quality: Status, checks: seq<Result>) {
    predicate Accepted() {
      correctness == Pass && policy == Pass && evidence == Pass && quality == Pass
    }
  }

  predicate Stops(r: Result) {
    r.phase <= 1 && r.status != Pass
  }

  /** The results up to and including the first hard failure. */
  function Executed(results: seq<Result>): (r: seq<Result>)
    ensures r <= results
  {
    if results == [] then []
    else if Stops(results[0]) then [results[0]]
    else [results[0]] + Executed(results[1..])
  }

  predicate Ran(results: seq<Result>, name: string) {
    exists r :: r in results && r.name == name
  }

  const UNPHASED: int := 2

  /** A check that a contract demands and that did not run. */
  function Absent(name: string, c: Category): Result {
    Result(name, c, UNPHASED, Inconclusive)
  }

  /** The names of one category not observed before it was looked at. */
  function AbsentOf(observed: set<string>, q: Requirement, n: nat): seq<Result>
    requires n <= |q.names|
  {
    if n == 0 then []
    else AbsentOf(observed, q, n - 1) + if q.names[n - 1] in observed then [] else [Absent(q.names[n - 1], q.category)]
  }

  /** The results with those of missing checks after them; each category sees what earlier ones added. */
  function Completed(results: seq<Result>, required: seq<Requirement>): seq<Result> {
    if required == [] then results
    else
      var before, q := Completed(results, required[..|required| - 1]), required[|required| - 1];
      before + AbsentOf(NamesOf(before), q, |q.names|)
  }

  function NamesOf(results: seq<Result>): set<string> {
    set r | r in results :: r.name
  }

  function Tally(results: seq<Result>, c: Category): set<Status> {
    set r | r in results && r.category == c :: r.status
  }

  /** Failure before doubt before success; an empty category passes unless it is correctness. */
  function Reduce(c: Category, statuses: set<Status>): Status {
    if statuses == {} then (if c.Correctness? then Inconclusive else Pass)
    else if Fail in statuses then Fail
    else if Inconclusive in statuses then Inconclusive
    else Pass
  }

  predicate DistinctNames(results: seq<Result>) {
    forall i, j :: 0 <= i < j < |results| ==> results[i].name != results[j].name
  }

  function CategoryStatus(all: seq<Result>, c: Category): Status {
    Reduce(c, Tally(all, c))
  }

  function ReportOf(results: seq<Result>, required: seq<Requirement>): Report {
    var all := Completed(results, required);
    Report(CategoryStatus(all, Correctness), CategoryStatus(all, Policy), CategoryStatus(all, Evidence),
           CategoryStatus(all, Quality), all)
  }

  ghost predicate Tallied(categories: map<Category, set<Status>>, results: seq<Result>) {
    forall c :: c in categories && categories[c] == Tally(results, c)
  }

  lemma TalliedNext(categories: map<Category, set<Status>>, results: seq<Result>, r: Result)
    requires Tallied(categories, results)
    ensures r.category in categories
    ensures Tallied(categories[r.category := categories[r.category] + {r.status}], results + [r])
  {
    hide Tally;
    forall c ensures Tally(results + [r], c) == Tally(results, c) + if r.category == c then {r.status} else {} {
      TallyNext(results, r, c);
    }
  }

  lemma TallyNext(results: seq<Result>, r: Result, c: Category)
    ensures Tally(results + [r], c) == Tally(results, c) + if r.category == c then {r.status} else {}
  {}

  /** The first i results are looked at, and how the run stands. */
  ghost predicate Underway(results: seq<Result>, i: nat, stopped: bool, seen: set<string>, categories: map<Category, set<Status>>) {
    && i <= |results|
    && Executed(results) == (if stopped then results[..i] else results[..i] + Executed(results[i..]))
    && seen == NamesOf(results[..i]) && DistinctNames(results[..i]) && Tallied(categories, results[..i])
  }

  lemma Continues(results: seq<Result>, i: nat, seen: set<string>, categories: map<Category, set<Status>>)
    requires Underway(results, i, false, seen, categories) && i < |results| && results[i].name !in seen
    ensures results[i].category in categories
    ensures var r := results[i];
            Underway(results, i + 1, Stops(r), seen + {r.name}, categories[r.category := categories[r.category] + {r.status}])
  {
    hide Executed, Stops, DistinctNames, Tallied, NamesOf;
    NextName(results, i);
    ExecutedGrows(results, i);
    TalliedNext(categories, results[..i], results[i]);
    assert results[..i + 1] == results[..i] + [results[i]];
  }

  lemma Repeats(results: seq<Result>, i: nat, seen: set<string>, categories: map<Category, set<Status>>)
    requires Underway(results, i, false, seen, categories) && i < |results| && results[i].name in seen
    ensures !DistinctNames(Executed(results))
  {
    hide Executed, Stops, DistinctNames, Tallied, NamesOf;
    NextName(results, i);
    RepeatedName(results, i);
  }

  lemma Ends(results: seq<Result>, i: nat, stopped: bool, seen: set<string>, categories: map<Category, set<Status>>)
    requires Underway(results, i, stopped, seen, categories) && (stopped || i == |results|)
    ensures i <= |results| && Executed(results) == results[..i] && DistinctNames(results[..i]) && Tallied(categories, results[..i])
  {
    hide DistinctNames, Tallied, NamesOf;
    if !stopped { NoneLeft(results, i); }
  }

  /** Runs the checks in order; None where a repeated name raises. */
  method Verify(results: seq<Result>, required: seq<Requirement>) returns (report: Option<Report>)
    ensures report == if DistinctNames(Executed(results)) then Some(ReportOf(Executed(results), required)) else None
  {
    hide Underway, Executed, Stops, DistinctNames, Tallied, CategoryStatus, NamesOf, Completed, ReportOf;
    var seen: set<string> := {};
    var categories: map<Category, set<Status>> := map[Correctness := {}, Policy := {}, Evidence := {}, Quality := {}];
    var i, stopped := 0, false;
    NothingRan(results, categories);
    while i < |results| && !stopped
      invariant 0 <= i <= |results| && Underway(results, i, stopped, seen, categories)
      decreases |results| - i, !stopped
    {
      var result := results[i];
      if result.name in seen {
        Repeats(results, i, seen, categories);
        return None;
      }
      Continues(results, i, seen, categories);
      seen := seen + {result.name};
      categories := categories[result.category := categories[result.category] + {result.status}];
      stopped := Stops(result);
      i := i + 1;
    }
    Ends(results, i, stopped, seen, categories);
    var all;
    categories, all := Demand(categories, results[..i], required);
    var correctness := Judge(categories, all, Correctness);
    var policy := Judge(categories, all, Policy);
    var evidence := Judge(categories, all, Evidence);
    var quality := Judge(categories, all, Quality);
    ReportIs(results[..i], required);
    return Some(Report(correctness, policy, evidence, quality, all));
  }

  lemma ReportIs(results: seq<Result>, required: seq<Requirement>)
    ensures var all := Completed(results, required);
            ReportOf(results, required) == Report(CategoryStatus(all, Correctness), CategoryStatus(all, Policy),
                                                  CategoryStatus(all, Evidence), CategoryStatus(all, Quality), all)
  {}

  /** Adds an inconclusive result for every mandatory check that was not observed. */
  method Demand(categories: map<Category, set<Status>>, ran: seq<Result>, required: seq<Requirement>)
    returns (tallied: map<Category, set<Status>>, all: seq<Result>)
    requires Tallied(categories, ran)
    ensures all == Completed(ran, required) && Tallied(tallied, all)
  {
    hide Tallied, NamesOf;
    tallied, all := categories, ran;
    for k := 0 to |required|
      invariant all == Completed(ran, required[..k]) && Tallied(tallied, all)
    {
      var q := required[k];
      var before, observed := all, NamesOf(all);
      for n := 0 to |q.names|
        invariant all == before + AbsentOf(observed, q, n) && Tallied(tallied, all)
      {
        if q.names[n] !in observed {
          TalliedNext(tallied, all, Absent(q.names[n], q.category));
          all := all + [Absent(q.names[n], q.category)];
          tallied := tallied[q.category := tallied[q.category] + {Inconclusive}];
        }
      }
      assert required[..k + 1][..k] == required[..k];
    }
    assert required[..|required|] == required;
  }

  method Judge(categories: map<Category, set<Status>>, all: seq<Result>, c: Category) returns (status: Status)
    requires Tallied(categories, all)
    ensures status == CategoryStatus(all, c)
  {
    var statuses := categories[c];
    if statuses == {} { return if c.Correctness? then Inconclusive else Pass; }
    return if Fail in statuses then Fail else if Inconclusive in statuses then Inconclusive else Pass;
  }

  lemma NothingRan(results: seq<Result>, categories: map<Category, set<Status>>)
    requires categories == map[Correctness := {}, Policy := {}, Evidence := {}, Quality := {}]
    ensures Underway(results, 0, false, {}, categories)
  {
    assert results[0..] == results;
    forall c: Category ensures c in categories { assert c == Correctness || c == Policy || c == Evidence || c == Quality; }
  }

  lemma NoneLeft(results: seq<Result>, i: nat)
    requires i == |results|
    ensures results[..i] + Executed(results[i..]) == results[..i]
  {}

  lemma ExecutedAt(results: seq<Result>, i: nat)
    requires i < |results|
    ensures Executed(results[i..]) == if Stops(results[i]) then [results[i]] else [results[i]] + Executed(results[i + 1..])
  {
    assert results[i..][1..] == results[i + 1..];
  }

  lemma ExecutedGrows(results: seq<Result>, i: nat)
    requires i < |results| && Executed(results) == results[..i] + Executed(results[i..])
    ensures Executed(results) == if Stops(results[i]) then results[..i + 1] else results[..i + 1] + Executed(results[i + 1..])
  {
    hide Stops, Executed;
    ExecutedAt(results, i);
    Regroup(results[..i], results[i], Executed(results[i + 1..]));
    assert results[..i + 1] == results[..i] + [results[i]];
  }

  lemma Regroup(front: seq<Result>, r: Result, rest: seq<Result>)
    ensures front + ([r] + rest) == (front + [r]) + rest
  {}

  lemma NextName(results: seq<Result>, i: nat)
    requires i < |results| && DistinctNames(results[..i])
    ensures DistinctNames(results[..i + 1]) <==> results[i].name !in NamesOf(results[..i])
    ensures NamesOf(results[..i + 1]) == NamesOf(results[..i]) + {results[i].name}
  {
    var front, next := results[..i], results[..i + 1];
    assert next == front + [results[i]];
    if DistinctNames(next) {
      forall r | r in front ensures r.name != results[i].name {
        var k :| 0 <= k < i && front[k] == r;
        assert next[k].name != next[i].name;
      }
    }
    if results[i].name !in NamesOf(front) {
      forall a, b | 0 <= a < b < |next| ensures next[a].name != next[b].name {
        assert front[a] in front;
        if b < i { assert front[a].name != front[b].name; }
      }
    }
  }

  lemma RepeatedName(results: seq<Result>, i: nat)
    requires i < |results| && !DistinctNames(results[..i + 1]) && Executed(results) == results[..i] + Executed(results[i..])
    ensures !DistinctNames(Executed(results))
  {
    ExecutedAt(results, i);
    var e := Executed(results);
    assert e[..i + 1] == results[..i + 1];
    var a, b :| 0 <= a < b < i + 1 && results[..i + 1][a].name == results[..i + 1][b].name;
    assert e[a] == results[a] && e[b] == results[b];
  }

  // ---- what a report means ----

  predicate Demanded(required: seq<Requirement>, name: string) {
    exists q :: q in required && name in q.names
  }

  /** A result added because the check was demanded, under its category, and did not run. */
  predicate AddedFor(results: seq<Result>, required: seq<Requirement>, r: Result) {
    && r.status == Inconclusive && !Ran(results, r.name)
    && exists q :: q in required && r.name in q.names && r.category == q.category
  }

  predicate HardFailure(r: Result) {
    r.phase <= 1 && r.status != Pass
  }

  /** A hard failure among the first phases ends the run: exactly the results up to the first one are
      kept, or all of them where there is none. */
  lemma {:induction false} ExecutedExact(results: seq<Result>)
    ensures var k := |Executed(results)|;
            && k <= |results| && Executed(results) == results[..k]
            && (forall i :: 0 <= i < k - 1 ==> !HardFailure(results[i]))
            && if k < |results| then k > 0 && HardFailure(results[k - 1]) else k == |results|
  {
    if results != [] && !Stops(results[0]) {
      ExecutedExact(results[1..]);
      ShiftExact(results, Executed(results[1..]));
    }
  }

  lemma ShiftExact(results: seq<Result>, rest: seq<Result>)
    requires results != [] && !HardFailure(results[0])
    requires var k := |rest|;
             && k <= |results| - 1 && rest == results[1..][..k]
             && (forall i :: 0 <= i < k - 1 ==> !HardFailure(results[1..][i]))
             && (k < |results| - 1 ==> k > 0 && HardFailure(results[1..][k - 1]))
    ensures var k := |rest| + 1;
            && [results[0]] + rest == results[..k]
            && (forall i :: 0 <= i < k - 1 ==> !HardFailure(results[i]))
            && (k < |results| ==> HardFailure(results[k - 1]))
  {
    hide HardFailure;
    forall i | 0 <= i < |rest| ensures !HardFailure(results[i]) {
      if i > 0 { assert results[i] == results[1..][i - 1]; }
    }
    if |rest| > 0 { assert results[|rest|] == results[1..][|rest| - 1]; }
  }

  lemma {:induction false} AbsentMeans(observed: set<string>, q: Requirement, n: nat)
    requires n <= |q.names|
    ensures forall r :: r in AbsentOf(observed, q, n) <==>
              r.status == Inconclusive && r.category == q.category && r.phase == UNPHASED && r.name !in observed && r.name in q.names[..n]
  {
    if n > 0 {
      AbsentMeans(observed, q, n - 1);
      assert q.names[..n] == q.names[..n - 1] + [q.names[n - 1]];
    }
  }

  /** What is added: one inconclusive result at least for each demanded check that did not run, under a
      category that demands it, and nothing else. */
  lemma {:induction false} CompletedMeans(results: seq<Result>, required: seq<Requirement>)
    ensures var all := Completed(results, required);
            && results <= all
            && (forall name :: Ran(all, name) <==> Ran(results, name) || Demanded(required, name))
            && forall r :: r in all[|results|..] ==> AddedFor(results, required, r)
  {
    if required != [] {
      var front, q := required[..|required| - 1], required[|required| - 1];
      assert required == front + [q];
      CompletedMeans(results, front);
      var before := Completed(results, front);
      AbsentMeans(NamesOf(before), q, |q.names|);
      assert q.names[..|q.names|] == q.names;
      AddedMeans(results, front, q, before, AbsentOf(NamesOf(before), q, |q.names|));
    }
  }

  lemma AddedMeans(results: seq<Result>, front: seq<Requirement>, q: Requirement, before: seq<Result>, added: seq<Result>)
    requires results <= before && forall name :: Ran(before, name) <==> Ran(results, name) || Demanded(front, name)
    requires forall r :: r in before[|results|..] ==> AddedFor(results, front, r)
    requires forall r :: r in added <==>
               r.status == Inconclusive && r.category == q.category && r.phase == UNPHASED && r.name !in NamesOf(before) && r.name in q.names
    ensures var all, required := before + added, front + [q];
            && results <= all
            && (forall name :: Ran(all, name) <==> Ran(results, name) || Demanded(required, name))
            && forall r :: r in all[|results|..] ==> AddedFor(results, required, r)
  {
    var all, required := before + added, front + [q];
    forall name ensures Ran(all, name) <==> Ran(results, name) || Demanded(required, name) {
      DemandedNext(front, q, name);
      RanNext(before, added, name);
      if name in q.names && !Ran(before, name) { assert Absent(name, q.category) in added; }
    }
    assert all[|results|..] == before[|results|..] + added;
    forall r | r in all[|results|..] ensures AddedFor(results, required, r) {
      if r in added {
        assert q in required;
        RanNames(before, r.name);
      } else {
        var o :| o in front && r.name in o.names && r.category == o.category;
        assert o in required;
      }
    }
  }

  lemma RanNames(results: seq<Result>, name: string)
    ensures Ran(results, name) <==> name in NamesOf(results)
  {}

  lemma DemandedNext(front: seq<Requirement>, q: Requirement, name: string)
    ensures Demanded(front + [q], name) <==> Demanded(front, name) || name in q.names
  {
    if name in q.names { assert q in front + [q]; }
  }

  lemma RanNext(before: seq<Result>, added: seq<Result>, name: string)
    ensures Ran(before + added, name) <==> Ran(before, name) || Ran(added, name)
  {}

  /** A category fails on a failing result, is in doubt on an inconclusive one or, for correctness, on
      none at all, and passes otherwise. */
  lemma StatusMeans(all: seq<Result>, c: Category)
    ensures CategoryStatus(all, c) == Fail <==> exists r :: r in all && r.category == c && r.status == Fail
    ensures CategoryStatus(all, c) == Pass <==>
              && (forall r :: r in all && r.category == c ==> r.status == Pass)
              && (c == Correctness ==> exists r :: r in all && r.category == c)
  {
    var statuses := Tally(all, c);
    forall r | r in all && r.category == c ensures r.status in statuses {}
  }

  /** Acceptance in terms of the results alone. */
  predicate Accepts(results: seq<Result>, required: seq<Requirement>) {
    && (forall r :: r in results ==> r.status == Pass)
    && (exists r :: r in results && r.category.Correctness?)
    && (forall q, n :: q in required && n in q.names ==> Ran(results, n))
  }

  /** A report is accepted exactly when every result passes, correctness was checked, and nothing
      mandatory is missing. */
  lemma AcceptedMeans(results: seq<Result>, required: seq<Requirement>)
    ensures ReportOf(results, required).Accepted() <==> Accepts(results, required)
  {
    hide CategoryStatus, Completed, Demanded;
    var all := Completed(results, required);
    StatusMeans(all, Correctness);
    StatusMeans(all, Policy);
    StatusMeans(all, Evidence);
    StatusMeans(all, Quality);
    CompletedMeans(results, required);
    NothingAbsent(results, required);
    if ReportOf(results, required).Accepted() {
      forall r | r in all ensures r.status == Pass { OneOfFour(r.category); }
    }
  }

  lemma NothingAbsent(results: seq<Result>, required: seq<Requirement>)
    ensures Completed(results, required) == results <==> forall q, n :: q in required && n in q.names ==> Ran(results, n)
    ensures Completed(results, required) != results ==> exists r :: r in Completed(results, required) && r.status == Inconclusive
  {
    hide Completed;
    CompletedMeans(results, required);
    var all := Completed(results, required);
    if all == results {
      forall q, n | q in required && n in q.names ensures Ran(results, n) { assert Demanded(required, n); }
    } else {
      assert all[|results|] in all[|results|..];
    }
  }

  lemma OneOfFour(c: Category)
    ensures c == Correctness || c == Policy || c == Evidence || c == Quality
  {}

  /** Stopping early changes no verdict: the phased verifier accepts exactly when a verifier that
      runs every check does. */
  lemma ShortCircuitExact(results: seq<Result>, required: seq<Requirement>)
    ensures ReportOf(Executed(results), required).Accepted() <==> ReportOf(results, required).Accepted()
  {
    hide ReportOf, Ran, Executed;
    AcceptedMeans(Executed(results), required);
    AcceptedMeans(results, required);
    ExecutedExact(results);
    var k := |Executed(results)|;
    assert results[..|results|] == results;
    if k < |results| { assert results[k - 1] in results[..k] && results[k - 1] in results; }
  }
}
