/** Values carried by graph events, the closed predicate vocabulary, and explicit joins. */
module GraphSchema {
  import opened Text

  datatype Option<+T> = None | Some(value: T)

  /** A JSON scalar.  Absent fields read as Null. */
  datatype Value = Null | Bool(flag: bool) | Int(number: int) | Str(text: string)

  type Payload = map<string, Value>

  function Get(p: Payload, field: string): Value {
    if field in p then p[field] else Null
  }

  /** The text the source compares: its str() of the value. */
  function Render(v: Value): string {
    match v
    case Null => "None"
    case Bool(flag) => if flag then "True" else "False"
    case Int(n) => if n < 0 then "-" + Decimal(-n) else Decimal(n)
    case Str(s) => s
  }

  predicate Truthy(v: Value) {
    match v
    case Null => false
    case Bool(flag) => flag
    case Int(n) => n != 0
    case Str(s) => s != ""
  }

  datatype Predicate =
    | Always
    | FieldEquals(field: string, value: string)
    | FieldTruthy(field: string)
    | FieldIn(field: string, values: seq<string>)
  {
    /** What the constructor insists on. */
    predicate WellFormed() {
      match this
      case Always => true
      case FieldEquals(f, v) => f != "" && v != ""
      case FieldTruthy(f) => f != ""
      case FieldIn(f, vs) => f != "" && vs != []
    }

    predicate Evaluate(event: Payload) {
      match this
      case Always => true
      case FieldTruthy(f) => Truthy(Get(event, f))
      case FieldEquals(f, v) => Render(Get(event, f)) == v
      case FieldIn(f, vs) => Render(Get(event, f)) in vs
    }
  }

  /** What a predicate asks of a recorded payload; a missing field reads as the source's None. */
  lemma EvaluateMeans(p: Predicate, event: Payload)
    ensures p.Evaluate(event)
            <==> match p
                 case Always => true
                 case FieldTruthy(f) => f in event && event[f] !in {Null, Bool(false), Int(0), Str("")}
                 case FieldEquals(f, v) => if f in event then WrittenAs(event[f], v) else v == "None"
                 case FieldIn(f, vs) => exists v :: v in vs && if f in event then WrittenAs(event[f], v) else v == "None"
  {
    forall x, v ensures WrittenAs(x, v) <==> v == Render(x) { RenderMeans(x, v); }
  }

  /** The text of a value: a text is its own, a number is written in decimal. */
  predicate WrittenAs(x: Value, text: string) {
    match x
    case Null => text == "None"
    case Bool(flag) => text == if flag then "True" else "False"
    case Int(n) => if n < 0 then text != "" && text[0] == '-' && Digits(text[1..], -n) else Digits(text, n)
    case Str(s) => text == s
  }

  predicate Digits(text: string, n: nat) {
    text != "" && (forall c :: c in text ==> c in "0123456789") && ValueOf(text) == n && (|text| > 1 ==> text[0] != '0')
  }

  lemma DecimalDigits(n: nat)
    ensures Digits(Decimal(n), n)
  {
    DecimalValue(n);
    if n < 10 { assert |Decimal(n)| == 1; }
  }

  lemma {:induction false} DigitsDecimal(text: string, n: nat)
    requires Digits(text, n)
    ensures text == Decimal(n)
  {
    if |text| == 1 {
      OneDigit(text[0]);
      assert text[..0] == [];
      assert text == [text[0]];
    } else {
      var k := |text| - 1;
      OneDigit(text[k]);
      LeadingDigits(text, n);
      DigitsDecimal(text[..k], ValueOf(text[..k]));
      assert text == text[..k] + [text[k]];
      assert n / 10 == ValueOf(text[..k]) && n % 10 == DigitOf(text[k]);
    }
  }

  /** All digits but the last stand for a tenth, which is not zero. */
  lemma LeadingDigits(text: string, n: nat)
    requires Digits(text, n) && |text| > 1
    ensures var front := text[..|text| - 1]; Digits(front, ValueOf(front)) && ValueOf(front) > 0
  {
    LeadingPositive(text[..|text| - 1]);
  }

  lemma {:induction false} LeadingPositive(text: string)
    requires text != "" && text[0] != '0' && forall c :: c in text ==> c in "0123456789"
    ensures ValueOf(text) > 0
  {
    if |text| == 1 { OneDigit(text[0]); } else { LeadingPositive(text[..|text| - 1]); }
  }

  lemma OneDigit(c: char)
    requires c in DIGITS
    ensures DigitOf(c) < 10 && DIGITS[DigitOf(c)] == c
  {
    assert c == '0' || c == '1' || c == '2' || c == '3' || c == '4' || c == '5' || c == '6' || c == '7' || c == '8' || c == '9';
  }

  lemma NumberMeans(n: nat, text: string)
    ensures Digits(text, n) <==> text == Decimal(n)
  {
    hide Digits, Decimal;
    DecimalDigits(n);
    if Digits(text, n) { DigitsDecimal(text, n); }
  }

  lemma RenderMeans(x: Value, text: string)
    ensures WrittenAs(x, text) <==> text == Render(x)
  {
    hide Digits, Decimal;
    if x.Int? {
      if x.number >= 0 {
        NumberMeans(x.number, text);
      } else if text != "" {
        NumberMeans(-x.number, text[1..]);
        assert text == [text[0]] + text[1..];
        assert ("-" + Decimal(-x.number))[1..] == Decimal(-x.number);
      }
    }
  }

  datatype JoinPolicy = All | AnyOf | Quorum | Threshold

  datatype Join = Join(node_id: string, predecessors: seq<string>, policy: JoinPolicy, threshold: Option<int>) {
    predicate WellFormed() {
      && !Blank(node_id) && predecessors != []
      && (forall i, j :: 0 <= i < j < |predecessors| ==> predecessors[i] != predecessors[j])
      && (if policy.Quorum? || policy.Threshold?
          then threshold.Some? && 1 <= threshold.value <= |predecessors|
          else threshold.None?)
    }

    predicate SatisfiedBy(completed: set<string>) {
      var count := |(set p | p in predecessors) * completed|;
      match policy
      case All => count == |predecessors|
      case AnyOf => count >= 1
      case _ => count >= (if threshold.Some? then threshold.value else 0)
    }
  }

  /** The joins that no set short of all predecessors satisfies. */
  predicate WaitsForAll(j: Join) {
    match j.policy
    case All => true
    case AnyOf => |j.predecessors| == 1
    case _ => j.threshold == Some(|j.predecessors|)
  }

  /** Names are distinct exactly when there are as many of them as listed. */
  lemma {:induction false} DistinctExactly(s: seq<string>)
    ensures |set p | p in s| <= |s|
    ensures |set p | p in s| == |s| <==> forall i, j :: 0 <= i < j < |s| ==> s[i] != s[j]
  {
    if s != [] {
      var n := |s| - 1;
      DistinctExactly(s[..n]);
      assert (set p | p in s) == (set p | p in s[..n]) + {s[n]};
      if s[n] in s[..n] {
        assert (set p | p in s) == (set p | p in s[..n]);
        var i :| 0 <= i < n && s[..n][i] == s[n];
        assert s[i] == s[n];
      } else {
        assert forall i :: 0 <= i < n ==> s[i] == s[..n][i];
      }
    }
  }

  /** An ALL join waits for every predecessor, an ANY join for one of them. */
  lemma JoinMeaning(j: Join, completed: set<string>)
    requires j.WellFormed()
    ensures j.policy.All? ==> (j.SatisfiedBy(completed) <==> forall p :: p in j.predecessors ==> p in completed)
    ensures j.policy.AnyOf? ==> (j.SatisfiedBy(completed) <==> exists p :: p in j.predecessors && p in completed)
  {
    var ps := set p | p in j.predecessors;
    DistinctExactly(j.predecessors);
    if forall p :: p in j.predecessors ==> p in completed {
      assert ps * completed == ps;
    } else {
      var p :| p in j.predecessors && p !in completed;
      SmallerSubset(ps * completed, ps, p);
    }
    if p :| p in j.predecessors && p in completed {
      assert p in ps * completed;
    }
  }

  /** A quorum or threshold join waits for as many of its predecessors as it says. */
  lemma QuorumMeaning(j: Join, completed: set<string>)
    requires j.WellFormed() && (j.policy.Quorum? || j.policy.Threshold?)
    ensures j.SatisfiedBy(completed)
            <==> exists ps: set<string> :: |ps| == j.threshold.value && forall p :: p in ps ==> p in j.predecessors && p in completed
  {
    var done := (set p | p in j.predecessors) * completed;
    if j.SatisfiedBy(completed) {
      var ps := SomeOf(done, j.threshold.value);
    }
    if ps: set<string> :| |ps| == j.threshold.value && forall p :: p in ps ==> p in j.predecessors && p in completed {
      assert ps <= done;
      assert done == ps + (done - ps);
    }
  }

  /** As many members of a set as wanted. */
  lemma {:induction false} SomeOf(s: set<string>, n: nat) returns (part: set<string>)
    requires n <= |s|
    ensures part <= s && |part| == n
  {
    if n == |s| {
      part := s;
    } else {
      var x :| x in s;
      part := SomeOf(s - {x}, n);
    }
  }

  lemma WaitsSatisfied(j: Join, completed: set<string>, p: string)
    requires j.WellFormed() && WaitsForAll(j) && j.SatisfiedBy(completed) && p in j.predecessors
    ensures p in completed
  {
    var ps := set p | p in j.predecessors;
    DistinctExactly(j.predecessors);
    if p !in completed { SmallerSubset(ps * completed, ps, p); }
  }

  /** A join that does not wait is satisfied by all predecessors but one. */
  lemma MostSatisfy(j: Join) returns (completed: set<string>)
    requires j.WellFormed() && !WaitsForAll(j)
    ensures j.SatisfiedBy(completed) && j.predecessors[0] !in completed
  {
    hide Join.WellFormed, Join.SatisfiedBy;
    var ps := set p | p in j.predecessors;
    FewerThanAll(j);
    assert j.predecessors[0] in ps;
    completed := ps - {j.predecessors[0]};
    assert |completed| == |ps| - 1;
    assert ps * completed == completed;
    SatisfiedByMost(j, completed);
  }

  lemma FewerThanAll(j: Join)
    requires j.WellFormed()
    ensures j.predecessors != [] && |set p | p in j.predecessors| == |j.predecessors|
  {
    DistinctExactly(j.predecessors);
  }

  lemma SatisfiedByMost(j: Join, completed: set<string>)
    requires j.WellFormed() && !WaitsForAll(j)
    requires (set p | p in j.predecessors) * completed == completed && |completed| == |j.predecessors| - 1
    ensures j.SatisfiedBy(completed)
  {
    hide Blank;
  }

  lemma WaitsForAllMeans(j: Join)
    requires j.WellFormed()
    ensures WaitsForAll(j) <==> forall completed: set<string> :: j.SatisfiedBy(completed) ==> forall p :: p in j.predecessors ==> p in completed
  {
    hide Join.SatisfiedBy;
    if WaitsForAll(j) {
      forall completed: set<string>, p | j.SatisfiedBy(completed) && p in j.predecessors ensures p in completed {
        WaitsSatisfied(j, completed, p);
      }
    } else {
      var completed := MostSatisfy(j);
      assert j.predecessors[0] in j.predecessors;
    }
  }

  lemma SmallerSubset(a: set<string>, b: set<string>, x: string)
    requires a <= b && x in b && x !in a
    ensures |a| < |b|
  {
    assert b == a + (b - a);
    assert x in b - a;
  }

  /** More completed predecessors never disable a join. */
  lemma JoinMonotone(j: Join, before: set<string>, after: set<string>)
    requires j.SatisfiedBy(before) && before <= after
    requires j.WellFormed()
    ensures j.SatisfiedBy(after)
  {
    var ps := set p | p in j.predecessors;
    DistinctExactly(j.predecessors);
    assert ps * after == (ps * before) + (ps * (after - before));
    assert ps == ps * after + (ps - after);
  }
}
