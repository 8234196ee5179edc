/** Argument rules, server authorities, and the compiler that intersects them. */
module Authority {
  import opened Text
  import opened GraphSchema
  import opened Prefixes

  // ---- argument rules ----

  /** A concrete argument: text, an integer, a boolean, a list whose non-text items read as None,
      or a value of any other type. */
  datatype Arg = Words(text: string) | Number(number: int) | Flag(flag: bool) | Items(items: seq<Option<string>>) | Other

  datatype Kind = StringKind | IntegerKind | BooleanKind | PathKind | ArgvKind | EnumKind

  /** An absolute path component that is exactly two dots. */
  predicate HasParent(path: string) {
    exists i :: 0 <= i <= |path| - 2 && DotsAt(path, i)
  }

  predicate DotsAt(path: string, i: int)
    requires 0 <= i <= |path| - 2
  {
    path[i] == '.' && path[i + 1] == '.' && (i == 0 || path[i - 1] == '/') && (i + 2 == |path| || path[i + 2] == '/')
  }

  datatype ArgumentRule = ArgumentRule(
    name: string, kind: Kind, required: bool, allowed: set<string>,
    maximumLength: Option<int>, minimum: Option<int>, maximum: Option<int>)
  {
    /** What the constructor insists on. */
    predicate WellFormed() {
      && !Blank(name)
      && (kind.EnumKind? <==> allowed != {})
      && (maximumLength.Some? ==> maximumLength.value >= 1)
      && (minimum.Some? && maximum.Some? ==> minimum.value <= maximum.value)
    }

    predicate OfKind(v: Arg) {
      match kind
      case StringKind => v.Words?
      case IntegerKind => v.Number?
      case BooleanKind => v.Flag?
      case PathKind => v.Words? && v.text != "" && v.text[0] == '/' && !HasParent(v.text)
      case ArgvKind => v.Items? && v.items != [] && forall i :: i in v.items ==> i.Some? && '\0' !in i.value
      case EnumKind => v.Words? && v.text in allowed
    }

    /** The value satisfies the rule: the source's validate reports no error. */
    predicate Accepts(v: Arg) {
      && OfKind(v)
      && (maximumLength.Some? ==> Length(v) <= maximumLength.value)
      && (kind.IntegerKind? && v.Number? ==>
            && (minimum.Some? ==> minimum.value <= v.number)
            && (maximum.Some? ==> v.number <= maximum.value))
    }
  }

  function Length(v: Arg): nat {
    match v
    case Words(text) => |text|
    case Items(items) => |items|
    case _ => 0
  }

  /** What the constructor refuses: a blank name, an enumeration without values or values without an
      enumeration, a length limit below one, and a lowest value above the highest. */
  lemma ConstructorRefuses(r: ArgumentRule)
    ensures !r.WellFormed()
            <==> || (forall c :: c in r.name ==> IsSpace(c))
                 || (r.kind == EnumKind && forall v :: v !in r.allowed)
                 || (r.kind != EnumKind && exists v :: v in r.allowed)
                 || (r.maximumLength.Some? && r.maximumLength.value < 1)
                 || (r.minimum.Some? && r.maximum.Some? && r.minimum.value > r.maximum.value)
  {}

  lemma DotsFrom(path: string, i: nat)
    ensures PartFrom(path, i, "..") <==> i <= |path| - 2 && DotsAt(path, i)
  {
    if i + 2 <= |path| {
      var dots := path[i..i + 2];
      assert dots == [path[i], path[i + 1]];
    }
  }

  lemma ParentIsPart(path: string)
    ensures HasParent(path) <==> ".." in Parts(path)
  {
    hide Parts, PartFrom, HasParent;
    PartsMeans(path, "..");
    ParentFrom(path);
  }

  lemma ParentFrom(path: string)
    ensures HasParent(path) <==> exists i: nat :: PartFrom(path, i, "..")
  {
    hide PartFrom, DotsAt;
    if i :| 0 <= i <= |path| - 2 && DotsAt(path, i) { DotsFrom(path, i); }
    if i: nat :| PartFrom(path, i, "..") { DotsFrom(path, i); }
  }

  predicate Within(lowest: Option<int>, n: int, highest: Option<int>) {
    (lowest.Some? ==> lowest.value <= n) && (highest.Some? ==> n <= highest.value)
  }

  /** What a rule accepts, by the kind of value: text, where the rule asks for text, for an absolute
      path without a parent component, or for one of its values; an integer in its range; a boolean;
      a list of texts without NUL; and nothing else. */
  lemma AcceptsByValue(r: ArgumentRule, v: Arg)
    ensures r.Accepts(v)
            <==> match v
                 case Words(text) =>
                   && Within(None, |text|, r.maximumLength)
                   && (r.kind == StringKind || (r.kind == EnumKind && text in r.allowed)
                       || (r.kind == PathKind && "/" <= text && ".." !in Parts(text)))
                 case Number(n) => r.kind == IntegerKind && Within(None, 0, r.maximumLength) && Within(r.minimum, n, r.maximum)
                 case Flag(_) => r.kind == BooleanKind && Within(None, 0, r.maximumLength)
                 case Items(items) =>
                   && r.kind == ArgvKind && 0 < |items| && Within(None, |items|, r.maximumLength)
                   && forall i :: 0 <= i < |items| ==> items[i].Some? && forall k :: 0 <= k < |items[i].value| ==> items[i].value[k] != '\0'
                 case Other => false
  {
    hide HasParent, Parts;
    if v.Words? { ParentIsPart(v.text); }
    if v.Items? {
      forall i | 0 <= i < |v.items| ensures v.items[i] in v.items {}
    }
  }

  // ---- combining rules of one name ----

  function Least(limits: seq<Option<int>>): (r: Option<int>)
    ensures r.None? <==> forall l :: l in limits ==> l.None?
    ensures r.Some? ==> r in limits && forall l :: l in limits && l.Some? ==> r.value <= l.value
  {
    if limits == [] then None
    else
      var rest := Least(limits[1..]);
      assert limits == [limits[0]] + limits[1..];
      if limits[0].None? || (rest.Some? && rest.value <= limits[0].value) then rest else limits[0]
  }

  function Greatest(limits: seq<Option<int>>): (r: Option<int>)
    ensures r.None? <==> forall l :: l in limits ==> l.None?
    ensures r.Some? ==> r in limits && forall l :: l in limits && l.Some? ==> l.value <= r.value
  {
    if limits == [] then None
    else
      var rest := Greatest(limits[1..]);
      assert limits == [limits[0]] + limits[1..];
      if limits[0].None? || (rest.Some? && limits[0].value <= rest.value) then rest else limits[0]
  }

  /** One limit of every rule. */
  function Limits(rules: seq<ArgumentRule>, limit: ArgumentRule -> Option<int>): (r: seq<Option<int>>)
    ensures |r| == |rules| && forall i :: 0 <= i < |rules| ==> r[i] == limit(rules[i])
  {
    seq(|rules|, i requires 0 <= i < |rules| => limit(rules[i]))
  }

  function MaximumLength(r: ArgumentRule): Option<int> { r.maximumLength }
  function Minimum(r: ArgumentRule): Option<int> { r.minimum }
  function Maximum(r: ArgumentRule): Option<int> { r.maximum }

  function CommonValues(rules: seq<ArgumentRule>): set<string>
    requires rules != []
  {
    set v | v in rules[0].allowed && forall r :: r in rules ==> v in r.allowed
  }

  predicate SameKind(rules: seq<ArgumentRule>)
    requires rules != []
  {
    forall r :: r in rules ==> r.kind == rules[0].kind
  }

  function Combined(name: string, rules: seq<ArgumentRule>): ArgumentRule
    requires rules != []
  {
    ArgumentRule(name, rules[0].kind, exists r :: r in rules && r.required,
                 if rules[0].kind.EnumKind? then CommonValues(rules) else {},
                 Least(Limits(rules, MaximumLength)), Greatest(Limits(rules, Minimum)), Least(Limits(rules, Maximum)))
  }

  /** The combined rule, or None where the source raises: kinds conflict, an enumeration has no
      common value, or the constructor finds the lowest bound above the highest. */
  function Combine(name: string, rules: seq<ArgumentRule>): Option<ArgumentRule>
    requires rules != []
  {
    if SameKind(rules) && Combined(name, rules).WellFormed() then Some(Combined(name, rules)) else None
  }

  lemma LeastBound(rules: seq<ArgumentRule>, limit: ArgumentRule -> Option<int>, n: int)
    ensures var least := Least(Limits(rules, limit));
            (least.Some? ==> n <= least.value) <==> forall r :: r in rules && limit(r).Some? ==> n <= limit(r).value
  {
    var limits := Limits(rules, limit);
    var least := Least(limits);
    if least.Some? {
      var i :| 0 <= i < |limits| && limits[i] == least;
      assert rules[i] in rules && limit(rules[i]) == least;
    }
    forall r | r in rules ensures limit(r) in limits {
      var i :| 0 <= i < |rules| && rules[i] == r;
      assert limits[i] == limit(r);
    }
  }

  lemma GreatestBound(rules: seq<ArgumentRule>, limit: ArgumentRule -> Option<int>, n: int)
    ensures var greatest := Greatest(Limits(rules, limit));
            (greatest.Some? ==> greatest.value <= n) <==> forall r :: r in rules && limit(r).Some? ==> limit(r).value <= n
  {
    var limits := Limits(rules, limit);
    var greatest := Greatest(limits);
    if greatest.Some? {
      var i :| 0 <= i < |limits| && limits[i] == greatest;
      assert rules[i] in rules && limit(rules[i]) == greatest;
    }
    forall r | r in rules ensures limit(r) in limits {
      var i :| 0 <= i < |rules| && rules[i] == r;
      assert limits[i] == limit(r);
    }
  }

  /** Exact intersection: rules of one kind combine to a rule that accepts exactly what all accept. */
  lemma CombinedExact(name: string, rules: seq<ArgumentRule>, v: Arg)
    requires rules != [] && SameKind(rules) && forall r :: r in rules ==> r.WellFormed()
    ensures Combined(name, rules).Accepts(v) <==> forall r :: r in rules ==> r.Accepts(v)
  {
    hide Limits, Least, Greatest, Blank, HasParent, ArgumentRule.OfKind;
    var c := Combined(name, rules);
    OfKindExact(name, rules, v);
    BoundsExact(name, rules, v);
  }

  /** The length and range conditions of a rule. */
  predicate InBounds(r: ArgumentRule, v: Arg) {
    && (r.maximumLength.Some? ==> Length(v) <= r.maximumLength.value)
    && (r.kind.IntegerKind? && v.Number? ==>
          && (r.minimum.Some? ==> r.minimum.value <= v.number)
          && (r.maximum.Some? ==> v.number <= r.maximum.value))
  }

  lemma BoundsExact(name: string, rules: seq<ArgumentRule>, v: Arg)
    requires rules != [] && SameKind(rules)
    ensures InBounds(Combined(name, rules), v) <==> forall r :: r in rules ==> InBounds(r, v)
  {
    hide Limits, Least, Greatest;
    assert rules[0] in rules;
    LeastBound(rules, MaximumLength, Length(v));
    if v.Number? {
      GreatestBound(rules, Minimum, v.number);
      LeastBound(rules, Maximum, v.number);
    }
  }

  lemma OfKindExact(name: string, rules: seq<ArgumentRule>, v: Arg)
    requires rules != [] && SameKind(rules)
    ensures Combined(name, rules).OfKind(v) <==> forall r :: r in rules ==> r.OfKind(v)
  {
    hide HasParent, Limits, Least, Greatest;
    assert rules[0] in rules;
  }

  /** When enumerations have no common value, or integer rules cannot be combined, no value
      satisfies them all. */
  lemma UncombinableRejectsAll(name: string, rules: seq<ArgumentRule>, v: Arg)
    requires rules != [] && SameKind(rules) && forall r :: r in rules ==> r.WellFormed() && r.name == name
    requires Combine(name, rules).None?
    requires rules[0].kind.IntegerKind? || (rules[0].kind.EnumKind? && CommonValues(rules) == {})
    ensures exists r :: r in rules && !r.Accepts(v)
  {
    hide HasParent, ArgumentRule.OfKind, Blank, Limits, Least, Greatest;
    CombinedExact(name, rules, v);
    OfKindExact(name, rules, v);
    CombinedShape(name, rules);
    var c := Combined(name, rules);
    assert c.kind.IntegerKind? ==> c.minimum.Some? && c.maximum.Some? && c.minimum.value > c.maximum.value;
    if c.OfKind(v) { KindHas(c, v); }
  }

  lemma KindHas(r: ArgumentRule, v: Arg)
    requires r.OfKind(v)
    ensures (r.kind.EnumKind? ==> r.allowed != {}) && (r.kind.IntegerKind? ==> v.Number?)
  {}

  /** What is well formed in the rules stays so, except for an empty enumeration or crossed bounds. */
  lemma CombinedShape(name: string, rules: seq<ArgumentRule>)
    requires rules != [] && SameKind(rules) && forall r :: r in rules ==> r.WellFormed() && r.name == name
    ensures var c := Combined(name, rules);
            && !Blank(c.name) && (!c.kind.EnumKind? ==> c.allowed == {})
            && (c.maximumLength.Some? ==> c.maximumLength.value >= 1)
  {
    hide Blank;
    assert rules[0] in rules;
    var limits := Limits(rules, MaximumLength);
    var least := Least(limits);
    if least.Some? {
      var i :| 0 <= i < |limits| && limits[i] == least;
      assert rules[i] in rules;
    }
  }

  lemma BoundsCross(rules: seq<ArgumentRule>)
    ensures var lowest, highest := Greatest(Limits(rules, Minimum)), Least(Limits(rules, Maximum));
            lowest.Some? && highest.Some? && lowest.value > highest.value
            <==> exists r, t :: r in rules && t in rules && r.minimum.Some? && t.maximum.Some? && r.minimum.value > t.maximum.value
  {
    hide Limits, Least, Greatest;
    var lowest, highest := Greatest(Limits(rules, Minimum)), Least(Limits(rules, Maximum));
    forall r | r in rules && r.minimum.Some? ensures lowest.Some? && r.minimum.value <= lowest.value {
      var i :| 0 <= i < |rules| && rules[i] == r;
      assert Limits(rules, Minimum)[i] == r.minimum;
      assert r.minimum in Limits(rules, Minimum);
    }
    forall r | r in rules && r.maximum.Some? ensures highest.Some? && highest.value <= r.maximum.value {
      var i :| 0 <= i < |rules| && rules[i] == r;
      assert Limits(rules, Maximum)[i] == r.maximum;
      assert r.maximum in Limits(rules, Maximum);
    }
    if lowest.Some? && highest.Some? {
      var i :| 0 <= i < |rules| && Limits(rules, Minimum)[i] == lowest;
      var k :| 0 <= k < |rules| && Limits(rules, Maximum)[k] == highest;
      assert rules[i] in rules && rules[k] in rules && rules[i].minimum == lowest && rules[k].maximum == highest;
    }
  }

  predicate CommonTo(rules: seq<ArgumentRule>, v: string) {
    forall r :: r in rules ==> v in r.allowed
  }

  /** Combining fails exactly where two rules are of different kinds, one demands more than another
      permits, or no value is common to the enumerations. */
  lemma CombineFails(name: string, rules: seq<ArgumentRule>)
    requires rules != [] && forall r :: r in rules ==> r.WellFormed() && r.name == name
    ensures Combine(name, rules).None?
            <==> || (exists r, t :: r in rules && t in rules && r.kind != t.kind)
                 || (exists r, t :: r in rules && t in rules && r.minimum.Some? && t.maximum.Some? && r.minimum.value > t.maximum.value)
                 || (rules[0].kind.EnumKind? && forall v :: !CommonTo(rules, v))
  {
    hide Limits, Least, Greatest, Blank, ArgumentRule.WellFormed;
    assert rules[0] in rules;
    if SameKind(rules) {
      CombinedShape(name, rules);
      BoundsCross(rules);
      CombinedWellFormed(name, rules);
      CommonMeans(rules);
    }
  }

  lemma CombinedWellFormed(name: string, rules: seq<ArgumentRule>)
    requires rules != [] && SameKind(rules) && forall r :: r in rules ==> r.WellFormed() && r.name == name
    ensures var c := Combined(name, rules);
            c.WellFormed() <==> (c.kind.EnumKind? ==> CommonValues(rules) != {}) && !(c.minimum.Some? && c.maximum.Some? && c.minimum.value > c.maximum.value)
  {
    hide Limits, Least, Greatest, Blank;
    CombinedShape(name, rules);
  }

  lemma CommonMeans(rules: seq<ArgumentRule>)
    requires rules != []
    ensures CommonValues(rules) == {} <==> forall v :: !CommonTo(rules, v)
  {
    assert rules[0] in rules;
    forall v ensures v in CommonValues(rules) <==> CommonTo(rules, v) {}
  }
}
