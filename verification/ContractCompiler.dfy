/** The compiler from requested actions to rules bounded by every covering server authority, and
    the gate that enforces the rules. */
module ContractCompiler {
  import opened Text
  import opened GraphSchema
  import opened Authority
  import opened Prefixes

  datatype Effect = Read | Write | Execute | Network | Delete | Publish

  datatype RequestedAction = RequestedAction(tool: string, effect: Effect, prefix: string)

  datatype ToolAuthority = ToolAuthority(
    tool: string, effect: Effect, prefixes: seq<string>, approval: bool, maxUses: Option<int>,
    rules: seq<ArgumentRule>, open: bool)

  /** A compiled rule; its argument rules have distinct names. */
  datatype ActionRule = ActionRule(
    tool: string, effect: Effect, prefix: string, approval: bool, maxUses: Option<int>,
    rules: map<string, ArgumentRule>, open: bool)
  {
    predicate WellFormed() {
      !Blank(tool) && prefix != "" && prefix[0] == '/' && (maxUses.Some? ==> maxUses.value >= 1)
    }
  }

  // ---- resolving authorities ----

  predicate Covers(a: ToolAuthority, action: RequestedAction) {
    a.tool == action.tool && a.effect == action.effect && exists p :: p in a.prefixes && IsWithin(action.prefix, p)
  }

  function ResolveAll(catalog: seq<ToolAuthority>, action: RequestedAction): (r: seq<ToolAuthority>)
    ensures forall a :: a in r <==> a in catalog && Covers(a, action)
  {
    if catalog == [] then []
    else
      var rest := ResolveAll(catalog[1..], action);
      assert catalog == [catalog[0]] + catalog[1..];
      if Covers(catalog[0], action) then [catalog[0]] + rest else rest
  }

  // ---- intersecting argument rules ----

  function Names(a: ToolAuthority): set<string> {
    set r | r in a.rules :: r.name
  }

  /** No closed authority leaves the name out. */
  predicate Listed(authorities: seq<ToolAuthority>, name: string) {
    forall a :: a in authorities && !a.open ==> name in Names(a)
  }

  function OfName(rules: seq<ArgumentRule>, name: string): seq<ArgumentRule> {
    if rules == [] then []
    else OfName(rules[..|rules| - 1], name) + if rules[|rules| - 1].name == name then [rules[|rules| - 1]] else []
  }

  /** Every rule of a name, in catalog order. */
  function Gathered(authorities: seq<ToolAuthority>, name: string): seq<ArgumentRule> {
    if authorities == [] then []
    else Gathered(authorities[..|authorities| - 1], name) + OfName(authorities[|authorities| - 1].rules, name)
  }

  lemma {:induction false} OfNameMembers(rules: seq<ArgumentRule>, name: string)
    ensures forall x :: x in OfName(rules, name) <==> x in rules && x.name == name
  {
    if rules != [] {
      OfNameMembers(rules[..|rules| - 1], name);
      assert rules == rules[..|rules| - 1] + [rules[|rules| - 1]];
    }
  }

  lemma {:induction false} GatheredMembers(authorities: seq<ToolAuthority>, name: string)
    ensures forall x :: x in Gathered(authorities, name) <==> exists a :: a in authorities && x in a.rules && x.name == name
  {
    if authorities != [] {
      var last := authorities[|authorities| - 1];
      GatheredMembers(authorities[..|authorities| - 1], name);
      OfNameMembers(last.rules, name);
      assert authorities == authorities[..|authorities| - 1] + [last];
    }
  }

  function KeptNames(authorities: seq<ToolAuthority>): set<string> {
    set a, r | a in authorities && r in a.rules && Listed(authorities, r.name) :: r.name
  }

  lemma KeptGathered(authorities: seq<ToolAuthority>, name: string)
    ensures name in KeptNames(authorities) <==> Gathered(authorities, name) != [] && Listed(authorities, name)
  {
    hide Gathered;
    GatheredMembers(authorities, name);
    var g := Gathered(authorities, name);
    if g != [] {
      assert g[0] in g;
    }
    if name in KeptNames(authorities) {
      var a, r :| a in authorities && r in a.rules && r.name == name;
      assert r in g;
    }
  }

  predicate Combinable(authorities: seq<ToolAuthority>, name: string) {
    Gathered(authorities, name) != [] && Combine(name, Gathered(authorities, name)).Some?
  }

  /** Every kept name with its combined rule; None where the source raises. */
  function Intersection(authorities: seq<ToolAuthority>): Option<map<string, ArgumentRule>> {
    if forall name :: name in KeptNames(authorities) ==> Combinable(authorities, name)
    then Some(map name | name in KeptNames(authorities) :: Combine(name, Gathered(authorities, name)).value)
    else None
  }

  // ---- what rules accept ----

  type Args = map<string, Arg>

  /** What the gate asks of the arguments for one list of constraints. */
  predicate ArgsOk(names: set<string>, open: bool, args: Args) {
    !open ==> args.Keys <= names
  }

  predicate Satisfies(r: ArgumentRule, args: Args) {
    if r.name in args then r.Accepts(args[r.name]) else !r.required
  }

  /** The arguments meet everything one authority lists. */
  predicate AuthorityAccepts(a: ToolAuthority, args: Args) {
    ArgsOk(Names(a), a.open, args) && forall r :: r in a.rules ==> Satisfies(r, args)
  }

  predicate AllAccept(authorities: seq<ToolAuthority>, args: Args) {
    forall a :: a in authorities ==> AuthorityAccepts(a, args)
  }

  predicate RuleAccepts(rules: map<string, ArgumentRule>, open: bool, args: Args) {
    ArgsOk(rules.Keys, open, args) && forall name :: name in rules ==> Satisfies(rules[name], args)
  }

  predicate AllOpen(authorities: seq<ToolAuthority>) {
    forall a :: a in authorities ==> a.open
  }

  /** Some authority requires an argument that a closed authority does not list: the intersection
      drops the requirement although no arguments can meet every authority. */
  predicate DropsRequired(authorities: seq<ToolAuthority>) {
    exists a, r :: a in authorities && r in a.rules && r.required && !Listed(authorities, r.name)
  }

  ghost predicate RulesWellFormed(authorities: seq<ToolAuthority>) {
    forall a, r :: a in authorities && r in a.rules ==> r.WellFormed()
  }

  /** One kept name: its combined rule is satisfied exactly when every source rule of it is. */
  lemma KeptExact(authorities: seq<ToolAuthority>, name: string, args: Args)
    requires RulesWellFormed(authorities) && Combinable(authorities, name)
    ensures Satisfies(Combine(name, Gathered(authorities, name)).value, args)
            <==> forall a, r :: a in authorities && r in a.rules && r.name == name ==> Satisfies(r, args)
  {
    hide ArgumentRule.Accepts, ArgumentRule.WellFormed, Gathered;
    GatheredMembers(authorities, name);
    var g := Gathered(authorities, name);
    assert forall r :: r in g ==> r.WellFormed();
    assert (forall r :: r in g ==> Satisfies(r, args))
           <==> forall a, r :: a in authorities && r in a.rules && r.name == name ==> Satisfies(r, args);
    CombineExact(name, g, args);
  }

  lemma CombineExact(name: string, rules: seq<ArgumentRule>, args: Args)
    requires rules != [] && Combine(name, rules).Some? && forall r :: r in rules ==> r.WellFormed() && r.name == name
    ensures Satisfies(Combine(name, rules).value, args) <==> forall r :: r in rules ==> Satisfies(r, args)
  {
    hide ArgumentRule.Accepts, ArgumentRule.WellFormed, Limits, Least, Greatest;
    if name in args { CombinedExact(name, rules, args[name]); }
  }

  /** Exact attenuation: the compiled rule accepts arguments exactly when every authority does,
      except that it forgets a requirement for an argument some closed authority does not list. */
  lemma IntersectionExact(authorities: seq<ToolAuthority>, args: Args)
    requires RulesWellFormed(authorities) && Intersection(authorities).Some?
    ensures AllAccept(authorities, args) <==>
              RuleAccepts(Intersection(authorities).value, AllOpen(authorities), args) && !DropsRequired(authorities)
  {
    hide Combine, Gathered, Satisfies, RulesWellFormed;
    var rules := Intersection(authorities).value;
    forall name | name in rules
      ensures Satisfies(rules[name], args)
              <==> forall a, r :: a in authorities && r in a.rules && r.name == name ==> Satisfies(r, args) {
      KeptExact(authorities, name, args);
    }
    if AllAccept(authorities, args) {
      AllAcceptCompiled(authorities, args, rules);
    }
    if RuleAccepts(rules, AllOpen(authorities), args) && !DropsRequired(authorities) {
      CompiledAllAccept(authorities, args, rules);
    }
  }

  /** The exception is real: an open authority demands a reason, a closed one lists no argument,
      and the compiled rule accepts a call without a reason. */
  lemma RequirementDropped() returns (authorities: seq<ToolAuthority>, args: Args)
    ensures RulesWellFormed(authorities) && Intersection(authorities).Some?
    ensures RuleAccepts(Intersection(authorities).value, AllOpen(authorities), args) && !AllAccept(authorities, args)
  {
    hide Combine;
    var reason := ArgumentRule("reason", StringKind, true, {}, None, None, None);
    var asking := ToolAuthority("tool", Write, ["/"], false, None, [reason], true);
    var closed := ToolAuthority("tool", Write, ["/"], false, None, [], false);
    authorities, args := [asking, closed], map[];
    assert 'r' in reason.name && !IsSpace('r');
    assert closed in authorities && "reason" !in Names(closed);
    assert KeptNames(authorities) == {};
    assert !Satisfies(reason, args) && !AuthorityAccepts(asking, args);
  }

  lemma AllAcceptCompiled(authorities: seq<ToolAuthority>, args: Args, rules: map<string, ArgumentRule>)
    requires AllAccept(authorities, args) && rules.Keys == KeptNames(authorities)
    requires forall name :: name in rules ==> (Satisfies(rules[name], args)
              <==> forall a, r :: a in authorities && r in a.rules && r.name == name ==> Satisfies(r, args))
    ensures RuleAccepts(rules, AllOpen(authorities), args) && !DropsRequired(authorities)
  {
    hide Satisfies, Listed, KeptNames, AllOpen, DropsRequired;
    forall name | name in rules ensures Satisfies(rules[name], args) {
      forall a, r | a in authorities && r in a.rules && r.name == name ensures Satisfies(r, args) {
        assert AuthorityAccepts(a, args);
      }
    }
    if !AllOpen(authorities) { ArgumentsKept(authorities, args); }
    NothingDropped(authorities, args);
  }

  /** A closed authority lists every argument of a call that all accept. */
  lemma ArgumentsKept(authorities: seq<ToolAuthority>, args: Args)
    requires AllAccept(authorities, args) && !AllOpen(authorities)
    ensures forall name :: name in args ==> name in KeptNames(authorities)
  {
    hide Satisfies;
    var closed :| closed in authorities && !closed.open;
    forall name | name in args ensures name in KeptNames(authorities) {
      assert AuthorityAccepts(closed, args);
      var r :| r in closed.rules && r.name == name;
      ArgumentListed(authorities, args, name);
    }
  }

  lemma ArgumentListed(authorities: seq<ToolAuthority>, args: Args, name: string)
    requires AllAccept(authorities, args) && name in args
    ensures Listed(authorities, name)
  {
    hide Satisfies;
    forall a | a in authorities && !a.open ensures name in Names(a) { assert AuthorityAccepts(a, args); }
  }

  lemma NothingDropped(authorities: seq<ToolAuthority>, args: Args)
    requires AllAccept(authorities, args)
    ensures !DropsRequired(authorities)
  {
    hide ArgumentRule.Accepts, Listed;
    forall a, r | a in authorities && r in a.rules && r.required ensures Listed(authorities, r.name) {
      assert AuthorityAccepts(a, args) && Satisfies(r, args);
      ArgumentListed(authorities, args, r.name);
    }
  }

  lemma CompiledAllAccept(authorities: seq<ToolAuthority>, args: Args, rules: map<string, ArgumentRule>)
    requires RuleAccepts(rules, AllOpen(authorities), args) && !DropsRequired(authorities) && rules.Keys == KeptNames(authorities)
    requires forall name :: name in rules ==> (Satisfies(rules[name], args)
              <==> forall a, r :: a in authorities && r in a.rules && r.name == name ==> Satisfies(r, args))
    ensures AllAccept(authorities, args)
  {
    hide ArgumentRule.Accepts, DropsRequired, Listed, KeptNames;
    forall a | a in authorities ensures AuthorityAccepts(a, args) {
      forall r | r in a.rules ensures Satisfies(r, args) { RuleKept(authorities, args, rules, a, r); }
      if !a.open { ClosedKept(authorities, args, rules, a); }
    }
  }

  lemma RuleKept(authorities: seq<ToolAuthority>, args: Args, rules: map<string, ArgumentRule>, a: ToolAuthority, r: ArgumentRule)
    requires RuleAccepts(rules, AllOpen(authorities), args) && !DropsRequired(authorities) && rules.Keys == KeptNames(authorities)
    requires forall name :: name in rules ==> (Satisfies(rules[name], args)
              <==> forall a, r :: a in authorities && r in a.rules && r.name == name ==> Satisfies(r, args))
    requires a in authorities && r in a.rules
    ensures Satisfies(r, args)
  {
    hide ArgumentRule.Accepts;
    if Listed(authorities, r.name) {
      assert r.name in KeptNames(authorities);
    } else {
      assert r.name !in rules && !AllOpen(authorities);
      assert r.name !in args;
    }
  }

  lemma ClosedKept(authorities: seq<ToolAuthority>, args: Args, rules: map<string, ArgumentRule>, a: ToolAuthority)
    requires RuleAccepts(rules, AllOpen(authorities), args) && rules.Keys == KeptNames(authorities)
    requires a in authorities && !a.open
    ensures forall name :: name in args ==> name in Names(a)
  {
    hide Satisfies;
    forall name | name in args ensures name in Names(a) { assert name in rules; }
  }

  lemma IntersectionIs(authorities: seq<ToolAuthority>, combined: map<string, ArgumentRule>)
    requires combined.Keys == KeptNames(authorities)
    requires forall n :: n in combined ==> Combinable(authorities, n) && combined[n] == Combine(n, Gathered(authorities, n)).value
    ensures Intersection(authorities) == Some(combined)
  {
    hide Combine, Gathered, KeptNames;
    assert combined == map name | name in KeptNames(authorities) :: Combine(name, Gathered(authorities, name)).value;
  }

  lemma IntersectionFails(authorities: seq<ToolAuthority>, name: string)
    requires name in KeptNames(authorities) && !Combinable(authorities, name)
    ensures Intersection(authorities).None?
  {
    hide Combinable, KeptNames;
  }

  /** The loops of the source: gather the kept rules by name, then combine each name. */
  method IntersectArgumentRules(authorities: seq<ToolAuthority>) returns (r: Option<map<string, ArgumentRule>>)
    ensures r == Intersection(authorities)
  {
    hide Combine, Gathered, KeptNames, Intersection, Listed;
    var byName := GatherByName(authorities);
    var combined: map<string, ArgumentRule> := map[];
    var names := byName.Keys;
    while names != {}
      invariant names <= byName.Keys && combined.Keys == byName.Keys - names
      invariant forall n :: n in combined ==> Combinable(authorities, n) && combined[n] == Combine(n, Gathered(authorities, n)).value
      decreases |names|
    {
      var name :| name in names;
      KeptGathered(authorities, name);
      var rule := Combine(name, byName[name]);
      if rule.None? {
        IntersectionFails(authorities, name);
        return None;
      }
      combined := combined[name := rule.value];
      names := names - {name};
    }
    IntersectionIs(authorities, combined);
    return Some(combined);
  }

  /** The rules of a name in the first i authorities and the first k rules of the next. */
  function Sofar(authorities: seq<ToolAuthority>, i: nat, k: nat, name: string): seq<ArgumentRule>
    requires i < |authorities| && k <= |authorities[i].rules|
  {
    Gathered(authorities[..i], name) + OfName(authorities[i].rules[..k], name)
  }

  ghost predicate GatheredBy(authorities: seq<ToolAuthority>, byName: map<string, seq<ArgumentRule>>, i: nat, k: nat)
    requires i < |authorities| && k <= |authorities[i].rules|
  {
    && (forall n :: n in byName <==> Sofar(authorities, i, k, n) != [] && Listed(authorities, n))
    && (forall n :: n in byName ==> byName[n] == Sofar(authorities, i, k, n))
  }

  lemma SofarNext(authorities: seq<ToolAuthority>, i: nat, k: nat, name: string)
    requires i < |authorities| && k < |authorities[i].rules|
    ensures var rule := authorities[i].rules[k];
            Sofar(authorities, i, k + 1, name) == Sofar(authorities, i, k, name) + if rule.name == name then [rule] else []
  {
    hide Gathered;
    assert authorities[i].rules[..k + 1][..k] == authorities[i].rules[..k];
  }

  lemma SofarAll(authorities: seq<ToolAuthority>, i: nat, name: string)
    requires i < |authorities|
    ensures Sofar(authorities, i, 0, name) == Gathered(authorities[..i], name)
    ensures Sofar(authorities, i, |authorities[i].rules|, name) == Gathered(authorities[..i + 1], name)
  {
    assert authorities[..i + 1][..i] == authorities[..i];
    assert authorities[i].rules[..|authorities[i].rules|] == authorities[i].rules;
  }

  /** One more rule, kept if no closed authority leaves its name out. */
  lemma GatheredNext(authorities: seq<ToolAuthority>, i: nat, k: nat, byName: map<string, seq<ArgumentRule>>)
    requires i < |authorities| && k < |authorities[i].rules| && GatheredBy(authorities, byName, i, k)
    ensures var rule := authorities[i].rules[k];
            GatheredBy(authorities,
                       if Listed(authorities, rule.name)
                       then byName[rule.name := (if rule.name in byName then byName[rule.name] else []) + [rule]]
                       else byName, i, k + 1)
  {
    hide Listed, Sofar;
    var rule := authorities[i].rules[k];
    forall n ensures Sofar(authorities, i, k + 1, n) == Sofar(authorities, i, k, n) + if rule.name == n then [rule] else [] {
      SofarNext(authorities, i, k, n);
    }
  }

  lemma GatheredStart(authorities: seq<ToolAuthority>, i: nat, byName: map<string, seq<ArgumentRule>>)
    requires i < |authorities|
    ensures GatheredBy(authorities, byName, i, 0) <==> GatheredFrom(authorities, byName, i)
    ensures GatheredBy(authorities, byName, i, |authorities[i].rules|) <==> GatheredFrom(authorities, byName, i + 1)
  {
    hide Listed, Sofar;
    forall n ensures Sofar(authorities, i, 0, n) == Gathered(authorities[..i], n)
      && Sofar(authorities, i, |authorities[i].rules|, n) == Gathered(authorities[..i + 1], n) {
      SofarAll(authorities, i, n);
    }
  }

  ghost predicate GatheredFrom(authorities: seq<ToolAuthority>, byName: map<string, seq<ArgumentRule>>, i: nat)
    requires i <= |authorities|
  {
    && (forall n :: n in byName <==> Gathered(authorities[..i], n) != [] && Listed(authorities, n))
    && (forall n :: n in byName ==> byName[n] == Gathered(authorities[..i], n))
  }

  method GatherByName(authorities: seq<ToolAuthority>) returns (byName: map<string, seq<ArgumentRule>>)
    ensures byName.Keys == KeptNames(authorities)
    ensures forall n :: n in byName ==> byName[n] == Gathered(authorities, n)
  {
    hide GatheredBy, GatheredFrom;
    byName := map[];
    NothingGathered(authorities);
    for i := 0 to |authorities|
      invariant GatheredFrom(authorities, byName, i)
    {
      GatheredStart(authorities, i, byName);
      for k := 0 to |authorities[i].rules|
        invariant GatheredBy(authorities, byName, i, k)
      {
        GatheredNext(authorities, i, k, byName);
        var rule := authorities[i].rules[k];
        if Listed(authorities, rule.name) {
          var sofar := if rule.name in byName then byName[rule.name] else [];
          byName := byName[rule.name := sofar + [rule]];
        }
      }
      GatheredStart(authorities, i, byName);
    }
    AllGathered(authorities, byName);
  }

  lemma NothingGathered(authorities: seq<ToolAuthority>)
    ensures GatheredFrom(authorities, map[], 0)
  {
    assert authorities[..0] == [];
  }

  lemma AllGathered(authorities: seq<ToolAuthority>, byName: map<string, seq<ArgumentRule>>)
    requires GatheredFrom(authorities, byName, |authorities|)
    ensures byName.Keys == KeptNames(authorities)
    ensures forall n :: n in byName ==> byName[n] == Gathered(authorities, n)
  {
    hide Listed, KeptNames;
    assert authorities[..|authorities|] == authorities;
    forall n ensures n in byName <==> n in KeptNames(authorities) { KeptGathered(authorities, n); }
  }

  function LimitOf(a: ToolAuthority): Option<int> { a.maxUses }

  function UseLimits(authorities: seq<ToolAuthority>): (r: seq<Option<int>>)
    ensures |r| == |authorities| && forall i :: 0 <= i < |r| ==> r[i] == authorities[i].maxUses
  {
    seq(|authorities|, i requires 0 <= i < |authorities| => LimitOf(authorities[i]))
  }

  /** The rule for one requested action: None where the source raises. */
  function CompileAction(catalog: seq<ToolAuthority>, action: RequestedAction): Option<ActionRule> {
    var authorities := ResolveAll(catalog, action);
    if authorities == [] || Intersection(authorities).None? then None
    else
      var rule := ActionRule(action.tool, action.effect, action.prefix,
                             exists a :: a in authorities && a.approval, Least(UseLimits(authorities)),
                             Intersection(authorities).value, AllOpen(authorities));
      if rule.WellFormed() then Some(rule) else None
  }

  /** The allowed actions of a contract, in the order requested. */
  method Compile(catalog: seq<ToolAuthority>, actions: seq<RequestedAction>) returns (rules: Option<seq<ActionRule>>)
    ensures rules.Some? <==> actions != [] && forall a :: a in actions ==> CompileAction(catalog, a).Some?
    ensures rules.Some? ==> |rules.value| == |actions|
    ensures rules.Some? ==> forall i :: 0 <= i < |actions| ==> CompileAction(catalog, actions[i]) == Some(rules.value[i])
  {
    hide CompileAction;
    var compiled: seq<ActionRule> := [];
    for i := 0 to |actions|
      invariant |compiled| == i
      invariant forall k :: 0 <= k < i ==> CompileAction(catalog, actions[k]) == Some(compiled[k])
    {
      assert actions[i] in actions;
      var rule := CompileOne(catalog, actions[i]);
      if rule.None? { return None; }
      compiled := compiled + [rule.value];
    }
    return if compiled == [] then None else Some(compiled);
  }

  method CompileOne(catalog: seq<ToolAuthority>, action: RequestedAction) returns (r: Option<ActionRule>)
    ensures r == CompileAction(catalog, action)
  {
    hide Intersection, ResolveAll, Least, Covers, ActionRule.WellFormed;
    var authorities := ResolveAll(catalog, action);
    if authorities == [] { return None; }
    var arguments := IntersectArgumentRules(authorities);
    if arguments.None? { return None; }
    var rule := ActionRule(action.tool, action.effect, action.prefix, exists a :: a in authorities && a.approval,
                           Least(UseLimits(authorities)), arguments.value, AllOpen(authorities));
    return if rule.WellFormed() then Some(rule) else None;
  }

  // ---- the gate ----

  datatype Intent = Intent(tool: string, effect: Effect, target: string, args: Args)

  predicate Matches(rule: ActionRule, intent: Intent) {
    rule.tool == intent.tool && rule.effect == intent.effect && TargetMatches(intent.target, rule.prefix)
  }

  /** The gate's static checks: some rule matches, and the arguments meet every matching rule. */
  predicate Authorised(rules: seq<ActionRule>, intent: Intent) {
    && (exists r :: r in rules && Matches(r, intent))
    && forall r :: r in rules && Matches(r, intent) ==> RuleAccepts(r.rules, r.open, intent.args)
  }

  predicate NeedsApproval(rules: seq<ActionRule>, intent: Intent) {
    exists r :: r in rules && Matches(r, intent) && r.approval
  }

  /** Attenuation: an intent the gate authorises lies, for each compiled rule it matches, inside
      every server authority covering the action that rule was compiled from: its target's
      components begin with those of a permitted prefix, its approval and its use limit as strict, and its arguments
      accepted by all covering authorities exactly when no requirement was dropped. */
  lemma GateAttenuates(catalog: seq<ToolAuthority>, action: RequestedAction, rules: seq<ActionRule>, rule: ActionRule,
                       intent: Intent, a: ToolAuthority)
    requires RulesWellFormed(catalog) && CompileAction(catalog, action) == Some(rule)
    requires Authorised(rules, intent) && rule in rules && Matches(rule, intent)
    requires a in catalog && Covers(a, action)
    ensures a.tool == intent.tool && a.effect == intent.effect
    ensures exists p :: p in a.prefixes && Steps(p) <= Parts(intent.target)
    ensures a.approval ==> NeedsApproval(rules, intent)
    ensures a.maxUses.Some? ==> rule.maxUses.Some? && rule.maxUses.value <= a.maxUses.value
    ensures !a.open ==> intent.args.Keys <= Names(a)
    ensures AllAccept(ResolveAll(catalog, action), intent.args) <==> !DropsRequired(ResolveAll(catalog, action))
  {
    hide Intersection, RuleAccepts, IsWithin, TargetMatches, Steps, Parts, Names, AllAccept, DropsRequired, Satisfies,
         RulesWellFormed, Least, ResolveAll, UseLimits;
    var authorities := ResolveAll(catalog, action);
    var p :| p in a.prefixes && IsWithin(action.prefix, p);
    TargetTransitive(intent.target, action.prefix, p);
    TargetByParts(intent.target, p);
    SomeWellFormed(catalog, authorities);
    IntersectionExact(authorities, intent.args);
    if a.maxUses.Some? { UseLimitBound(authorities, a); }
    if !a.open { ClosedNames(authorities, a, intent.args); }
  }

  lemma SomeWellFormed(catalog: seq<ToolAuthority>, authorities: seq<ToolAuthority>)
    requires RulesWellFormed(catalog) && forall a :: a in authorities ==> a in catalog
    ensures RulesWellFormed(authorities)
  {
    hide ArgumentRule.WellFormed;
  }

  lemma UseLimitBound(authorities: seq<ToolAuthority>, a: ToolAuthority)
    requires a in authorities && a.maxUses.Some?
    ensures Least(UseLimits(authorities)).Some? && Least(UseLimits(authorities)).value <= a.maxUses.value
  {
    var i :| 0 <= i < |authorities| && authorities[i] == a;
    var limits := UseLimits(authorities);
    assert limits[i] == a.maxUses;
    assert a.maxUses in limits;
  }

  lemma ClosedNames(authorities: seq<ToolAuthority>, a: ToolAuthority, args: Args)
    requires a in authorities && !a.open && Intersection(authorities).Some?
    requires RuleAccepts(Intersection(authorities).value, AllOpen(authorities), args)
    ensures args.Keys <= Names(a)
  {
    hide Combine, Gathered, Satisfies;
  }
}
