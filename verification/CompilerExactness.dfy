/** What the contract compiler does with a requested action, written out over the catalog's authorities. */
module CompilerExactness {
  import opened Text
  import opened Prefixes
  import opened Authority
  import opened ContractCompiler

  /** The authority is for the tool and the effect, and one of its prefixes contains the requested one. */
  predicate Permits(a: ToolAuthority, action: RequestedAction) {
    a.tool == action.tool && a.effect == action.effect && exists p :: p in a.prefixes && Steps(p) <= Steps(action.prefix)
  }

  lemma PermitsCovers(a: ToolAuthority, action: RequestedAction)
    ensures Covers(a, action) <==> Permits(a, action)
  {
    hide IsWithin, Steps;
    forall p ensures IsWithin(action.prefix, p) <==> Steps(p) <= Steps(action.prefix) { WithinByParts(action.prefix, p); }
  }

  /** An authority that permits the action has the rule for an argument that every closed one lists. */
  predicate Applies(catalog: seq<ToolAuthority>, action: RequestedAction, r: ArgumentRule) {
    && (exists a :: a in catalog && Permits(a, action) && r in a.rules)
    && forall a :: a in catalog && Permits(a, action) && !a.open ==> exists t :: t in a.rules && t.name == r.name
  }

  /** All rules that apply to the name allow the value. */
  ghost predicate CommonValue(catalog: seq<ToolAuthority>, action: RequestedAction, name: string, v: string) {
    forall r :: Applies(catalog, action, r) && r.name == name ==> v in r.allowed
  }

  /** Two rules for one argument of different kinds or with crossing bounds, or an enumeration left
      without a value. */
  ghost predicate Conflict(catalog: seq<ToolAuthority>, action: RequestedAction, r: ArgumentRule, t: ArgumentRule) {
    && Applies(catalog, action, r) && Applies(catalog, action, t) && r.name == t.name
    && (|| r.kind != t.kind
        || (r.minimum.Some? && t.maximum.Some? && r.minimum.value > t.maximum.value)
        || (r.kind.EnumKind? && forall v :: !CommonValue(catalog, action, r.name, v)))
  }

  /** The rules gathered under a name are those that apply. */
  lemma GatheredApply(catalog: seq<ToolAuthority>, action: RequestedAction, r: ArgumentRule)
    ensures var authorities := ResolveAll(catalog, action);
            Applies(catalog, action, r) <==> r in Gathered(authorities, r.name) && Listed(authorities, r.name)
  {
    hide Permits, Covers, ResolveAll, Gathered;
    var authorities := ResolveAll(catalog, action);
    forall a ensures a in authorities <==> a in catalog && Permits(a, action) { PermitsCovers(a, action); }
    GatheredMembers(authorities, r.name);
    forall a: ToolAuthority ensures r.name in Names(a) <==> exists t :: t in a.rules && t.name == r.name {}
  }

  predicate Clash(g: seq<ArgumentRule>, r: ArgumentRule, t: ArgumentRule) {
    && r in g && t in g
    && (|| r.kind != t.kind
        || (r.minimum.Some? && t.maximum.Some? && r.minimum.value > t.maximum.value)
        || (r.kind.EnumKind? && CommonValues(g) == {}))
  }

  lemma CombineClashes(name: string, g: seq<ArgumentRule>)
    requires g != [] && forall r :: r in g ==> r.WellFormed() && r.name == name
    ensures Combine(name, g).None? <==> exists r, t :: Clash(g, r, t)
  {
    hide Combine, CommonTo, CommonValues, ArgumentRule.WellFormed;
    CombineFails(name, g);
    CommonMeans(g);
    assert g[0] in g;
    if Combine(name, g).None? {
      if r, t :| r in g && t in g && r.kind != t.kind { assert Clash(g, r, t); }
      else if r, t :| r in g && t in g && r.minimum.Some? && t.maximum.Some? && r.minimum.value > t.maximum.value { assert Clash(g, r, t); }
      else { assert Clash(g, g[0], g[0]); }
    }
  }

  lemma ClashConflicts(catalog: seq<ToolAuthority>, action: RequestedAction, g: seq<ArgumentRule>, r: ArgumentRule, t: ArgumentRule)
    requires forall x :: x in g ==> x.name == r.name
    requires forall x: ArgumentRule :: x.name == r.name ==> (Applies(catalog, action, x) <==> x in g)
    ensures Clash(g, r, t) <==> Conflict(catalog, action, r, t)
  {
    hide Applies, CommonValues;
    forall v ensures CommonTo(g, v) <==> CommonValue(catalog, action, r.name, v) {}
    if g != [] { CommonMeans(g); }
  }

  /** A kept argument cannot be combined exactly where two of its rules conflict. */
  lemma ConflictMeans(catalog: seq<ToolAuthority>, action: RequestedAction, name: string)
    requires RulesWellFormed(catalog)
    ensures var authorities := ResolveAll(catalog, action);
            name in KeptNames(authorities) && !Combinable(authorities, name)
            <==> exists r: ArgumentRule, t :: r.name == name && Conflict(catalog, action, r, t)
  {
    hide Applies, ResolveAll, Gathered, KeptNames, Combine, Listed, ArgumentRule.WellFormed, Covers, Clash, Conflict;
    var authorities := ResolveAll(catalog, action);
    var g := Gathered(authorities, name);
    KeptGathered(authorities, name);
    GatheredMembers(authorities, name);
    forall r: ArgumentRule | r.name == name ensures Applies(catalog, action, r) <==> r in g && Listed(authorities, name) {
      GatheredApply(catalog, action, r);
    }
    if g != [] && Listed(authorities, name) {
      forall r | r in g ensures r.WellFormed() && r.name == name {}
      CombineClashes(name, g);
      forall r: ArgumentRule, t | r.name == name ensures Clash(g, r, t) <==> Conflict(catalog, action, r, t) {
        ClashConflicts(catalog, action, g, r, t);
      }
      forall r: ArgumentRule, t | Clash(g, r, t) ensures r.name == name { ClashIn(g, r, t); }
    } else {
      forall r: ArgumentRule, t | r.name == name && Conflict(catalog, action, r, t) ensures false { ConflictApplies(catalog, action, r, t); }
    }
  }

  lemma ClashIn(g: seq<ArgumentRule>, r: ArgumentRule, t: ArgumentRule)
    requires Clash(g, r, t)
    ensures r in g
  {}

  lemma ConflictApplies(catalog: seq<ToolAuthority>, action: RequestedAction, r: ArgumentRule, t: ArgumentRule)
    requires Conflict(catalog, action, r, t)
    ensures Applies(catalog, action, r)
  {}

  /** Why a requested action is refused: nothing permits it, the rules for an argument conflict, the
      tool has no name, the prefix is not absolute, or an authority allows less than one use. */
  ghost predicate Refused(catalog: seq<ToolAuthority>, action: RequestedAction) {
    || (forall a :: a in catalog ==> !Permits(a, action))
    || (exists r, t :: Conflict(catalog, action, r, t))
    || Blank(action.tool) || !("/" <= action.prefix)
    || exists a :: a in catalog && Permits(a, action) && a.maxUses.Some? && a.maxUses.value < 1
  }

  lemma UseLimitMeans(authorities: seq<ToolAuthority>)
    ensures var least := Least(UseLimits(authorities));
            && (least.None? <==> forall a :: a in authorities ==> a.maxUses.None?)
            && (least.Some? ==> exists a :: a in authorities && a.maxUses == least)
            && (least.Some? ==> forall a :: a in authorities && a.maxUses.Some? ==> least.value <= a.maxUses.value)
  {
    hide Least;
    var limits := UseLimits(authorities);
    forall a | a in authorities ensures a.maxUses in limits {
      var i :| 0 <= i < |authorities| && authorities[i] == a;
      assert limits[i] == a.maxUses;
    }
    if Least(limits).Some? {
      var i :| 0 <= i < |limits| && limits[i] == Least(limits);
      assert authorities[i] in authorities;
    }
  }

  /** A requested action compiles unless it is refused; its rule is for the action as requested, asks
      for approval where any permitting authority does, is open where all are, and allows the fewest uses. */
  lemma CompileExactly(catalog: seq<ToolAuthority>, action: RequestedAction)
    requires RulesWellFormed(catalog)
    ensures var r := CompileAction(catalog, action);
            && (r.None? <==> Refused(catalog, action))
            && (r.Some? ==> RuleOf(catalog, action, r.value))
  {
    hide Permits, Covers, ResolveAll, Intersection, Conflict, Least, UseLimits, Blank;
    var authorities := ResolveAll(catalog, action);
    forall a ensures a in authorities <==> a in catalog && Permits(a, action) { PermitsCovers(a, action); }
    IntersectionMeans(catalog, action);
    UseLimitMeans(authorities);
    if authorities != [] { assert authorities[0] in authorities; }
  }

  ghost predicate RuleOf(catalog: seq<ToolAuthority>, action: RequestedAction, rule: ActionRule) {
    && rule.tool == action.tool && rule.effect == action.effect && rule.prefix == action.prefix
    && (rule.approval <==> exists a :: a in catalog && Permits(a, action) && a.approval)
    && (rule.open <==> forall a :: a in catalog && Permits(a, action) ==> a.open)
    && (rule.maxUses.None? <==> forall a :: a in catalog && Permits(a, action) ==> a.maxUses.None?)
    && (rule.maxUses.Some? ==>
          && (exists a :: a in catalog && Permits(a, action) && a.maxUses == rule.maxUses)
          && forall a :: a in catalog && Permits(a, action) && a.maxUses.Some? ==> rule.maxUses.value <= a.maxUses.value)
  }

  lemma IntersectionMeans(catalog: seq<ToolAuthority>, action: RequestedAction)
    requires RulesWellFormed(catalog)
    ensures Intersection(ResolveAll(catalog, action)).None? <==> exists r, t :: Conflict(catalog, action, r, t)
  {
    hide Conflict, ResolveAll, KeptNames, Combinable, RulesWellFormed;
    var authorities := ResolveAll(catalog, action);
    forall name ensures name in KeptNames(authorities) && !Combinable(authorities, name)
                        <==> exists r: ArgumentRule, t :: r.name == name && Conflict(catalog, action, r, t) {
      ConflictMeans(catalog, action, name);
    }
    if r, t :| Conflict(catalog, action, r, t) {
      assert r.name in KeptNames(authorities) && !Combinable(authorities, r.name);
    }
  }
}
