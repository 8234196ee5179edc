/** What the policy gate decides, written out over the contract's rules, the arguments, the receipts
    presented, and the capabilities issued before. */
module GateExactness {
  import opened GraphSchema
  import opened Prefixes
  import opened ContractCompiler
  import opened PolicyGate

  // ---- one decision ----

  /** The rule names the intent's tool and effect, and its prefix's components begin the target's. */
  predicate Under(rule: ActionRule, intent: Intent) {
    rule.tool == intent.tool && rule.effect == intent.effect && Steps(rule.prefix) <= Parts(intent.target)
  }

  lemma UnderMatches(rule: ActionRule, intent: Intent)
    ensures Matches(rule, intent) <==> Under(rule, intent)
  {
    hide TargetMatches, Steps, Parts;
    TargetByParts(intent.target, rule.prefix);
  }

  /** A closed rule lists every argument; what is listed is accepted, and present if required. */
  predicate ArgumentsMeet(rule: ActionRule, args: Args) {
    && (forall name :: name in args ==> rule.open || name in rule.rules)
    && (forall name :: name in rule.rules && rule.rules[name].name in args ==>
          rule.rules[name].Accepts(args[rule.rules[name].name]))
    && (forall name :: name in rule.rules && rule.rules[name].name !in args ==> !rule.rules[name].required)
  }

  lemma ArgumentsAccepted(rule: ActionRule, args: Args)
    ensures RuleAccepts(rule.rules, rule.open, args) <==> ArgumentsMeet(rule, args)
  {}

  /** The trusted key is the approver's own, in force and not revoked, and he reviews security. */
  predicate Held(entry: TrustEntry, approver: string, now: int) {
    && entry.subject == approver && "security-reviewer" in entry.roles
    && entry.from <= now && now < entry.until && !(entry.revoked.Some? && entry.revoked.value <= now)
  }

  /** A receipt for this very intent, contract and executor, signed by a trusted approver, not expired,
      neither from the future nor too old, and not made out for longer than permitted. */
  predicate Genuine(v: ApprovalVerifier, r: Receipt, contract: string, a: Attempt) {
    && r.intent == a.digest && r.contract == contract && r.executor == a.executor
    && v.verify(r) && r.keyId in v.keys
    && (if r.keyId in v.trust then Held(v.trust[r.keyId], r.approver, a.now) else r.approver in v.allowed)
    && r.issued - v.skew <= a.now && a.now < r.expires
    && a.now <= r.issued + v.maximumAge && r.expires <= r.issued + v.maximumTtl
  }

  /** Where a verifier is configured only a genuine receipt not consumed before is good; where none is,
      only an unsigned approval of the intent. */
  predicate Good(g: Rules, consumed: set<Consumption>, a: Attempt, presented: Approval) {
    if g.verifier.Some? then
      && presented.Signed? && Genuine(g.verifier.value, presented.receipt, g.contract.digest, a)
      && Consumption(presented.receipt.approval, a.digest, a.executor) !in consumed
    else presented == Unsigned(a.digest)
  }

  lemma GoodUsable(g: Rules, consumed: set<Consumption>, a: Attempt, presented: Approval)
    ensures Usable(g, consumed, a, presented) <==> Good(g, consumed, a, presented)
  {}

  predicate FirstGood(g: Rules, consumed: set<Consumption>, a: Attempt, approvals: seq<Approval>, i: nat) {
    i < |approvals| && Good(g, consumed, a, approvals[i]) && forall k :: 0 <= k < i ==> !Good(g, consumed, a, approvals[k])
  }

  /** The approval that settles the matter is the first good one. */
  lemma {:induction false} SettlingFirst(g: Rules, consumed: set<Consumption>, a: Attempt, approvals: seq<Approval>)
    ensures var settling := Settling(g, consumed, a, approvals);
            && (settling.None? <==> forall p :: p in approvals ==> !Good(g, consumed, a, p))
            && (settling.Some? ==> exists i: nat :: FirstGood(g, consumed, a, approvals, i) && approvals[i] == settling.value)
  {
    hide Usable, Good;
    if approvals != [] {
      GoodUsable(g, consumed, a, approvals[0]);
      if Good(g, consumed, a, approvals[0]) {
        assert FirstGood(g, consumed, a, approvals, 0);
      } else {
        SettlingFirst(g, consumed, a, approvals[1..]);
        assert approvals == [approvals[0]] + approvals[1..];
        if Settling(g, consumed, a, approvals).Some? {
          var i: nat :| FirstGood(g, consumed, a, approvals[1..], i) && approvals[1..][i] == Settling(g, consumed, a, approvals).value;
          assert forall k :: 0 < k <= i + 1 ==> approvals[k] == approvals[1..][k - 1];
          assert FirstGood(g, consumed, a, approvals, i + 1);
        }
      }
    }
  }

  lemma FirstUnique(g: Rules, consumed: set<Consumption>, a: Attempt, approvals: seq<Approval>, i: nat, k: nat)
    requires FirstGood(g, consumed, a, approvals, i) && FirstGood(g, consumed, a, approvals, k)
    ensures i == k
  {
    hide Good;
  }

  /** Deletion and publication, anything but reading on tainted inputs, and what a rule says. */
  predicate MustBeApproved(c: Contract, a: Attempt) {
    || a.intent.effect == Delete || a.intent.effect == Publish
    || (a.tainted && a.intent.effect != Read)
    || exists r :: r in c.rules && Under(r, a.intent) && r.approval
  }

  lemma ApprovalMeans(c: Contract, a: Attempt)
    ensures ApprovalRequired(c, a) <==> MustBeApproved(c, a)
  {
    hide Matches, Under;
    forall r ensures Matches(r, a.intent) <==> Under(r, a.intent) { UnderMatches(r, a.intent); }
  }

  /** Some rule covers the intent, no rule forbids the tool, and every covering rule accepts the arguments. */
  predicate Lawful(c: Contract, a: Attempt) {
    && a.admissible && a.intent.tool !in c.forbidden
    && (exists r :: r in c.rules && Under(r, a.intent))
    && forall r :: r in c.rules && Under(r, a.intent) ==> ArgumentsMeet(r, a.intent.args)
  }

  lemma ArguableMeans(g: Rules, a: Attempt)
    ensures Arguable(g, a) <==> Lawful(g.contract, a)
  {
    hide Matches, Under, RuleAccepts, ArgumentsMeet;
    forall r ensures Matches(r, a.intent) <==> Under(r, a.intent) { UnderMatches(r, a.intent); }
    forall r: ActionRule ensures RuleAccepts(r.rules, r.open, a.intent.args) <==> ArgumentsMeet(r, a.intent.args) {
      ArgumentsAccepted(r, a.intent.args);
    }
  }

  // ---- the counters over every sequence of attempts ----

  /** How often a contract lists a rule of the tool, effect and prefix: those rules share a counter. */
  function Copies(rules: seq<ActionRule>, r: ActionRule): nat {
    if rules == [] then 0
    else
      var last := rules[|rules| - 1];
      Copies(rules[..|rules| - 1], r)
      + if last.tool == r.tool && last.effect == r.effect && last.prefix == r.prefix then 1 else 0
  }

  /** An issued capability raises the counter of a rule once for every copy of it. */
  lemma {:induction false} UseCounts(c: Contract, counts: Counts, rules: seq<ActionRule>, intent: Intent, r: ActionRule)
    ensures Count(Bumped(counts, UsesOf(c, rules, intent)), KeyOf(c, r))
              == Count(counts, KeyOf(c, r)) + if Matches(r, intent) then Copies(rules, r) else 0
  {
    hide TargetMatches;
    if rules != [] {
      var front, last := rules[..|rules| - 1], rules[|rules| - 1];
      UseCounts(c, counts, front, intent, r);
      var rest := UsesOf(c, front, intent);
      var use := Use(KeyOf(c, last), last.maxUses);
      assert (rest + [use])[..|rest|] == rest;
      assert Bumped(counts, rest + [use]) == Bumped(counts, rest)[use.key := Count(Bumped(counts, rest), use.key) + 1];
      assert KeyOf(c, last) == KeyOf(c, r) ==> (Matches(last, intent) <==> Matches(r, intent));
    }
  }

  /** The counter of a rule stands at its copies times the capabilities issued under it. */
  lemma {:induction false} CounterExact(g: Rules, attempts: seq<Attempt>, r: ActionRule)
    ensures Count(HoldingsAfter(g, attempts).counts, KeyOf(g.contract, r))
              == Copies(g.contract.rules, r) * IssuedUnder(g, attempts, r)
  {
    hide Issues, Bumped, UsesOf, Consumes, Matches, Copies, Count;
    if attempts == [] {
      NothingCounted(KeyOf(g.contract, r));
    } else {
      var c, front, a := g.contract, attempts[..|attempts| - 1], attempts[|attempts| - 1];
      CounterExact(g, front, r);
      UseCounts(c, HoldingsAfter(g, front).counts, c.rules, a.intent, r);
      var n := IssuedUnder(g, front, r);
      assert Copies(c.rules, r) * (n + 1) == Copies(c.rules, r) * n + Copies(c.rules, r);
    }
  }

  lemma NothingCounted(key: Key)
    ensures Count(map[], key) == 0
  {}

  /** The budget of a covering rule leaves room for one more capability. */
  predicate Room(g: Rules, attempts: seq<Attempt>, r: ActionRule) {
    r.maxUses.Some? ==> Copies(g.contract.rules, r) * IssuedUnder(g, attempts, r) < r.maxUses.value
  }

  lemma {:induction false} UsesListed(c: Contract, rules: seq<ActionRule>, intent: Intent, u: Use)
    ensures u in UsesOf(c, rules, intent) <==> exists r :: r in rules && Matches(r, intent) && u == Use(KeyOf(c, r), r.maxUses)
  {
    hide Matches;
    if rules != [] {
      var front, last := rules[..|rules| - 1], rules[|rules| - 1];
      UsesListed(c, front, intent, u);
      assert rules == front + [last];
    }
  }

  lemma BudgetMeans(g: Rules, attempts: seq<Attempt>, a: Attempt)
    ensures OverBudget(g, HoldingsAfter(g, attempts), a)
            <==> exists r :: r in g.contract.rules && Under(r, a.intent) && !Room(g, attempts, r)
  {
    hide Matches, Under, UsesOf, Copies, IssuedUnder, HoldingsAfter;
    var c, counts := g.contract, HoldingsAfter(g, attempts).counts;
    forall r ensures Matches(r, a.intent) <==> Under(r, a.intent) { UnderMatches(r, a.intent); }
    forall u ensures u in UsesOf(c, c.rules, a.intent)
      <==> exists r :: r in c.rules && Matches(r, a.intent) && u == Use(KeyOf(c, r), r.maxUses) {
      UsesListed(c, c.rules, a.intent, u);
    }
    forall r ensures Count(counts, KeyOf(c, r)) == Copies(c.rules, r) * IssuedUnder(g, attempts, r) { CounterExact(g, attempts, r); }
    forall r | r in c.rules && Matches(r, a.intent) && !Room(g, attempts, r) ensures OverBudget(g, HoldingsAfter(g, attempts), a) {
      assert Use(KeyOf(c, r), r.maxUses) in UsesOf(c, c.rules, a.intent);
      assert Use(KeyOf(c, r), r.maxUses).limit == r.maxUses;
    }
  }

  /** After any attempts, a capability is issued exactly for a lawful intent, approved where it must
      be, for which every covering rule has room: no more and no less. */
  lemma IssuedExactly(g: Rules, attempts: seq<Attempt>, a: Attempt)
    ensures Issues(g, HoldingsAfter(g, attempts), a)
            <==> && Lawful(g.contract, a)
                 && (MustBeApproved(g.contract, a) ==>
                       exists p :: p in a.approvals && Good(g, HoldingsAfter(g, attempts).consumed, a, p))
                 && forall r :: r in g.contract.rules && Under(r, a.intent) ==> Room(g, attempts, r)
  {
    hide Lawful, Arguable, ApprovalRequired, MustBeApproved, Settling, Good, OverBudget, Under, Room, HoldingsAfter;
    ArguableMeans(g, a);
    ApprovalMeans(g.contract, a);
    SettlingFirst(g, HoldingsAfter(g, attempts).consumed, a, a.approvals);
    BudgetMeans(g, attempts, a);
  }

  lemma GoodConsumption(g: Rules, consumed: set<Consumption>, a: Attempt, presented: Approval)
    requires Good(g, consumed, a, presented)
    ensures g.verifier.Some? <==> presented.Signed?
    ensures presented.Signed? ==> ConsumptionOf(presented.receipt) == Consumption(presented.receipt.approval, a.digest, a.executor)
  {}

  /** An attempt consumes the first good receipt as soon as the intent is lawful and must be approved;
      otherwise it consumes nothing. */
  lemma ConsumedExactly(g: Rules, s: Holdings, a: Attempt, i: nat)
    requires i < |a.approvals| ==> FirstGood(g, s.consumed, a, a.approvals, i)
    requires i >= |a.approvals| ==> forall p :: p in a.approvals ==> !Good(g, s.consumed, a, p)
    ensures AfterAttempt(g, s, a).consumed
              == if Lawful(g.contract, a) && MustBeApproved(g.contract, a) && g.verifier.Some? && i < |a.approvals|
                 then s.consumed + {Consumption(a.approvals[i].receipt.approval, a.digest, a.executor)} else s.consumed
  {
    hide Lawful, Arguable, ApprovalRequired, MustBeApproved, Settling, Issues, Good;
    ArguableMeans(g, a);
    ApprovalMeans(g.contract, a);
    SettlingFirst(g, s.consumed, a, a.approvals);
    if i < |a.approvals| {
      assert a.approvals[i] in a.approvals;
      var k: nat :| FirstGood(g, s.consumed, a, a.approvals, k) && a.approvals[k] == Settling(g, s.consumed, a, a.approvals).value;
      FirstUnique(g, s.consumed, a, a.approvals, i, k);
      GoodConsumption(g, s.consumed, a, a.approvals[i]);
    }
  }

  const LOOKUP: ActionRule := ActionRule("lookup", Read, "/", false, Some(2), map[], false)
  const TWICE: Rules := Rules(Contract("contract", [LOOKUP, LOOKUP], []), None)
  const READING: Attempt := Attempt(Intent("lookup", Read, "/", map[]), "intent", false, true, "executor", [], 0)

  /** A budget is really cut short where a rule is listed twice: of two uses permitted, one is refused. */
  lemma CopiesShareBudget()
    ensures LOOKUP.WellFormed() && LOOKUP.maxUses == Some(2)
    ensures Issues(TWICE, FRESH, READING) && IssuedUnder(TWICE, [READING], LOOKUP) == 1
    ensures !Issues(TWICE, HoldingsAfter(TWICE, [READING]), READING)
  {
    hide Issues, HoldingsAfter;
    assert 'l' in LOOKUP.tool;
    assert TWICE.contract.rules[0] == LOOKUP && Steps("/") == [] by { StepsTrimmed("/"); }
    TwoCopies();
    assert [READING][..0] == [];
    NothingIssued(LOOKUP);
    assert HoldingsAfter(TWICE, []) == FRESH by { NothingHeld(TWICE); }
    IssuedExactly(TWICE, [], READING);
    IssuedExactly(TWICE, [READING], READING);
    UnderMatches(LOOKUP, READING.intent);
  }

  lemma TwoCopies()
    ensures Copies(TWICE.contract.rules, LOOKUP) == 2
  {
    assert TWICE.contract.rules[..1] == [LOOKUP] && [LOOKUP][..0] == [];
    assert Copies([], LOOKUP) == 0 && Copies([LOOKUP], LOOKUP) == 1;
  }

  lemma NothingIssued(r: ActionRule)
    ensures IssuedUnder(TWICE, [], r) == 0
  {}

  lemma NothingHeld(g: Rules)
    ensures HoldingsAfter(g, []) == FRESH
  {}
}
