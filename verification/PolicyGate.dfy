/** The reference monitor: authorisation of intents, the approvals it consumes, and the use budgets it spends. */
module PolicyGate {
  import opened GraphSchema
  import opened ContractCompiler

  datatype Key = Key(contract: string, tool: string, effect: Effect, prefix: string)

  /** A counter and the limit it is held to, one pair per matching rule. */
  datatype Use = Use(key: Key, limit: Option<int>)

  type Counts = map<Key, int>

  function Count(counts: Counts, key: Key): int {
    if key in counts then counts[key] else 0
  }

  predicate Exhausted(counts: Counts, uses: seq<Use>) {
    exists u :: u in uses && u.limit.Some? && Count(counts, u.key) >= u.limit.value
  }

  /** Every listed counter raised once for each time it is listed. */
  function Bumped(counts: Counts, uses: seq<Use>): Counts {
    if uses == [] then counts
    else
      var before := Bumped(counts, uses[..|uses| - 1]);
      var key := uses[|uses| - 1].key;
      before[key := Count(before, key) + 1]
  }

  function AfterConsume(counts: Counts, uses: seq<Use>): Counts {
    if Exhausted(counts, uses) then counts else Bumped(counts, uses)
  }

  class InMemoryPolicyUseCounterStore {
    var counts: Counts

    constructor ()
      ensures counts == map[]
    {
      counts := map[];
    }

    method Consume(uses: seq<Use>) returns (ok: bool)
      modifies this
      ensures ok <==> !Exhausted(old(counts), uses)
      ensures counts == AfterConsume(old(counts), uses)
    {
      if exists u :: u in uses && u.limit.Some? && (if u.key in counts then counts[u.key] else 0) >= u.limit.value {
        return false;
      }
      for i := 0 to |uses|
        invariant counts == Bumped(old(counts), uses[..i])
      {
        assert uses[..i + 1][..i] == uses[..i];
        var key := uses[i].key;
        counts := counts[key := (if key in counts then counts[key] else 0) + 1];
      }
      assert uses[..|uses|] == uses;
      return true;
    }
  }

  /** Rules demand a positive limit, which is what makes the two stores agree. */
  predicate Positive(uses: seq<Use>) {
    forall u :: u in uses && u.limit.Some? ==> u.limit.value >= 1
  }

  class SQLitePolicyUseCounterStore {
    var rows: Counts

    constructor ()
      ensures rows == map[]
    {
      rows := map[];
    }

    /** A missing row passes whatever the limit; a refusal rolls back. */
    method Consume(uses: seq<Use>) returns (ok: bool)
      modifies this
      ensures ok <==> forall u :: u in uses && u.limit.Some? && u.key in old(rows) ==> old(rows)[u.key] < u.limit.value
      ensures rows == if ok then Bumped(old(rows), uses) else old(rows)
      ensures Positive(uses) ==> (ok <==> !Exhausted(old(rows), uses)) && rows == AfterConsume(old(rows), uses)
    {
      for i := 0 to |uses|
        invariant rows == old(rows)
        invariant forall k :: 0 <= k < i && uses[k].limit.Some? && uses[k].key in rows ==> rows[uses[k].key] < uses[k].limit.value
      {
        var u := uses[i];
        if u.limit.Some? && u.key in rows && rows[u.key] >= u.limit.value {
          assert u in uses;
          return false;
        }
      }
      assert forall u :: u in uses && u.limit.Some? && u.key in rows ==> rows[u.key] < u.limit.value;
      for i := 0 to |uses|
        invariant rows == Bumped(old(rows), uses[..i])
      {
        assert uses[..i + 1][..i] == uses[..i];
        var key := uses[i].key;
        rows := if key in rows then rows[key := rows[key] + 1] else rows[key := 1];
      }
      assert uses[..|uses|] == uses;
      return true;
    }
  }

  // ---- approvals ----

  /** A signed approval, bound to one intent, contract and executor. */
  datatype Receipt = Receipt(keyId: string, approval: string, approver: string, intent: string, contract: string,
                             executor: string, issued: int, expires: int, signature: string)

  /** What a caller presents: a signed receipt, or an in-process approval of an intent. */
  datatype Approval = Signed(receipt: Receipt) | Unsigned(intent: string)

  datatype TrustEntry = TrustEntry(subject: string, roles: set<string>, from: int, until: int, revoked: Option<int>)

  /** The trusted keys, their human owners, the time limits, and the signature check under a key. */
  datatype ApprovalVerifier = ApprovalVerifier(
    keys: set<string>, trust: map<string, TrustEntry>, allowed: set<string>,
    maximumTtl: int, maximumAge: int, skew: int, verify: Receipt -> bool)
  {
    predicate Trusts(r: Receipt, now: int) {
      if r.keyId in trust then
        var entry := trust[r.keyId];
        && entry.subject == r.approver && "security-reviewer" in entry.roles
        && entry.from <= now < entry.until && (entry.revoked.None? || now < entry.revoked.value)
      else r.approver in allowed
    }

    /** Everything validation asks of a receipt but that it was not consumed before. */
    predicate Validates(r: Receipt, intent: string, contract: string, executor: string, now: int) {
      && Trusts(r, now)
      && r.intent == intent && r.contract == contract && r.executor == executor
      && now < r.expires && r.issued <= now + skew && now - r.issued <= maximumAge && r.expires - r.issued <= maximumTtl
      && r.keyId in keys && verify(r)
    }
  }

  /** What the consumption stores remember of a receipt. */
  datatype Consumption = Consumption(approval: string, intent: string, executor: string)

  function ConsumptionOf(r: Receipt): Consumption {
    Consumption(r.approval, r.intent, r.executor)
  }

  /** The set of one store, and the table with that primary key of the other. */
  class ApprovalConsumptionStore {
    var consumed: set<Consumption>

    constructor ()
      ensures consumed == {}
    {
      consumed := {};
    }

    /** True exactly on the first use. */
    method Consume(key: Consumption) returns (ok: bool)
      modifies this
      ensures ok <==> key !in old(consumed)
      ensures consumed == old(consumed) + {key}
    {
      ok := key !in consumed;
      consumed := consumed + {key};
    }
  }

  // ---- authorisation ----

  datatype Contract = Contract(digest: string, rules: seq<ActionRule>, forbidden: seq<string>)

  /** An attempt: the intent with its digest, whether its labels are tainted, whether the checks
      outside this model (expiry, contract version, provenance, inline secrets) pass, the executor it
      is for, and the approvals presented and when. */
  datatype Attempt = Attempt(intent: Intent, digest: string, tainted: bool, admissible: bool, executor: string,
                             approvals: seq<Approval>, now: int)

  /** What the gate's two stores hold. */
  datatype Holdings = Holdings(counts: Counts, consumed: set<Consumption>)

  const FRESH: Holdings := Holdings(map[], {})

  /** The gate's fixed parts. */
  datatype Rules = Rules(contract: Contract, verifier: Option<ApprovalVerifier>)

  const HIGH_IMPACT: set<Effect> := {Write, Execute, Network, Delete, Publish}

  predicate ApprovalRequired(c: Contract, a: Attempt) {
    || a.intent.effect in {Delete, Publish}
    || (a.tainted && a.intent.effect in HIGH_IMPACT)
    || NeedsApproval(c.rules, a.intent)
  }

  /** A presented approval settles the matter: a receipt valid and not consumed, or, where no verifier
      is configured, an unsigned approval of the intent. */
  predicate Usable(g: Rules, consumed: set<Consumption>, a: Attempt, presented: Approval) {
    match presented
    case Signed(r) =>
      && g.verifier.Some? && g.verifier.value.Validates(r, a.digest, g.contract.digest, a.executor, a.now)
      && ConsumptionOf(r) !in consumed
    case Unsigned(intent) => g.verifier.None? && intent == a.digest
  }

  /** The first approval that settles the matter. */
  function Settling(g: Rules, consumed: set<Consumption>, a: Attempt, approvals: seq<Approval>): Option<Approval> {
    if approvals == [] then None
    else if Usable(g, consumed, a, approvals[0]) then Some(approvals[0])
    else Settling(g, consumed, a, approvals[1..])
  }

  /** The attempt gets as far as its approvals. */
  predicate Arguable(g: Rules, a: Attempt) {
    a.admissible && a.intent.tool !in g.contract.forbidden && Authorised(g.contract.rules, a.intent)
  }

  /** The receipt an attempt consumes, if it comes to that. */
  function Consumes(g: Rules, s: Holdings, a: Attempt): Option<Consumption> {
    if Arguable(g, a) && ApprovalRequired(g.contract, a) then
      var settling := Settling(g, s.consumed, a, a.approvals);
      if settling.Some? && settling.value.Signed? then Some(ConsumptionOf(settling.value.receipt)) else None
    else None
  }

  predicate Permitted(g: Rules, s: Holdings, a: Attempt) {
    Arguable(g, a) && (ApprovalRequired(g.contract, a) ==> Settling(g, s.consumed, a, a.approvals).Some?)
  }

  function KeyOf(c: Contract, r: ActionRule): Key {
    Key(c.digest, r.tool, r.effect, r.prefix)
  }

  /** The counters of the matching rules, in rule order. */
  function UsesOf(c: Contract, rules: seq<ActionRule>, intent: Intent): seq<Use> {
    if rules == [] then []
    else
      var rest := UsesOf(c, rules[..|rules| - 1], intent);
      var r := rules[|rules| - 1];
      if Matches(r, intent) then rest + [Use(KeyOf(c, r), r.maxUses)] else rest
  }

  predicate OverBudget(g: Rules, s: Holdings, a: Attempt) {
    Exhausted(s.counts, UsesOf(g.contract, g.contract.rules, a.intent))
  }

  predicate Issues(g: Rules, s: Holdings, a: Attempt) {
    Permitted(g, s, a) && !OverBudget(g, s, a)
  }

  function AfterAttempt(g: Rules, s: Holdings, a: Attempt): Holdings {
    var taken := Consumes(g, s, a);
    Holdings(if Issues(g, s, a) then Bumped(s.counts, UsesOf(g.contract, g.contract.rules, a.intent)) else s.counts,
           if taken.Some? then s.consumed + {taken.value} else s.consumed)
  }

  class PolicyGate {
    const rules: Rules
    const store: InMemoryPolicyUseCounterStore
    const receipts: ApprovalConsumptionStore

    constructor (rules: Rules, store: InMemoryPolicyUseCounterStore, receipts: ApprovalConsumptionStore)
      ensures this.rules == rules && this.store == store && this.receipts == receipts
    {
      this.rules, this.store, this.receipts := rules, store, receipts;
    }

    ghost function Now(): Holdings
      reads store, receipts
    {
      Holdings(store.counts, receipts.consumed)
    }

    /** Tries the approvals in turn; validating a receipt consumes it. */
    method IsApproved(a: Attempt) returns (approved: bool)
      modifies receipts
      ensures var settling := Settling(rules, old(receipts.consumed), a, a.approvals);
              && (approved <==> settling.Some?)
              && receipts.consumed == old(receipts.consumed)
                   + (if settling.Some? && settling.value.Signed? then {ConsumptionOf(settling.value.receipt)} else {})
    {
      for i := 0 to |a.approvals|
        invariant receipts.consumed == old(receipts.consumed)
        invariant Settling(rules, receipts.consumed, a, a.approvals) == Settling(rules, receipts.consumed, a, a.approvals[i..])
      {
        match a.approvals[i] {
          case Signed(receipt) =>
            if rules.verifier.Some? && rules.verifier.value.Validates(receipt, a.digest, rules.contract.digest, a.executor, a.now) {
              var first := receipts.Consume(ConsumptionOf(receipt));
              if first { return true; }
              assert receipts.consumed == old(receipts.consumed);
            }
          case Unsigned(intent) =>
            if rules.verifier.None? && intent == a.digest { return true; }
        }
      }
      return false;
    }

    /** A capability is issued exactly for what the rules permit within budget; otherwise no counter
        changes, but a receipt may have been consumed. */
    method Authorize(a: Attempt) returns (issued: bool)
      modifies store, receipts
      ensures issued <==> Issues(rules, old(Now()), a)
      ensures Now() == AfterAttempt(rules, old(Now()), a)
    {
      var contract := rules.contract;
      if !Arguable(rules, a) { return false; }
      if ApprovalRequired(contract, a) {
        var approved := IsApproved(a);
        if !approved { return false; }
      }
      var uses: seq<Use> := [];
      for i := 0 to |contract.rules|
        invariant uses == UsesOf(contract, contract.rules[..i], a.intent)
      {
        assert contract.rules[..i + 1][..i] == contract.rules[..i];
        var rule := contract.rules[i];
        if Matches(rule, a.intent) { uses := uses + [Use(KeyOf(contract, rule), rule.maxUses)]; }
      }
      assert contract.rules[..|contract.rules|] == contract.rules;
      issued := store.Consume(uses);
    }
  }

  // ---- budgets over every sequence of attempts ----

  function HoldingsAfter(g: Rules, attempts: seq<Attempt>): Holdings {
    if attempts == [] then FRESH
    else AfterAttempt(g, HoldingsAfter(g, attempts[..|attempts| - 1]), attempts[|attempts| - 1])
  }

  /** How many of the attempts were issued a capability under a rule. */
  function IssuedUnder(g: Rules, attempts: seq<Attempt>, r: ActionRule): nat {
    if attempts == [] then 0
    else
      var front, a := attempts[..|attempts| - 1], attempts[|attempts| - 1];
      IssuedUnder(g, front, r) + if Issues(g, HoldingsAfter(g, front), a) && Matches(r, a.intent) then 1 else 0
  }

  lemma {:induction false} UseListed(c: Contract, rules: seq<ActionRule>, intent: Intent, r: ActionRule)
    requires r in rules && Matches(r, intent)
    ensures Use(KeyOf(c, r), r.maxUses) in UsesOf(c, rules, intent)
  {
    assert rules == rules[..|rules| - 1] + [rules[|rules| - 1]];
    if rules[|rules| - 1] != r {
      UseListed(c, rules[..|rules| - 1], intent, r);
    }
  }

  /** No counter falls, and a listed one rises. */
  lemma {:induction false} BumpedRises(counts: Counts, uses: seq<Use>, key: Key)
    ensures Count(Bumped(counts, uses), key) >= Count(counts, key)
    ensures (exists u :: u in uses && u.key == key) ==> Count(Bumped(counts, uses), key) > Count(counts, key)
  {
    if uses != [] {
      BumpedRises(counts, uses[..|uses| - 1], key);
      assert uses == uses[..|uses| - 1] + [uses[|uses| - 1]];
    }
  }

  lemma {:induction false} CountCovers(g: Rules, attempts: seq<Attempt>, r: ActionRule)
    requires r in g.contract.rules
    ensures IssuedUnder(g, attempts, r) <= Count(HoldingsAfter(g, attempts).counts, KeyOf(g.contract, r))
  {
    hide Issues, Bumped, UsesOf, Consumes;
    if attempts != [] {
      var c, front, a := g.contract, attempts[..|attempts| - 1], attempts[|attempts| - 1];
      CountCovers(g, front, r);
      BumpedRises(HoldingsAfter(g, front).counts, UsesOf(c, c.rules, a.intent), KeyOf(c, r));
      if Matches(r, a.intent) {
        UseListed(c, c.rules, a.intent, r);
        assert Use(KeyOf(c, r), r.maxUses).key == KeyOf(c, r);
      }
    }
  }

  /** Over any sequence of attempts, a rule limited to k uses covers at most k issued capabilities. */
  lemma {:induction false} BudgetBounds(g: Rules, attempts: seq<Attempt>, r: ActionRule)
    requires r in g.contract.rules && r.maxUses.Some? && r.maxUses.value >= 1
    ensures IssuedUnder(g, attempts, r) <= r.maxUses.value
  {
    hide Bumped, UsesOf, Permitted, Matches, Consumes;
    if attempts != [] {
      var c, front, a := g.contract, attempts[..|attempts| - 1], attempts[|attempts| - 1];
      BudgetBounds(g, front, r);
      CountCovers(g, front, r);
      if Matches(r, a.intent) {
        UseListed(c, c.rules, a.intent, r);
        var u := Use(KeyOf(c, r), r.maxUses);
        assert u.limit == r.maxUses && u.key == KeyOf(c, r);
      }
    }
  }

  /** The two stores agree on every attempt under a contract whose rules are well formed. */
  lemma {:induction false} LimitsPositive(c: Contract, rules: seq<ActionRule>, intent: Intent)
    requires forall r :: r in rules ==> r.WellFormed()
    ensures Positive(UsesOf(c, rules, intent))
  {
    hide Matches;
    if rules != [] {
      var front, last := rules[..|rules| - 1], rules[|rules| - 1];
      assert last in rules && last.WellFormed();
      LimitsPositive(c, front, intent);
    }
  }

  // ---- approvals over every sequence of attempts ----

  /** Capabilities issued on the strength of a receipt, or of any receipt where none is named. */
  function IssuedOn(g: Rules, attempts: seq<Attempt>, key: Option<Consumption>): nat {
    if attempts == [] then 0
    else
      var front, a := attempts[..|attempts| - 1], attempts[|attempts| - 1];
      var taken := Consumes(g, HoldingsAfter(g, front), a);
      IssuedOn(g, front, key)
      + if taken.Some? && (key.None? || key == taken) && Issues(g, HoldingsAfter(g, front), a) then 1 else 0
  }

  /** Attempts that consumed it although a use budget was already exhausted. */
  function LostOn(g: Rules, attempts: seq<Attempt>, key: Option<Consumption>): nat {
    if attempts == [] then 0
    else
      var front, a := attempts[..|attempts| - 1], attempts[|attempts| - 1];
      var taken := Consumes(g, HoldingsAfter(g, front), a);
      LostOn(g, front, key)
      + if taken.Some? && (key.None? || key == taken) && OverBudget(g, HoldingsAfter(g, front), a) then 1 else 0
  }

  lemma {:induction false} SettlingUsable(g: Rules, consumed: set<Consumption>, a: Attempt, approvals: seq<Approval>)
    requires Settling(g, consumed, a, approvals).Some?
    ensures Usable(g, consumed, a, Settling(g, consumed, a, approvals).value)
  {
    hide Usable;
    if !Usable(g, consumed, a, approvals[0]) { SettlingUsable(g, consumed, a, approvals[1..]); }
  }

  /** What an attempt consumes was not consumed before, and it yields a capability unless a budget
      is exhausted. */
  lemma ConsumesFresh(g: Rules, s: Holdings, a: Attempt)
    requires Consumes(g, s, a).Some?
    ensures Consumes(g, s, a).value !in s.consumed
    ensures Issues(g, s, a) <==> !OverBudget(g, s, a)
  {
    hide OverBudget, Arguable, ApprovalRequired;
    SettlingUsable(g, s.consumed, a, a.approvals);
  }

  /** Over any sequence of attempts, each consumed receipt is accounted for once: it authorised one
      capability, or it was lost to an exhausted budget.  None authorises two. */
  lemma {:induction false} ApprovalSpentOnce(g: Rules, attempts: seq<Attempt>, key: Consumption)
    ensures IssuedOn(g, attempts, Some(key)) + LostOn(g, attempts, Some(key))
              == if key in HoldingsAfter(g, attempts).consumed then 1 else 0
  {
    hide Consumes, Issues, OverBudget;
    if attempts != [] {
      var front, a := attempts[..|attempts| - 1], attempts[|attempts| - 1];
      ApprovalSpentOnce(g, front, key);
      if Consumes(g, HoldingsAfter(g, front), a).Some? { ConsumesFresh(g, HoldingsAfter(g, front), a); }
    }
  }

  /** The receipts consumed are as many as the capabilities issued on them and the receipts lost. */
  lemma {:induction false} ApprovalsConserved(g: Rules, attempts: seq<Attempt>)
    ensures IssuedOn(g, attempts, None) + LostOn(g, attempts, None) == |HoldingsAfter(g, attempts).consumed|
  {
    hide Consumes, Issues, OverBudget;
    if attempts != [] {
      var front, a := attempts[..|attempts| - 1], attempts[|attempts| - 1];
      ApprovalsConserved(g, front);
      if Consumes(g, HoldingsAfter(g, front), a).Some? { ConsumesFresh(g, HoldingsAfter(g, front), a); }
    }
  }

  /** Where a verifier is configured, no capability that needs an approval is issued without one. */
  lemma IssuedConsumes(g: Rules, s: Holdings, a: Attempt)
    requires g.verifier.Some? && Issues(g, s, a) && ApprovalRequired(g.contract, a)
    ensures Consumes(g, s, a).Some?
  {
    hide OverBudget, Arguable, ApprovalRequired;
    SettlingUsable(g, s.consumed, a, a.approvals);
  }

  const DELETION: ActionRule := ActionRule("remove", Delete, "/", false, Some(1), map[], false)
  const GATE: Rules := Rules(Contract("contract", [DELETION], []),
                             Some(ApprovalVerifier({"key"}, map[], {"alice"}, 10, 10, 0, receipt => true)))
  const REMOVAL: Intent := Intent("remove", Delete, "/", map[])

  function ReceiptFor(approval: string): Receipt {
    Receipt("key", approval, "alice", "intent", "contract", "executor", 0, 5, "")
  }

  /** The same removal, presented with a receipt of its own each time. */
  function Removal(approval: string): Attempt {
    Attempt(REMOVAL, "intent", false, true, "executor", [Signed(ReceiptFor(approval))], 1)
  }

  lemma RemovalArguable(approval: string)
    ensures Arguable(GATE, Removal(approval)) && ApprovalRequired(GATE.contract, Removal(approval))
    ensures UsesOf(GATE.contract, GATE.contract.rules, REMOVAL) == [Use(KeyOf(GATE.contract, DELETION), Some(1))]
  {
    assert Matches(DELETION, REMOVAL) && DELETION in GATE.contract.rules;
    assert GATE.contract.rules[..0] == [];
  }

  lemma RemovalConsumes(s: Holdings, approval: string)
    requires ConsumptionOf(ReceiptFor(approval)) !in s.consumed
    ensures Consumes(GATE, s, Removal(approval)) == Some(ConsumptionOf(ReceiptFor(approval)))
    ensures OverBudget(GATE, s, Removal(approval)) <==> Count(s.counts, KeyOf(GATE.contract, DELETION)) >= 1
  {
    hide Arguable, ApprovalRequired, UsesOf;
    RemovalArguable(approval);
    assert GATE.verifier.value.Validates(ReceiptFor(approval), "intent", "contract", "executor", 1);
  }

  /** Receipts are really lost: the second approval of an action permitted once is consumed and no
      capability is issued on it. */
  lemma ReceiptLost() returns (attempts: seq<Attempt>, key: Consumption)
    ensures DELETION.WellFormed() && key in HoldingsAfter(GATE, attempts).consumed
    ensures LostOn(GATE, attempts, Some(key)) == 1 && IssuedOn(GATE, attempts, Some(key)) == 0
  {
    hide Consumes, Issues, OverBudget, UsesOf;
    assert 'r' in DELETION.tool;
    attempts, key := [Removal("a"), Removal("b")], ConsumptionOf(ReceiptFor("b"));
    assert attempts[..1] == [Removal("a")] && [Removal("a")][..0] == [];
    assert HoldingsAfter(GATE, []) == FRESH;
    var s := HoldingsAfter(GATE, [Removal("a")]);
    assert "a"[0] != "b"[0];
    RemovalArguable("a");
    RemovalConsumes(FRESH, "a");
    ConsumesFresh(GATE, FRESH, Removal("a"));
    var uses := [Use(KeyOf(GATE.contract, DELETION), Some(1))];
    assert s == AfterAttempt(GATE, FRESH, Removal("a"));
    BumpedRises(map[], uses, KeyOf(GATE.contract, DELETION));
    assert uses[0].key == KeyOf(GATE.contract, DELETION);
    RemovalConsumes(s, "b");
    assert OverBudget(GATE, s, Removal("b"));
    ConsumesFresh(GATE, s, Removal("b"));
    ApprovalSpentOnce(GATE, attempts, key);
  }
}
