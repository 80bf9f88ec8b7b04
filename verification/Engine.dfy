/** Evaluating a policy: rule order, short-circuit on the first denial, and compensation (engine.ts). */
module Engine {
  import opened Text
  import opened QuotaStores
  import opened QuotaRules

  datatype Cost = Pure | Store | Network
  {
    function Rank(): nat {
      match this case Pure => 0 case Store => 1 case Network => 2
    }
  }

  /** A rule without side effects, or a reserving quota. */
  datatype Rule = Check(name: string, cost: Cost) | Reserve(quota: Quota)
  {
    function Tier(): Cost {
      if Check? then cost else Store
    }

    function Name(): string {
      if Check? then name else quota.name
    }
  }

  /** What the world answers to one rule: a check's verdict (`None` throws), a quota's store call. */
  datatype World = World(verdict: Option<Decision>, link: Link)

  // ---------------------------------------------------------------------------------------------
  // Rule order

  function Insert(rule: Rule, sorted: seq<Rule>): seq<Rule> {
    if sorted == [] || rule.Tier().Rank() <= sorted[0].Tier().Rank() then [rule] + sorted
    else [sorted[0]] + Insert(rule, sorted[1..])
  }

  /** Sort by cost, ties by position. */
  function OrderRules(rules: seq<Rule>): seq<Rule> {
    if rules == [] then [] else Insert(rules[0], OrderRules(rules[1..]))
  }

  /** A check belongs where its declared cost puts it, a quota with the store checks. */
  predicate Belongs(rule: Rule, tier: Cost) {
    match rule
    case Check(_, cost) => cost == tier
    case Reserve(_) => tier == Store
  }

  function OfTier(rules: seq<Rule>, tier: Cost): seq<Rule> {
    if rules == [] then []
    else (if Belongs(rules[0], tier) then [rules[0]] else []) + OfTier(rules[1..], tier)
  }

  /** A rule goes in front of the rules of its own tier and behind every cheaper one. */
  lemma {:induction false} InsertBehind(rule: Rule, cheaper: seq<Rule>, rest: seq<Rule>)
    requires forall i | 0 <= i < |cheaper| :: cheaper[i].Tier().Rank() < rule.Tier().Rank()
    requires rest != [] ==> rule.Tier().Rank() <= rest[0].Tier().Rank()
    ensures Insert(rule, cheaper + rest) == cheaper + ([rule] + rest)
  {
    if cheaper == [] {
      assert cheaper + rest == rest;
    } else {
      InsertBehind(rule, cheaper[1..], rest);
      assert (cheaper + rest)[1..] == cheaper[1..] + rest;
    }
  }

  lemma InsertPure(rule: Rule, p: seq<Rule>, s: seq<Rule>, n: seq<Rule>)
    requires rule.Tier() == Pure
    ensures Insert(rule, p + s + n) == ([rule] + p) + s + n
  {
    var all := p + s + n;
    assert Insert(rule, all) == [rule] + all;
    assert ([rule] + p) + s + n == [rule] + all;
  }

  lemma Assoc<T>(a: seq<T>, b: seq<T>, c: seq<T>)
    ensures a + b + c == a + (b + c)
  {
  }

  lemma InsertStore(rule: Rule, p: seq<Rule>, s: seq<Rule>, n: seq<Rule>)
    requires rule.Tier() == Store
    requires forall i | 0 <= i < |p| :: p[i].Tier() == Pure
    requires forall i | 0 <= i < |s| :: s[i].Tier() == Store
    requires forall i | 0 <= i < |n| :: n[i].Tier() == Network
    ensures Insert(rule, p + s + n) == p + ([rule] + s) + n
  {
    Assoc(p, s, n);
    InsertBehind(rule, p, s + n);
    Assoc([rule], s, n);
    Assoc(p, [rule] + s, n);
  }

  lemma InsertNetwork(rule: Rule, p: seq<Rule>, s: seq<Rule>, n: seq<Rule>)
    requires rule.Tier() == Network
    requires forall i | 0 <= i < |p| :: p[i].Tier() == Pure
    requires forall i | 0 <= i < |s| :: s[i].Tier() == Store
    requires forall i | 0 <= i < |n| :: n[i].Tier() == Network
    ensures Insert(rule, p + s + n) == p + s + ([rule] + n)
  {
    InsertBehind(rule, p + s, n);
  }

  lemma {:induction false} OfTierHolds(rules: seq<Rule>, tier: Cost)
    ensures forall i | 0 <= i < |OfTier(rules, tier)| :: OfTier(rules, tier)[i].Tier() == tier
  {
    if rules != [] {
      OfTierHolds(rules[1..], tier);
    }
  }

  /** The sort is stable: the pure checks, then store checks and quotas, then network checks, each in written order. */
  lemma {:induction false} OrderIsByTier(rules: seq<Rule>)
    ensures OrderRules(rules) == OfTier(rules, Pure) + OfTier(rules, Store) + OfTier(rules, Network)
  {
    if rules != [] {
      var rest := rules[1..];
      OrderIsByTier(rest);
      OfTierHolds(rest, Pure);
      OfTierHolds(rest, Store);
      OfTierHolds(rest, Network);
      match rules[0].Tier() {
        case Pure => InsertPure(rules[0], OfTier(rest, Pure), OfTier(rest, Store), OfTier(rest, Network));
        case Store => InsertStore(rules[0], OfTier(rest, Pure), OfTier(rest, Store), OfTier(rest, Network));
        case Network => InsertNetwork(rules[0], OfTier(rest, Pure), OfTier(rest, Store), OfTier(rest, Network));
      }
      OfTierStep(rules, Pure);
      OfTierStep(rules, Store);
      OfTierStep(rules, Network);
    }
  }

  lemma OfTierStep(rules: seq<Rule>, tier: Cost)
    requires rules != []
    ensures OfTier(rules, tier) == if Belongs(rules[0], tier) then [rules[0]] + OfTier(rules[1..], tier) else OfTier(rules[1..], tier)
  {
  }

  lemma {:induction false} InsertKeepsRules(rule: Rule, sorted: seq<Rule>)
    ensures multiset(Insert(rule, sorted)) == multiset{rule} + multiset(sorted)
  {
    if sorted == [] || rule.Tier().Rank() <= sorted[0].Tier().Rank() {
    } else {
      InsertKeepsRules(rule, sorted[1..]);
      assert sorted == [sorted[0]] + sorted[1..];
    }
  }

  lemma {:induction false} OrderKeepsRules(rules: seq<Rule>)
    ensures multiset(OrderRules(rules)) == multiset(rules)
  {
    if rules != [] {
      OrderKeepsRules(rules[1..]);
      InsertKeepsRules(rules[0], OrderRules(rules[1..]));
      assert rules == [rules[0]] + rules[1..];
    }
  }

  // ---------------------------------------------------------------------------------------------
  // Evaluation as a function of the counters and of what the world answers

  function RuleVerdict(rule: Rule, counters: Counters, ctx: Context, world: World): Decision {
    var verdict := if rule.Check? then world.verdict else Verdict(rule.quota, counters, ctx, world.link);
    if verdict.None? then Deny(rule.Name(), RuleError) else verdict.value
  }

  function AfterRule(rule: Rule, counters: Counters, ctx: Context, world: World): Counters {
    if rule.Check? then counters else AfterEvaluate(rule.quota, counters, ctx, world.link)
  }

  datatype Walk = Walk(decision: Decision, evaluated: nat, counters: Counters)

  /** Rules `from` onwards, up to and including the first denial. */
  function WalkRules(rules: seq<Rule>, from: nat, counters: Counters, ctx: Context, world: seq<World>): (w: Walk)
    requires from <= |rules| <= |world|
    ensures from <= w.evaluated <= |rules|
    ensures w.decision.Deny? ==> from < w.evaluated
    ensures w.decision.Allow? ==> w.evaluated == |rules|
    decreases |rules| - from
  {
    if from == |rules| then Walk(Allow, from, counters)
    else
      var verdict := RuleVerdict(rules[from], counters, ctx, world[from]);
      var counters' := AfterRule(rules[from], counters, ctx, world[from]);
      if verdict.Deny? then Walk(verdict, from + 1, counters') else WalkRules(rules, from + 1, counters', ctx, world)
  }

  function Reserving(rules: seq<Rule>): seq<Quota> {
    if rules == [] then []
    else (if rules[0].Reserve? then [rules[0].quota] else []) + Reserving(rules[1..])
  }

  lemma ReservingFirst(rule: Rule, rules: seq<Rule>)
    ensures Reserving([rule] + rules) == (if rule.Reserve? then [rule.quota] else []) + Reserving(rules)
  {
    assert ([rule] + rules)[1..] == rules;
  }

  lemma {:induction false} ReservingAppend(a: seq<Rule>, b: seq<Rule>)
    ensures Reserving(a + b) == Reserving(a) + Reserving(b)
  {
    if a == [] {
      assert a + b == b;
    } else {
      var tail := a[1..];
      assert a == [a[0]] + tail && a + b == [a[0]] + (tail + b);
      ReservingAppend(tail, b);
      ReservingFirst(a[0], tail + b);
      ReservingFirst(a[0], tail);
    }
  }

  function ReleaseAll(quotas: seq<Quota>, counters: Counters, ctx: Context, links: seq<Link>): Counters
    requires |quotas| <= |links|
  {
    if quotas == [] then counters
    else ReleaseAll(quotas[1..], AfterRelease(quotas[0], counters, ctx, links[0]), ctx, links[1..])
  }

  /** The counters an evaluation leaves: reservations stand when it allows, and are released when it denies. */
  function AfterPolicy(rules: seq<Rule>, counters: Counters, ctx: Context, world: seq<World>, links: seq<Link>): Counters
    requires |rules| <= |world| && |rules| <= |links|
  {
    var ordered := OrderRules(rules);
    OrderKeepsLength(rules);
    var walk := WalkRules(ordered, 0, counters, ctx, world);
    if walk.decision.Allow? then walk.counters
    else
      ReservingShorter(ordered[..walk.evaluated - 1]);
      ReleaseAll(Reserving(ordered[..walk.evaluated - 1]), walk.counters, ctx, links)
  }

  lemma OrderKeepsLength(rules: seq<Rule>)
    ensures |OrderRules(rules)| == |rules|
  {
    OrderKeepsRules(rules);
    assert |multiset(OrderRules(rules))| == |multiset(rules)|;
  }

  lemma {:induction false} ReservingShorter(rules: seq<Rule>)
    ensures |Reserving(rules)| <= |rules|
  {
    if rules != [] {
      ReservingShorter(rules[1..]);
    }
  }

  datatype PolicyEvaluation = PolicyEvaluation(decision: Decision, evaluated: seq<string>)

  function Names(rules: seq<Rule>): seq<string> {
    seq(|rules|, i requires 0 <= i < |rules| => rules[i].Name())
  }

  /** A rule of a loaded policy: quotas are objects over the deployment's one store. */
  datatype LoadedRule = LoadedCheck(name: string, cost: Cost) | LoadedQuota(rule: QuotaRule)
  {
    function Erase(): Rule {
      if LoadedCheck? then Check(name, cost) else Reserve(rule.options)
    }
  }

  function EraseAll(rules: seq<LoadedRule>): seq<Rule> {
    seq(|rules|, i requires 0 <= i < |rules| => rules[i].Erase())
  }

  function InsertLoaded(rule: LoadedRule, sorted: seq<LoadedRule>): seq<LoadedRule> {
    if sorted == [] || rule.Erase().Tier().Rank() <= sorted[0].Erase().Tier().Rank() then [rule] + sorted
    else [sorted[0]] + InsertLoaded(rule, sorted[1..])
  }

  function OrderLoaded(rules: seq<LoadedRule>): seq<LoadedRule> {
    if rules == [] then [] else InsertLoaded(rules[0], OrderLoaded(rules[1..]))
  }

  lemma {:induction false} EraseInsert(rule: LoadedRule, sorted: seq<LoadedRule>)
    ensures EraseAll(InsertLoaded(rule, sorted)) == Insert(rule.Erase(), EraseAll(sorted))
    ensures forall r <- InsertLoaded(rule, sorted) :: r == rule || r in sorted
  {
    if sorted == [] || rule.Erase().Tier().Rank() <= sorted[0].Erase().Tier().Rank() {
    } else {
      EraseInsert(rule, sorted[1..]);
      assert EraseAll(sorted)[1..] == EraseAll(sorted[1..]);
    }
  }

  lemma {:induction false} EraseOrder(rules: seq<LoadedRule>)
    ensures EraseAll(OrderLoaded(rules)) == OrderRules(EraseAll(rules))
    ensures forall r <- OrderLoaded(rules) :: r in rules
  {
    if rules != [] {
      EraseOrder(rules[1..]);
      EraseInsert(rules[0], OrderLoaded(rules[1..]));
      assert EraseAll(rules)[1..] == EraseAll(rules[1..]);
    }
  }

  lemma NextRule(rules: seq<Rule>, i: nat)
    requires i < |rules|
    ensures Names(rules[..i + 1]) == Names(rules[..i]) + [rules[i].Name()]
    ensures Reserving(rules[..i + 1]) == Reserving(rules[..i]) + (if rules[i].Reserve? then [rules[i].quota] else [])
  {
    assert rules[..i + 1] == rules[..i] + [rules[i]];
    ReservingAppend(rules[..i], [rules[i]]);
  }

  class PolicyEngine {

    constructor () {
    }

    method Evaluate(store: InMemoryQuotaStore, rules: seq<LoadedRule>, ctx: Context, world: seq<World>, links: seq<Link>)
      returns (evaluation: PolicyEvaluation)
      requires forall r <- rules :: r.LoadedQuota? ==> r.rule.store == store
      requires |rules| <= |world| && |rules| <= |links|
      modifies store
      ensures var ordered := OrderRules(EraseAll(rules));
              |ordered| == |rules| &&
              var walk := WalkRules(ordered, 0, old(store.counters), ctx, world);
              && evaluation.decision == walk.decision
              && |evaluation.evaluated| == walk.evaluated
              && forall i | 0 <= i < walk.evaluated ::
                   evaluation.evaluated[i] == match ordered[i] case Check(name, _) => name case Reserve(q) => q.name
      ensures store.counters == AfterPolicy(EraseAll(rules), old(store.counters), ctx, world, links)
    {
      var ordered := OrderLoaded(rules);
      EraseOrder(rules);
      OrderKeepsLength(EraseAll(rules));
      var decision, evaluated, reserved := EvaluateInOrder(store, ordered, ctx, world);
      if decision.Deny? && |reserved| > 0 {
        ReservingShorter(EraseAll(ordered)[..|evaluated| - 1]);
        ReleaseEach(store, reserved, ctx, links);
      }
      evaluation := PolicyEvaluation(decision, evaluated);
    }

    /** The loop: every rule in turn until one denies, keeping the names seen and the reservations made. */
    method EvaluateInOrder(store: InMemoryQuotaStore, ordered: seq<LoadedRule>, ctx: Context, world: seq<World>)
      returns (decision: Decision, evaluated: seq<string>, reserved: seq<QuotaRule>)
      requires forall r <- ordered :: r.LoadedQuota? ==> r.rule.store == store
      requires |ordered| <= |world|
      modifies store
      ensures |evaluated| <= |ordered| && WalkRules(EraseAll(ordered), 0, old(store.counters), ctx, world) == Walk(decision, |evaluated|, store.counters)
      ensures evaluated == Names(EraseAll(ordered)[..|evaluated|])
      ensures forall q <- reserved :: q.store == store
      ensures decision.Deny? ==> |evaluated| > 0 && OptionsOf(reserved) == Reserving(EraseAll(ordered)[..|evaluated| - 1])
    {
      ghost var plan := EraseAll(ordered);
      ghost var walk := WalkRules(plan, 0, store.counters, ctx, world);
      decision, evaluated, reserved := Allow, [], [];
      var i := 0;
      while i < |ordered| && decision.Allow?
        invariant 0 <= i <= |ordered| == |plan|
        invariant evaluated == Names(plan[..i])
        invariant forall q <- reserved :: q.store == store
        invariant decision.Allow? ==> walk == WalkRules(plan, i, store.counters, ctx, world)
        invariant decision.Deny? ==> i > 0 && walk == Walk(decision, i, store.counters)
        invariant OptionsOf(reserved) == Reserving(plan[..if decision.Allow? then i else i - 1])
        decreases |ordered| - i
      {
        var loaded := ordered[i];
        assert plan[i] == loaded.Erase();
        evaluated := evaluated + [loaded.Erase().Name()];
        NextRule(plan, i);
        var outcome := EvaluateRule(store, loaded, ctx, world[i]);
        if outcome.Deny? {
          decision := outcome;
        } else if loaded.LoadedQuota? {
          OptionsGrow(reserved, loaded.rule);
          reserved := reserved + [loaded.rule];
        }
        i := i + 1;
      }
    }

    /** Fail closed: a rule that throws denies. */
    method EvaluateRule(store: InMemoryQuotaStore, loaded: LoadedRule, ctx: Context, world: World)
      returns (outcome: Decision)
      requires loaded.LoadedQuota? ==> loaded.rule.store == store
      modifies store
      ensures outcome == RuleVerdict(loaded.Erase(), old(store.counters), ctx, world)
      ensures store.counters == AfterRule(loaded.Erase(), old(store.counters), ctx, world)
    {
      var verdict := world.verdict;
      if loaded.LoadedQuota? {
        verdict := loaded.rule.Evaluate(ctx, world.link);
      }
      outcome := if verdict.None? then Deny(loaded.Erase().Name(), RuleError) else verdict.value;
    }

    /** Every release is tried, whatever happened to the ones before it. */
    method ReleaseEach(store: InMemoryQuotaStore, rules: seq<QuotaRule>, ctx: Context, links: seq<Link>)
      requires forall q <- rules :: q.store == store
      requires |rules| <= |links|
      modifies store
      ensures store.counters == ReleaseAll(OptionsOf(rules), old(store.counters), ctx, links)
    {
      for i := 0 to |rules|
        invariant ReleaseAll(OptionsOf(rules), old(store.counters), ctx, links)
                  == ReleaseAll(OptionsOf(rules)[i..], store.counters, ctx, links[i..])
      {
        rules[i].Release(ctx, links[i]);
        assert OptionsOf(rules)[i..][1..] == OptionsOf(rules)[i + 1..] && links[i..][1..] == links[i + 1..];
      }
    }
  }

  function OptionsOf(rules: seq<QuotaRule>): seq<Quota> {
    seq(|rules|, i requires 0 <= i < |rules| => rules[i].options)
  }

  lemma OptionsGrow(rules: seq<QuotaRule>, rule: QuotaRule)
    ensures OptionsOf(rules + [rule]) == OptionsOf(rules) + [rule.options]
  {
  }
}
