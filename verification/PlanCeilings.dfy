/** Plan ceilings appended to every policy of a tenant (planCeilings.ts), and what they bound. */
module PlanCeilings {
  import opened Text
  import opened Windows
  import opened QuotaStores
  import opened QuotaRules
  import opened Engine
  import opened Budget
  import opened BudgetSafety
  import opened SpendCap

  const DAY_SECONDS := 86_400

  datatype Plan = Plan(id: string, operationsPerDay: Option<nat>, weiPerDay: Option<nat>, chainIds: Option<seq<nat>>)

  datatype PlanCatalogue = PlanCatalogue(plans: map<string, Plan>, defaultPlanId: Option<string>)
  {
    function Find(id: Option<string>): Option<Plan> {
      if id.Some? && id.value in plans then Some(plans[id.value]) else None
    }
  }

  /** A plan that is no longer configured falls back to the default plan, not to no ceiling. */
  function PlanFor(catalogue: PlanCatalogue, planIds: map<string, string>, tenant: string): Option<Plan> {
    var named := catalogue.Find(if tenant in planIds then Some(planIds[tenant]) else None);
    if named.Some? then named else catalogue.Find(catalogue.defaultPlanId)
  }

  function OperationsCeiling(limit: nat, tenant: string): Quota {
    QuotaOptions("platform:operations-per-day", Global, Operations, limit, DAY_SECONDS, DenyMissing, tenant)
  }

  function WeiCeiling(limit: nat, tenant: string): Quota {
    QuotaOptions("platform:wei-per-day", Global, Wei, limit, DAY_SECONDS, DenyMissing, tenant)
  }

  function CeilingRules(plan: Plan, tenant: string): seq<Rule> {
    (if plan.chainIds.Some? then [Check("chain-enabled", Pure)] else [])
    + (if plan.operationsPerDay.Some? then [Reserve(OperationsCeiling(plan.operationsPerDay.value, tenant))] else [])
    + (if plan.weiPerDay.Some? then [Reserve(WeiCeiling(plan.weiPerDay.value, tenant))] else [])
  }

  /** The policies a reload installs: what each tenant wrote, then its plan's ceilings. */
  function Load(written: Policies, catalogue: PlanCatalogue, planIds: map<string, string>): Policies {
    if |catalogue.plans| == 0 then written
    else map key | key in written ::
           match PlanFor(catalogue, planIds, key.tenant)
           case None => written[key]
           case Some(plan) => written[key] + CeilingRules(plan, key.tenant)
  }

  function InOrder(policies: Policies): Policies {
    map key | key in policies :: OrderRules(policies[key])
  }

  /** The plan that holds for a tenant: the one it is on while that is configured, the default plan otherwise. */
  predicate Binds(catalogue: PlanCatalogue, planIds: map<string, string>, tenant: string, plan: Plan) {
    if tenant in planIds && planIds[tenant] in catalogue.plans then plan == catalogue.plans[planIds[tenant]]
    else catalogue.defaultPlanId.Some? && catalogue.defaultPlanId.value in catalogue.plans
         && plan == catalogue.plans[catalogue.defaultPlanId.value]
  }

  lemma BindingPlan(catalogue: PlanCatalogue, planIds: map<string, string>, tenant: string, plan: Plan)
    ensures Binds(catalogue, planIds, tenant, plan) <==> PlanFor(catalogue, planIds, tenant) == Some(plan)
  {
  }

  function One(isSet: bool): nat {
    if isSet then 1 else 0
  }

  /** The rules written come first; behind them stands one rule for each limit that the plan sets, and nothing else. */
  predicate Appends(written: seq<Rule>, loaded: seq<Rule>, plan: Plan, tenant: string) {
    && |loaded| == |written| + One(plan.chainIds.Some?) + One(plan.operationsPerDay.Some?) + One(plan.weiPerDay.Some?)
    && loaded[..|written|] == written
    && (plan.chainIds.Some? ==> Check("chain-enabled", Pure) in loaded[|written|..])
    && (plan.operationsPerDay.Some? ==>
          Reserve(QuotaOptions("platform:operations-per-day", Global, Operations, plan.operationsPerDay.value, 86_400, DenyMissing, tenant))
          in loaded[|written|..])
    && (plan.weiPerDay.Some? ==>
          Reserve(QuotaOptions("platform:wei-per-day", Global, Wei, plan.weiPerDay.value, 86_400, DenyMissing, tenant))
          in loaded[|written|..])
  }

  lemma AppendsCeilings(written: seq<Rule>, plan: Plan, tenant: string)
    ensures Appends(written, written + CeilingRules(plan, tenant), plan, tenant)
  {
    assert (written + CeilingRules(plan, tenant))[|written|..] == CeilingRules(plan, tenant);
  }

  /**
   * A reload appends to each policy the limits of the tenant's own plan while that is configured, of the default plan
   * when it is not or none is named, and leaves the policy as written when there is neither.
   */
  lemma LoadedExactly(written: Policies, catalogue: PlanCatalogue, planIds: map<string, string>, key: PolicyKey)
    requires key in written
    ensures Load(written, catalogue, planIds).Keys == written.Keys
    ensures var own := key.tenant in planIds && planIds[key.tenant] in catalogue.plans;
            var fallback := catalogue.defaultPlanId.Some? && catalogue.defaultPlanId.value in catalogue.plans;
            var loaded := Load(written, catalogue, planIds)[key];
            && (own ==> Appends(written[key], loaded, catalogue.plans[planIds[key.tenant]], key.tenant))
            && (!own && fallback ==> Appends(written[key], loaded, catalogue.plans[catalogue.defaultPlanId.value], key.tenant))
            && (!own && !fallback ==> loaded == written[key])
  {
    var plan := PlanFor(catalogue, planIds, key.tenant);
    if plan.Some? {
      AppendsCeilings(written[key], plan.value, key.tenant);
    }
  }

  lemma CeilingKept(written: Policies, catalogue: PlanCatalogue, planIds: map<string, string>, key: PolicyKey, plan: Plan, rule: Rule)
    requires key in written && Binds(catalogue, planIds, key.tenant, plan) && rule in CeilingRules(plan, key.tenant)
    ensures var env := InOrder(Load(written, catalogue, planIds));
            key in env && rule in env[key]
  {
    BindingPlan(catalogue, planIds, key.tenant, plan);
    var rules := Load(written, catalogue, planIds)[key];
    assert rule in rules;
    OrderKeepsRules(rules);
    assert rule in multiset(OrderRules(rules));
  }

  /** Every policy of a tenant evaluates each limit that its plan sets, whatever else the tenant wrote in it. */
  lemma CeilingInEveryPolicy(written: Policies, catalogue: PlanCatalogue, planIds: map<string, string>, key: PolicyKey, plan: Plan)
    requires key in written && Binds(catalogue, planIds, key.tenant, plan)
    ensures var env := InOrder(Load(written, catalogue, planIds));
            && key in env
            && (plan.chainIds.Some? ==> Check("chain-enabled", Pure) in env[key])
            && (plan.operationsPerDay.Some? ==>
                  Reserve(QuotaOptions("platform:operations-per-day", Global, Operations, plan.operationsPerDay.value, 86_400, DenyMissing, key.tenant))
                  in env[key])
            && (plan.weiPerDay.Some? ==>
                  Reserve(QuotaOptions("platform:wei-per-day", Global, Wei, plan.weiPerDay.value, 86_400, DenyMissing, key.tenant))
                  in env[key])
  {
    if plan.chainIds.Some? {
      CeilingKept(written, catalogue, planIds, key, plan, Check("chain-enabled", Pure));
    }
    if plan.operationsPerDay.Some? {
      CeilingKept(written, catalogue, planIds, key, plan, Reserve(OperationsCeiling(plan.operationsPerDay.value, key.tenant)));
    }
    if plan.weiPerDay.Some? {
      CeilingKept(written, catalogue, planIds, key, plan, Reserve(WeiCeiling(plan.weiPerDay.value, key.tenant)));
    }
  }

  /** The attestations recorded for a tenant on one day. */
  function AttestedOn(s: State, tenant: string, day: nat): set<nat> {
    set id | id in s.rows && id in s.requests && s.requests[id].policy.tenant == tenant
             && WindowStart(s.requests[id].ctx.now, DAY_SECONDS) == day
  }

  /** What the tenant's operations attested on one day actually cost. */
  function LandedOn(s: State, tenant: string, day: nat): map<nat, nat> {
    map id | id in s.landed && id in s.requests && s.requests[id].policy.tenant == tenant
             && WindowStart(s.requests[id].ctx.now, DAY_SECONDS) == day :: s.landed[id]
  }

  lemma {:induction false} SumOfOnes(m: map<nat, nat>)
    requires forall id <- m :: m[id] == 1
    ensures Sum(m) == |m|
    decreases |m|
  {
    if m != map[] {
      var id := Pick(m);
      RemoveShrinks(m, id);
      SumOfOnes(m - {id});
    }
  }

  lemma {:induction false} SumMonotone(part: map<nat, nat>, whole: map<nat, nat>)
    requires forall id <- part :: id in whole && part[id] == whole[id]
    ensures Sum(part) <= Sum(whole)
    decreases |part|
  {
    if part != map[] {
      var id := Pick(part);
      RemoveShrinks(part, id);
      SumRemove(whole, id);
      SumMonotone(part - {id}, whole - {id});
    }
  }

  /** A daily quota over the whole tenant, present in each of its policies. */
  ghost predicate Ceiling(env: Policies, tenant: string, q: Quota) {
    && q.subject == Global && q.windowSeconds == DAY_SECONDS
    && forall key <- env | key.tenant == tenant :: Reserve(q) in env[key]
  }

  lemma PlanGivesCeiling(written: Policies, catalogue: PlanCatalogue, planIds: map<string, string>, tenant: string, plan: Plan, q: Quota)
    requires Binds(catalogue, planIds, tenant, plan) && Reserve(q) in CeilingRules(plan, tenant)
    ensures Ceiling(InOrder(Load(written, catalogue, planIds)), tenant, q)
  {
    var env := InOrder(Load(written, catalogue, planIds));
    forall key <- env | key.tenant == tenant ensures Reserve(q) in env[key] {
      CeilingKept(written, catalogue, planIds, key, plan, Reserve(q));
    }
  }

  lemma TenantCharged(env: Policies, s: State, id: nat, tenant: string, q: Quota)
    requires Inv(env, s) && Ceiling(env, tenant, q) && id in s.requests && s.requests[id].policy.tenant == tenant
    ensures ChargedTo(env, s, id, q, Prefix(q), WindowStart(s.requests[id].ctx.now, DAY_SECONDS))
  {
    assert Covered(env, s, id);
  }

  /** The attestations of a tenant's day all count against its ceiling. */
  lemma DayIsCharged(env: Policies, s: State, tenant: string, q: Quota, day: nat)
    requires Inv(env, s) && Ceiling(env, tenant, q)
    ensures |AttestedOn(s, tenant, day)| <= Sum(Charged(env, s, Ones(s.rows), q, Prefix(q), day))
  {
    var charged := Charged(env, s, Ones(s.rows), q, Prefix(q), day);
    var mine := map id | id in AttestedOn(s, tenant, day) :: 1;
    forall id <- mine ensures id in charged && charged[id] == mine[id] {
      TenantCharged(env, s, id, tenant, q);
    }
    assert mine.Keys == AttestedOn(s, tenant, day);
    SumOfOnes(mine);
    SumMonotone(mine, charged);
  }

  /** The counter of a ceiling on one day. */
  function DaySlot(q: Quota, day: nat): string {
    SlotName(Prefix(q), DAY_SECONDS, day)
  }

  lemma CeilingBoundsAttestations(env: Policies, steps: seq<Step>, tenant: string, q: Quota, day: nat)
    requires ValidRun(env, INITIAL, steps) && Ceiling(env, tenant, q) && q.unit == Operations
    ensures |AttestedOn(After(env, INITIAL, steps), tenant, day)| <= q.limit + Stray(env, INITIAL, steps, DaySlot(q, day))
  {
    InitialInv(env);
    RunKeepsInv(env, INITIAL, steps);
    AttestationsNeverPassQuota(env, steps, q, Prefix(q), day);
    DayIsCharged(env, After(env, INITIAL, steps), tenant, q, day);
  }

  /** So does what a tenant's day cost. */
  lemma CostIsCharged(env: Policies, s: State, tenant: string, q: Quota, day: nat)
    requires Inv(env, s) && Ceiling(env, tenant, q)
    ensures Sum(LandedOn(s, tenant, day)) <= Sum(Charged(env, s, s.landed, q, Prefix(q), day))
  {
    var charged := Charged(env, s, s.landed, q, Prefix(q), day);
    var mine := LandedOn(s, tenant, day);
    forall id <- mine ensures id in charged && charged[id] == mine[id] {
      TenantCharged(env, s, id, tenant, q);
    }
    SumMonotone(mine, charged);
  }

  lemma CeilingBoundsSpend(env: Policies, steps: seq<Step>, tenant: string, q: Quota, day: nat)
    requires ValidRun(env, INITIAL, steps) && Ceiling(env, tenant, q) && q.unit == Wei
    ensures Sum(LandedOn(After(env, INITIAL, steps), tenant, day))
            <= q.limit + WEI_PER_GWEI * Stray(env, INITIAL, steps, DaySlot(q, day))
  {
    InitialInv(env);
    RunKeepsInv(env, INITIAL, steps);
    SpendNeverPassesCap(env, steps, q, Prefix(q), day);
    CostIsCharged(env, After(env, INITIAL, steps), tenant, q, day);
  }

  /**
   * Across all policies and keys of a tenant, in every run and whatever rules it writes, one day's attestations and
   * what they cost once landed exceed the plan by no more than what stray refunds took off the plan's own two
   * counters that day.
   */
  lemma PlanBoundsEveryDay(written: Policies, catalogue: PlanCatalogue, planIds: map<string, string>, steps: seq<Step>,
                           tenant: string, plan: Plan, day: nat)
    requires ValidRun(InOrder(Load(written, catalogue, planIds)), INITIAL, steps)
    requires Binds(catalogue, planIds, tenant, plan)
    ensures var env := InOrder(Load(written, catalogue, planIds));
            var s := After(env, INITIAL, steps);
            && (plan.operationsPerDay.Some? ==>
                  var limit := plan.operationsPerDay.value;
                  |AttestedOn(s, tenant, day)| <= limit + Stray(env, INITIAL, steps, DaySlot(OperationsCeiling(limit, tenant), day)))
            && (plan.weiPerDay.Some? ==>
                  var limit := plan.weiPerDay.value;
                  Sum(LandedOn(s, tenant, day))
                  <= limit + WEI_PER_GWEI * Stray(env, INITIAL, steps, DaySlot(WeiCeiling(limit, tenant), day)))
  {
    var env := InOrder(Load(written, catalogue, planIds));
    if plan.operationsPerDay.Some? {
      var q := OperationsCeiling(plan.operationsPerDay.value, tenant);
      PlanGivesCeiling(written, catalogue, planIds, tenant, plan, q);
      CeilingBoundsAttestations(env, steps, tenant, q, day);
    }
    if plan.weiPerDay.Some? {
      var q := WeiCeiling(plan.weiPerDay.value, tenant);
      PlanGivesCeiling(written, catalogue, planIds, tenant, plan, q);
      CeilingBoundsSpend(env, steps, tenant, q, day);
    }
  }
}
