/**
 * Whose refunds can reach a plan ceiling's counters: with rules as the schema admits them (policyFactory.ts), no wei
 * quota but the wei ceiling itself, and so nobody's can reach the operations ceiling.
 */
module PlanCounters {
  import opened Text
  import opened Windows
  import opened QuotaStores
  import opened QuotaRules
  import opened Engine
  import opened Budget
  import opened BudgetSafety
  import opened SpendCap
  import opened StrayRefunds
  import opened PlanCeilings

  const RESERVED := "platform:"
  const OPERATIONS := "operations-per-day"
  const WEI := "wei-per-day"
  const DEFAULT_TENANT := "default"

  /** Tenant ids are not empty and hold no slash. */
  predicate IsTenantId(id: string) {
    id != "" && '/' !in id
  }

  function Namespace(tenant: string): string {
    if tenant == DEFAULT_TENANT then "" else tenant
  }

  /** A name that is a namespace, a slash, and a reserved name. */
  predicate NamesCeilingOf(name: string, ns: string, rest: string) {
    name == ns + ['/'] + rest && '/' !in ns && RESERVED <= rest
  }

  /**
   * A quota as the schema admits it: in its tenant's namespace, under a name that is not reserved. The condition on
   * the default tenant's spend caps is not the schema's: one named `ns/platform:...` counts where a ceiling of `ns` does.
   */
  ghost predicate Admitted(tenant: string, q: Quota) {
    && q.ns == Namespace(tenant) && !(RESERVED <= q.name)
    && (q.ns == "" && q.unit == Wei ==> forall ns, rest :: !NamesCeilingOf(q.name, ns, rest))
  }

  ghost predicate AllAdmitted(written: Policies) {
    forall key <- written ::
      && IsTenantId(key.tenant)
      && forall rule <- written[key] :: rule.Reserve? ==> Admitted(key.tenant, rule.quota)
  }

  /** Addresses and key ids, which are generated: without a slash, and never the rest of a ceiling's name. */
  predicate Plain(f: SubjectFields) {
    '/' !in f.sender && (f.apiKeyId.Some? ==> '/' !in f.apiKeyId.value && f.apiKeyId.value != OPERATIONS && f.apiKeyId.value != WEI)
  }

  predicate PlainArrivals(steps: seq<Step>) {
    forall i | 0 <= i < |steps| && steps[i].Arrive? :: Plain(steps[i].ctx.fields)
  }

  // ---------------------------------------------------------------------------------------------
  // Keys

  lemma {:induction false} NumeralHasNoSlash(n: nat)
    ensures '/' !in Dec(n) && Dec(n) != [] && IsDigit(Dec(n)[0])
  {
    assert !IsDigit('/');
  }

  /** What a key holds after its prefix. */
  predicate Suffix(rest: string) {
    '/' !in rest && (rest == [] || (rest[0] == ':' && rest[1..] != OPERATIONS && rest[1..] != WEI))
  }

  lemma WalletSuffix(chainId: nat, sender: string)
    requires '/' !in sender
    ensures Suffix(":" + Dec(chainId) + ":" + sender)
  {
    NumeralHasNoSlash(chainId);
    var rest := ":" + Dec(chainId) + ":" + sender;
    assert rest[1..][0] == Dec(chainId)[0];
  }

  lemma ChainSuffix(chainId: nat)
    ensures Suffix(":" + Dec(chainId))
  {
    NumeralHasNoSlash(chainId);
    assert (":" + Dec(chainId))[1..] == Dec(chainId);
  }

  lemma LowerHasNoSlash(s: string)
    requires '/' !in s
    ensures '/' !in Lower(s)
  {
    forall i | 0 <= i < |s| ensures Lower(s)[i] != '/' {
      assert s[i] in s;
    }
  }

  lemma KeySuffix(q: Quota, f: SubjectFields) returns (rest: string)
    requires KeyFor(q, f).Some? && Plain(f) && q.subject != Ip && q.subject != Target
    ensures KeyFor(q, f) == Some(Prefix(q) + rest) && Suffix(rest)
  {
    match q.subject
    case Wallet =>
      LowerHasNoSlash(f.sender);
      WalletSuffix(f.chainId, Lower(f.sender));
      rest := ":" + Dec(f.chainId) + ":" + Lower(f.sender);
      assert Prefix(q) + rest == Prefix(q) + ":" + Dec(f.chainId) + ":" + Lower(f.sender);
    case Chain =>
      ChainSuffix(f.chainId);
      rest := ":" + Dec(f.chainId);
      assert Prefix(q) + rest == Prefix(q) + ":" + Dec(f.chainId);
    case Global =>
      rest := [];
      assert Prefix(q) + rest == Prefix(q);
    case ApiKey =>
      rest := ":" + f.apiKeyId.value;
      assert rest[1..] == f.apiKeyId.value;
      assert Prefix(q) + rest == Prefix(q) + ":" + f.apiKeyId.value;
    case _ => assert false;
  }

  /** A name that is not reserved, with any suffix, is no ceiling's name. */
  lemma NotReserved(name: string, rest: string, ceiling: string)
    requires !(RESERVED <= name) && Suffix(rest) && (ceiling == OPERATIONS || ceiling == WEI)
    ensures name + rest != RESERVED + ceiling
  {
    var key, text, n := name + rest, RESERVED + ceiling, |name|;
    assert text[..|RESERVED|] == RESERVED && text[|RESERVED|..] == ceiling;
    if n >= |RESERVED| {
      assert key[..|RESERVED|] == name[..|RESERVED|];
    } else if rest == [] {
      assert |key| < |text|;
    } else if n == |RESERVED| - 1 {
      assert key[|RESERVED|..] == rest[1..];
    } else {
      assert key[n] == ':' && text[n] == RESERVED[n];
    }
  }

  function CeilingKey(tenant: string, ceiling: string): string {
    "quota:" + tenant + "/" + RESERVED + ceiling
  }

  lemma CeilingKeyText(tenant: string, ceiling: string)
    ensures CeilingKey(tenant, ceiling) == "quota:" + (tenant + ['/'] + (RESERVED + ceiling))
  {
    RestOfKey(tenant, RESERVED, ceiling);
  }

  lemma SameTail(a: string, x: string, b: string, y: string)
    requires '/' !in a && '/' !in b && a + ['/'] + x == b + ['/'] + y
    ensures a == b && x == y
  {
    BeforeFirst(a, '/', x);
    BeforeFirst(b, '/', y);
    assert (a + ['/'] + x)[|a| + 1..] == x && (b + ['/'] + y)[|b| + 1..] == y;
  }

  /** Within a namespace: the key of a ceiling is that of a quota of that namespace, name and suffix. */
  lemma NamespaceOfCeiling(q: Quota, rest: string, tenant: string, ceiling: string)
    requires q.ns != "" && '/' !in q.ns && '/' !in tenant && Prefix(q) + rest == CeilingKey(tenant, ceiling)
    ensures q.ns == tenant && q.name + rest == RESERVED + ceiling
  {
    CeilingKeyText(tenant, ceiling);
    RestOfKey(q.ns, q.name, rest);
    DropQuota(Prefix(q) + rest, q.ns + ['/'] + (q.name + rest));
    DropQuota(CeilingKey(tenant, ceiling), tenant + ['/'] + (RESERVED + ceiling));
    SameTail(q.ns, q.name + rest, tenant, RESERVED + ceiling);
  }

  /** A text whose last part holds no slash: its first slash is in the part before. */
  lemma NamespaceInText(head: string, rest: string, tenant: string, tail: string) returns (name: string)
    requires '/' !in rest && '/' !in tenant && head + rest == tenant + ['/'] + tail
    ensures head == tenant + ['/'] + name && name + rest == tail
  {
    SlashIsInName(head, rest, tenant + ['/'] + tail, |tenant|);
    name := BeforeSplits(head, '/');
    var ns := Before(head, '/');
    Regroup(ns, name, rest);
    SameTail(ns, name + rest, tenant, tail);
  }

  lemma Regroup(ns: string, name: string, rest: string)
    ensures ns + ['/'] + name + rest == ns + ['/'] + (name + rest)
  {
  }

  /** Without a namespace: the name itself holds one, a slash and the rest. */
  lemma NamespaceInName(q: Quota, rest: string, tenant: string, ceiling: string) returns (name: string)
    requires q.ns == "" && '/' !in rest && '/' !in tenant && Prefix(q) + rest == CeilingKey(tenant, ceiling)
    ensures q.name == tenant + ['/'] + name && name + rest == RESERVED + ceiling
  {
    CeilingKeyText(tenant, ceiling);
    assert Prefix(q) + rest == "quota:" + (q.name + rest);
    DropQuota(Prefix(q) + rest, q.name + rest);
    DropQuota(CeilingKey(tenant, ceiling), tenant + ['/'] + (RESERVED + ceiling));
    name := NamespaceInText(q.name, rest, tenant, RESERVED + ceiling);
  }

  lemma SlashIsInName(name: string, rest: string, text: string, at: nat)
    requires name + rest == text && at < |text| && text[at] == '/' && '/' !in rest
    ensures '/' in name
  {
    assert '/' in name + rest;
  }

  /** No admitted spend cap counts where a ceiling does. */
  lemma AdmittedIsApart(owner: string, q: Quota, f: SubjectFields, tenant: string, ceiling: string)
    requires IsTenantId(owner) && Admitted(owner, q) && q.unit == Wei && Plain(f) && q.subject != Ip && q.subject != Target
    requires '/' !in tenant && (ceiling == OPERATIONS || ceiling == WEI)
    ensures KeyFor(q, f) != Some(CeilingKey(tenant, ceiling))
  {
    if KeyFor(q, f).Some? {
      var rest := KeySuffix(q, f);
      if Prefix(q) + rest == CeilingKey(tenant, ceiling) {
        if q.ns == "" {
          var name := NamespaceInName(q, rest, tenant, ceiling);
          assert !NamesCeilingOf(q.name, tenant, name);
          NotReserved(name, rest, ceiling);
        } else {
          NamespaceOfCeiling(q, rest, tenant, ceiling);
          NotReserved(q.name, rest, ceiling);
        }
      }
    }
  }

  lemma CeilingPrefixes(limit: nat, tenant: string)
    requires tenant != ""
    ensures Prefix(OperationsCeiling(limit, tenant)) == CeilingKey(tenant, OPERATIONS)
    ensures Prefix(WeiCeiling(limit, tenant)) == CeilingKey(tenant, WEI)
  {
    assert "platform:operations-per-day" == RESERVED + OPERATIONS && "platform:wei-per-day" == RESERVED + WEI;
    var head := "quota:" + tenant + "/";
    assert head + (RESERVED + OPERATIONS) == head + RESERVED + OPERATIONS && head + (RESERVED + WEI) == head + RESERVED + WEI;
  }

  lemma CeilingKeysDiffer(a: string, b: string, ceiling: string)
    requires '/' !in a && '/' !in b && (ceiling == OPERATIONS || ceiling == WEI) && CeilingKey(a, WEI) == CeilingKey(b, ceiling)
    ensures a == b && ceiling == WEI
  {
    CeilingKeyText(a, WEI);
    CeilingKeyText(b, ceiling);
    DropQuota(CeilingKey(a, WEI), a + ['/'] + (RESERVED + WEI));
    DropQuota(CeilingKey(b, ceiling), b + ['/'] + (RESERVED + ceiling));
    SameTail(a, RESERVED + WEI, b, RESERVED + ceiling);
    assert (RESERVED + WEI)[|RESERVED|] == 'w';
    assert (RESERVED + ceiling)[|RESERVED|] == ceiling[0];
  }

  /**
   * The condition on names is needed: a spend cap of the default tenant called like another tenant's operations
   * ceiling is refunded there, straying whenever its row is stamped on another day than it was charged on.
   */
  lemma SlashedNameReachesCeiling(q: Quota, limit: nat, tenant: string, ctx: Context, createdAt: nat)
    requires tenant != "" && q.unit == Wei && q.subject == Global && q.windowSeconds == DAY_SECONDS
    requires q.ns == "" && q.name == tenant + "/" + RESERVED + OPERATIONS
    ensures StrayedTo(q, ctx, createdAt, DaySlot(OperationsCeiling(limit, tenant), WindowStart(createdAt, DAY_SECONDS)))
            <==> WindowStart(ctx.now, DAY_SECONDS) != WindowStart(createdAt, DAY_SECONDS)
  {
    CeilingPrefixes(limit, tenant);
    var key, charged, stamped := CeilingKey(tenant, OPERATIONS), WindowStart(ctx.now, DAY_SECONDS), WindowStart(createdAt, DAY_SECONDS);
    assert Prefix(q) == key by {
      assert "quota:" + (tenant + "/" + RESERVED + OPERATIONS) == "quota:" + tenant + "/" + RESERVED + OPERATIONS;
    }
    if SlotName(key, DAY_SECONDS, charged) == SlotName(key, DAY_SECONDS, stamped) {
      SlotNameInjective(key, DAY_SECONDS, charged, key, DAY_SECONDS, stamped);
    }
  }

  // ---------------------------------------------------------------------------------------------
  // Rows

  predicate Loaded(env: Policies, written: Policies, catalogue: PlanCatalogue, planIds: map<string, string>) {
    env == InOrder(Load(written, catalogue, planIds))
  }

  lemma LoadedRule(env: Policies, written: Policies, catalogue: PlanCatalogue, planIds: map<string, string>, key: PolicyKey, rule: Rule)
    requires Loaded(env, written, catalogue, planIds) && key in env && rule in env[key]
    ensures key in written
    ensures rule in written[key]
            || (PlanFor(catalogue, planIds, key.tenant).Some? && rule in CeilingRules(PlanFor(catalogue, planIds, key.tenant).value, key.tenant))
  {
    OrderKeepsRules(Load(written, catalogue, planIds)[key]);
    assert rule in multiset(env[key]);
  }

  /** The only wei quota of a loaded policy that counts where a ceiling does is the wei ceiling, of its own tenant. */
  lemma OnlyWeiCeilingIsThere(env: Policies, written: Policies, catalogue: PlanCatalogue, planIds: map<string, string>,
                              key: PolicyKey, q: Quota, f: SubjectFields, tenant: string, ceiling: string)
    requires Loaded(env, written, catalogue, planIds) && AllAdmitted(written) && key in env && Reserve(q) in env[key]
    requires q.unit == Wei && q.subject != Ip && q.subject != Target && Plain(f)
    requires '/' !in tenant && (ceiling == OPERATIONS || ceiling == WEI)
    requires KeyFor(q, f) == Some(CeilingKey(tenant, ceiling))
    ensures key.tenant == tenant && ceiling == WEI && q == WeiCeiling(q.limit, tenant)
  {
    LoadedRule(env, written, catalogue, planIds, key, Reserve(q));
    if Reserve(q) in written[key] {
      assert Admitted(key.tenant, Reserve(q).quota);
      AdmittedIsApart(key.tenant, q, f, tenant, ceiling);
    } else {
      CeilingPrefixes(q.limit, key.tenant);
      CeilingKeysDiffer(key.tenant, tenant, ceiling);
    }
  }

  /** The fields a true-up is rebuilt with are plain if the request's were. */
  lemma RebuiltIsPlain(q: Quota, ctx: Context, createdAt: nat)
    requires Plain(ctx.fields) && q.unit == Wei
    ensures var r := TrueUpOf(ctx, createdAt, 0);
            var rebuilt := SubjectFields(r.chainId, r.sender, None, r.apiKeyId, None);
            && Plain(rebuilt) && ((q.subject == Ip || q.subject == Target) ==> KeyFor(q, rebuilt) == None)
            && TrueUpSlot(q, r) == if KeyFor(q, rebuilt).Some? then Some(WindowedKey(KeyFor(q, rebuilt).value, q.windowSeconds, createdAt)) else None
  {
  }

  /** A true-up that reaches a ceiling's counter is the wei ceiling's own, of a row stamped on that day. */
  lemma ReachesCeiling(env: Policies, written: Policies, catalogue: PlanCatalogue, planIds: map<string, string>,
                       key: PolicyKey, q: Quota, ctx: Context, createdAt: nat, tenant: string, ceiling: string, day: nat)
    requires Loaded(env, written, catalogue, planIds) && AllAdmitted(written) && key in env && Reserve(q) in env[key] && Plain(ctx.fields)
    requires '/' !in tenant && (ceiling == OPERATIONS || ceiling == WEI)
    requires TrueUpSlot(q, TrueUpOf(ctx, createdAt, 0)) == Some(SlotName(CeilingKey(tenant, ceiling), DAY_SECONDS, day))
    ensures key.tenant == tenant && ceiling == WEI && q == WeiCeiling(q.limit, tenant) && WindowStart(createdAt, DAY_SECONDS) == day
  {
    var r := TrueUpOf(ctx, createdAt, 0);
    var rebuilt := SubjectFields(r.chainId, r.sender, None, r.apiKeyId, None);
    RebuiltIsPlain(q, ctx, createdAt);
    var found := KeyFor(q, rebuilt).value;
    SlotNameInjective(found, q.windowSeconds, WindowStart(createdAt, q.windowSeconds), CeilingKey(tenant, ceiling), DAY_SECONDS, day);
    OnlyWeiCeilingIsThere(env, written, catalogue, planIds, key, q, rebuilt, tenant, ceiling);
  }

  /** The row of a tenant's request that is stamped on `day` was charged on `day`. */
  predicate StampsDay(s: State, step: Step, tenant: string, day: nat) {
    step.Record? && step.id in s.requests && s.requests[step.id].policy.tenant == tenant
    && WindowStart(step.createdAt, DAY_SECONDS) == day
    ==> WindowStart(s.requests[step.id].ctx.now, DAY_SECONDS) == day
  }

  ghost predicate DayStampedRun(env: Policies, s: State, steps: seq<Step>, tenant: string, day: nat)
    requires ValidRun(env, s, steps)
    decreases steps
  {
    steps == [] || (StampsDay(s, steps[0], tenant, day) && DayStampedRun(env, Apply(env, s, steps[0]), steps[1..], tenant, day))
  }

  predicate PlainRequests(s: State) {
    forall id <- s.requests :: Plain(s.requests[id].ctx.fields)
  }

  lemma StepKeepsPlain(env: Policies, s: State, step: Step)
    requires Enabled(env, s, step) && PlainRequests(s) && (step.Arrive? ==> Plain(step.ctx.fields))
    ensures PlainRequests(Apply(env, s, step))
  {
    forall id <- Apply(env, s, step).requests ensures Plain(Apply(env, s, step).requests[id].ctx.fields) {
      if id in s.requests {
        assert Apply(env, s, step).requests[id].ctx == s.requests[id].ctx;
      }
    }
  }

  lemma CeilingCharged(limit: nat, tenant: string, ctx: Context)
    requires tenant != ""
    ensures SlotFor(WeiCeiling(limit, tenant), ctx) == Some(SlotName(CeilingKey(tenant, WEI), DAY_SECONDS, WindowStart(ctx.now, DAY_SECONDS)))
  {
    CeilingPrefixes(limit, tenant);
  }

  lemma RecordSparesCeiling(env: Policies, written: Policies, catalogue: PlanCatalogue, planIds: map<string, string>,
                            s: State, step: Step, tenant: string, ceiling: string, day: nat)
    requires Loaded(env, written, catalogue, planIds) && AllAdmitted(written) && PlainRequests(s) && Enabled(env, s, step)
    requires IsTenantId(tenant) && (ceiling == OPERATIONS || (ceiling == WEI && StampsDay(s, step, tenant, day)))
    ensures Spares(env, s, step, SlotName(CeilingKey(tenant, ceiling), DAY_SECONDS, day))
  {
    var slot := SlotName(CeilingKey(tenant, ceiling), DAY_SECONDS, day);
    if step.Record? {
      var rules, request := RulesOf(env, s, step.id), s.requests[step.id];
      forall i | 0 <= i < |rules| && rules[i].Reserve? ensures !StrayedTo(rules[i].quota, request.ctx, step.createdAt, slot) {
        if TrueUpSlot(rules[i].quota, TrueUpOf(request.ctx, step.createdAt, 0)) == Some(slot) {
          ReachesCeiling(env, written, catalogue, planIds, request.policy, rules[i].quota, request.ctx, step.createdAt, tenant, ceiling, day);
          CeilingCharged(rules[i].quota.limit, tenant, request.ctx);
        }
      }
    }
  }

  lemma {:induction false} CeilingIsSpared(env: Policies, written: Policies, catalogue: PlanCatalogue, planIds: map<string, string>,
                                           s: State, steps: seq<Step>, tenant: string, ceiling: string, day: nat)
    requires Loaded(env, written, catalogue, planIds) && AllAdmitted(written) && PlainRequests(s)
    requires ValidRun(env, s, steps) && PlainArrivals(steps) && IsTenantId(tenant)
    requires ceiling == OPERATIONS || (ceiling == WEI && DayStampedRun(env, s, steps, tenant, day))
    ensures SparingRun(env, s, steps, SlotName(CeilingKey(tenant, ceiling), DAY_SECONDS, day))
    decreases steps
  {
    if steps == [] {
    } else {
      RecordSparesCeiling(env, written, catalogue, planIds, s, steps[0], tenant, ceiling, day);
      StepKeepsPlain(env, s, steps[0]);
      assert PlainArrivals(steps[1..]);
      CeilingIsSpared(env, written, catalogue, planIds, Apply(env, s, steps[0]), steps[1..], tenant, ceiling, day);
    }
  }

  // ---------------------------------------------------------------------------------------------
  // Days

  /**
   * The operations ceiling holds as configured in every run, however rows are stamped and whatever rules tenants
   * write: no spend cap of theirs can be refunded on its counter.
   */
  lemma OperationsStayWithinPlan(written: Policies, catalogue: PlanCatalogue, planIds: map<string, string>, steps: seq<Step>,
                                 tenant: string, plan: Plan, day: nat)
    requires ValidRun(InOrder(Load(written, catalogue, planIds)), INITIAL, steps) && PlainArrivals(steps)
    requires AllAdmitted(written) && IsTenantId(tenant)
    requires Binds(catalogue, planIds, tenant, plan) && plan.operationsPerDay.Some?
    ensures |AttestedOn(After(InOrder(Load(written, catalogue, planIds)), INITIAL, steps), tenant, day)|
            <= plan.operationsPerDay.value
  {
    var env, limit := InOrder(Load(written, catalogue, planIds)), plan.operationsPerDay.value;
    CeilingIsSpared(env, written, catalogue, planIds, INITIAL, steps, tenant, OPERATIONS, day);
    CeilingPrefixes(limit, tenant);
    SparingIsStrayFree(env, steps, DaySlot(OperationsCeiling(limit, tenant), day));
    PlanBoundsEveryDay(written, catalogue, planIds, steps, tenant, plan, day);
  }

  /**
   * The wei ceiling holds as configured on every day on which no row of the tenant is stamped that was charged on
   * another: only its own refunds can reach its counter.
   */
  lemma SpendStaysWithinPlan(written: Policies, catalogue: PlanCatalogue, planIds: map<string, string>, steps: seq<Step>,
                             tenant: string, plan: Plan, day: nat)
    requires ValidRun(InOrder(Load(written, catalogue, planIds)), INITIAL, steps) && PlainArrivals(steps)
    requires DayStampedRun(InOrder(Load(written, catalogue, planIds)), INITIAL, steps, tenant, day)
    requires AllAdmitted(written) && IsTenantId(tenant)
    requires Binds(catalogue, planIds, tenant, plan) && plan.weiPerDay.Some?
    ensures Sum(LandedOn(After(InOrder(Load(written, catalogue, planIds)), INITIAL, steps), tenant, day))
            <= plan.weiPerDay.value
  {
    var env, limit := InOrder(Load(written, catalogue, planIds)), plan.weiPerDay.value;
    CeilingIsSpared(env, written, catalogue, planIds, INITIAL, steps, tenant, WEI, day);
    CeilingPrefixes(limit, tenant);
    SparingIsStrayFree(env, steps, DaySlot(WeiCeiling(limit, tenant), day));
    PlanBoundsEveryDay(written, catalogue, planIds, steps, tenant, plan, day);
  }
}
