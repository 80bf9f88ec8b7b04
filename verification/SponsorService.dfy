/** One sponsorship request end to end: refuse early, reserve, attest, record, and refund on failure (sponsor.service.ts). */
module SponsorService {
  import opened Text
  import opened QuotaStores
  import opened QuotaRules
  import opened Engine
  import opened Decisions
  import opened Compensation
  import opened Budget
  import opened BudgetRuns
  import opened Sponsorships

  datatype SponsorRequest = SponsorRequest(
    chainId: nat, sender: string, nonce: nat, policyId: string, calls: Option<seq<string>>, maxCost: nat)

  datatype Caller = Caller(tenant: string, clientIp: Option<string>, apiKeyId: Option<string>)

  /** Everything the service learns from elsewhere while it handles one request. */
  datatype Surroundings = Surroundings(
    allowsSponsorship: bool,        // the subscription's answer
    balance: Option<nat>,           // the tenant's balance, where one is kept and readable
    now: nat,
    world: seq<World>, denialLinks: seq<Link>,
    signs: bool, records: bool, createdAt: nat,
    failureLinks: seq<Link>)

  datatype Refusal = SubscriptionLapsed | TenantBalanceInsufficient | ByPolicy(decision: Decision)

  datatype Response = UnknownPolicy | Refused(refusal: Refusal) | Failed | Issued(id: nat)

  function ContextOf(request: SponsorRequest, caller: Caller, now: nat): Context {
    Context(SubjectFields(request.chainId, request.sender, caller.clientIp, caller.apiKeyId, request.calls), request.maxCost, now)
  }

  /** Fails open: an unreadable balance does not refuse. */
  predicate Underfunded(request: SponsorRequest, around: Surroundings) {
    around.balance.Some? && around.balance.value < request.maxCost
  }

  /** What the request is answered, given the counters it finds. */
  function ResponseTo(policy: Option<seq<Rule>>, counters: Counters, request: SponsorRequest, caller: Caller, around: Surroundings, id: nat): Response
    requires policy.Some? ==> |OrderRules(policy.value)| <= |around.world|
  {
    if policy.None? then UnknownPolicy
    else if !around.allowsSponsorship then Refused(SubscriptionLapsed)
    else if Underfunded(request, around) then Refused(TenantBalanceInsufficient)
    else
      var decision := WalkRules(OrderRules(policy.value), 0, counters, ContextOf(request, caller, around.now), around.world).decision;
      if decision.Deny? then Refused(ByPolicy(decision))
      else if !around.signs || !around.records then Failed
      else Issued(id)
  }

  /**
   * The answer to a request, told from the request: what a policy that was loaded as `policy` says of it, in the order
   * in which the service asks. Each answer is given exactly when its own condition holds and none before it does.
   */
  ghost predicate AnsweredExactly(response: Response, policy: Option<seq<Rule>>, counters: Counters, request: SponsorRequest,
                                  caller: Caller, around: Surroundings, id: nat)
    requires policy.Some? ==> |OrderRules(policy.value)| <= |around.world|
  {
    && (response == UnknownPolicy <==> policy.None?)
    && (policy.Some? ==>
          var ctx := Context(SubjectFields(request.chainId, request.sender, caller.clientIp, caller.apiKeyId, request.calls),
                             request.maxCost, around.now);
          var rules, funded := OrderRules(policy.value), around.balance.None? || request.maxCost <= around.balance.value;
          var asked, allowed := around.allowsSponsorship && funded, AllPass(rules, |rules|, counters, ctx, around.world);
          && (response == Refused(SubscriptionLapsed) <==> !around.allowsSponsorship)
          && (response == Refused(TenantBalanceInsufficient) <==> around.allowsSponsorship && !funded)
          && (response.Refused? && response.refusal.ByPolicy? <==> asked && !allowed)
          && (forall k | 0 <= k < |rules| && FirstToFail(rules, k, counters, ctx, around.world) ::
                asked ==> response == Refused(ByPolicy(AnswerOf(rules[k], ctx, around.world[k]))))
          && (response == Failed <==> asked && allowed && !(around.signs && around.records))
          && (response == Issued(id) <==> asked && allowed && around.signs && around.records))
    && (response.Issued? ==> response.id == id)
  }

  lemma ResponseExactly(policy: Option<seq<Rule>>, counters: Counters, request: SponsorRequest, caller: Caller, around: Surroundings, id: nat)
    requires policy.Some? ==> |OrderRules(policy.value)| <= |around.world|
    ensures AnsweredExactly(ResponseTo(policy, counters, request, caller, around, id), policy, counters, request, caller, around, id)
  {
    if policy.Some? {
      DecidedExactly(OrderRules(policy.value), counters, ContextOf(request, caller, around.now), around.world);
    }
  }

  predicate NothingLost(around: Surroundings) {
    && AllUp(around.world)
    && (forall i | 0 <= i < |around.denialLinks| :: around.denialLinks[i] == Up)
    && (forall i | 0 <= i < |around.failureLinks| :: around.failureLinks[i] == Up)
  }

  lemma {:induction false} ReservingOfTier(rules: seq<Rule>)
    ensures Reserving(OfTier(rules, Store)) == Reserving(rules)
    ensures Reserving(OfTier(rules, Pure)) == [] && Reserving(OfTier(rules, Network)) == []
  {
    if rules != [] {
      ReservingOfTier(rules[1..]);
      OfTierStep(rules, Store);
      OfTierStep(rules, Pure);
      OfTierStep(rules, Network);
    }
  }

  /** Sorting by cost does not reorder the reserving rules among themselves. */
  lemma ReservingInWrittenOrder(rules: seq<Rule>)
    ensures Reserving(OrderRules(rules)) == Reserving(rules)
  {
    OrderIsByTier(rules);
    ReservingOfTier(rules);
    ReservingAppend(OfTier(rules, Pure) + OfTier(rules, Store), OfTier(rules, Network));
    ReservingAppend(OfTier(rules, Pure), OfTier(rules, Store));
  }

  /** An approval that is then released charges nothing. */
  lemma FailureIsExact(rules: seq<Rule>, counters: Counters, ctx: Context, around: Surroundings, slot: string)
    requires |rules| <= |around.world| && |rules| <= |around.denialLinks| && |rules| <= |around.failureLinks|
    requires NothingLost(around) && |OrderRules(rules)| == |rules|
    requires WalkRules(OrderRules(rules), 0, counters, ctx, around.world).decision.Allow?
    requires |Reserving(rules)| <= |around.failureLinks|
    ensures Usage(ReleaseAll(Reserving(rules), AfterPolicy(rules, counters, ctx, around.world, around.denialLinks), ctx, around.failureLinks), slot)
            == Usage(counters, slot)
  {
    EvaluationIsExact(rules, counters, ctx, around.world, around.denialLinks, slot);
    ReservingInWrittenOrder(rules);
    ReleaseAllUndoes(Reserving(rules), AfterPolicy(rules, counters, ctx, around.world, around.denialLinks), ctx, around.failureLinks, slot);
  }

  function QuotasOf(rules: seq<LoadedRule>): seq<QuotaRule> {
    if rules == [] then []
    else (if rules[0].LoadedQuota? then [rules[0].rule] else []) + QuotasOf(rules[1..])
  }

  lemma {:induction false} QuotasErase(rules: seq<LoadedRule>)
    ensures OptionsOf(QuotasOf(rules)) == Reserving(EraseAll(rules))
    ensures forall q <- QuotasOf(rules) :: LoadedQuota(q) in rules
  {
    if rules != [] {
      QuotasErase(rules[1..]);
      assert EraseAll(rules)[1..] == EraseAll(rules[1..]);
    }
  }

  class SponsorService {
    const store: InMemoryQuotaStore
    const table: SponsorshipTable
    const engine: PolicyEngine
    const policies: map<PolicyKey, seq<LoadedRule>>

    constructor (store: InMemoryQuotaStore, table: SponsorshipTable, engine: PolicyEngine, policies: map<PolicyKey, seq<LoadedRule>>)
      ensures this.store == store && this.table == table && this.engine == engine && this.policies == policies
    {
      this.store, this.table, this.engine, this.policies := store, table, engine, policies;
    }

    function PolicyOf(key: PolicyKey): Option<seq<Rule>> {
      if key in policies then Some(EraseAll(policies[key])) else None
    }

    /** The surroundings cover every rule of the policy the request names. */
    predicate Covers(around: Surroundings, key: PolicyKey) {
      key in policies ==>
        && |policies[key]| <= |around.world| && |policies[key]| <= |around.denialLinks|
        && |policies[key]| <= |around.failureLinks| && |OrderRules(EraseAll(policies[key]))| == |policies[key]|
    }

    method Sponsor(request: SponsorRequest, caller: Caller, around: Surroundings) returns (response: Response)
      requires table.Valid()
      requires forall key <- policies, r <- policies[key] :: r.LoadedQuota? ==> r.rule.store == store
      requires Covers(around, PolicyKey(caller.tenant, request.policyId))
      modifies store, table
      ensures table.Valid() && table.nextId == old(table.nextId) + 1
      ensures response == ResponseTo(PolicyOf(PolicyKey(caller.tenant, request.policyId)), old(store.counters), request, caller, around, old(table.nextId))
      ensures var key := PolicyKey(caller.tenant, request.policyId);
              AnsweredExactly(response, if key in policies then Some(EraseAll(policies[key])) else None, old(store.counters),
                              request, caller, around, old(table.nextId))
      ensures response.Issued? ==>
                && table.rows == old(table.rows)[response.id := SponsorshipRow(
                     caller.tenant, request.policyId, request.chainId, Lower(request.sender), request.nonce,
                     if caller.apiKeyId.Some? then caller.apiKeyId.value else "anonymous",
                     request.maxCost, around.createdAt, None)]
                && store.counters == AfterPolicy(PolicyOf(PolicyKey(caller.tenant, request.policyId)).value, old(store.counters),
                                                 ContextOf(request, caller, around.now), around.world, around.denialLinks)
      ensures !response.Issued? ==> table.rows == old(table.rows)
      ensures !response.Issued? && NothingLost(around) ==>
                forall slot :: Usage(store.counters, slot) == old(Usage(store.counters, slot))
      ensures table.checkpoints == old(table.checkpoints)
      ensures store.counters == CountersAfter(PolicyOf(PolicyKey(caller.tenant, request.policyId)), old(store.counters), request, caller, around)
    {
      var id := table.DrawId();
      var key := PolicyKey(caller.tenant, request.policyId);
      ResponseExactly(PolicyOf(key), store.counters, request, caller, around, id);
      if key !in policies {
        return UnknownPolicy;
      }
      var rules := policies[key];
      ghost var plan := EraseAll(rules);
      if !around.allowsSponsorship {
        return Refused(SubscriptionLapsed);
      }
      if around.balance.Some? && around.balance.value < request.maxCost {
        return Refused(TenantBalanceInsufficient);
      }

      var ctx := ContextOf(request, caller, around.now);
      var evaluation := engine.Evaluate(store, rules, ctx, around.world, around.denialLinks);
      if evaluation.decision.Deny? {
        forall slot | NothingLost(around) ensures Usage(store.counters, slot) == old(Usage(store.counters, slot)) {
          EvaluationIsExact(plan, old(store.counters), ctx, around.world, around.denialLinks, slot);
        }
        return Refused(ByPolicy(evaluation.decision));
      }

      if !around.signs || !around.records {
        QuotasErase(rules);
        ReservingShorter(plan);
        engine.ReleaseEach(store, QuotasOf(rules), ctx, around.failureLinks);
        forall slot | NothingLost(around) ensures Usage(store.counters, slot) == old(Usage(store.counters, slot)) {
          FailureIsExact(plan, old(store.counters), ctx, around, slot);
        }
        return Failed;
      }

      var apiKeyId := if caller.apiKeyId.Some? then caller.apiKeyId.value else "anonymous";
      table.Record(id, SponsorshipRow(caller.tenant, request.policyId, request.chainId, Lower(request.sender), request.nonce,
                                      apiKeyId, request.maxCost, around.createdAt, None));
      response := Issued(id);
    }
  }

  /** The counters one request leaves. */
  function CountersAfter(policy: Option<seq<Rule>>, counters: Counters, request: SponsorRequest, caller: Caller, around: Surroundings): Counters
    requires policy.Some? ==> && |OrderRules(policy.value)| == |policy.value| <= |around.world|
                              && |policy.value| <= |around.denialLinks| && |policy.value| <= |around.failureLinks|
  {
    if policy.None? || !around.allowsSponsorship || Underfunded(request, around) then counters
    else
      var rules, ctx := policy.value, ContextOf(request, caller, around.now);
      var evaluated := AfterPolicy(rules, counters, ctx, around.world, around.denialLinks);
      if WalkRules(OrderRules(rules), 0, counters, ctx, around.world).decision.Allow? && !(around.signs && around.records)
      then (ReservingShorter(rules); ReleaseAll(Reserving(rules), evaluated, ctx, around.failureLinks))
      else evaluated
  }
}
