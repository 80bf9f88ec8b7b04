/** What the budget protocol's invariant buys: caps hold over whole runs, whatever fails along the way. */
module SpendCap {
  import opened Text
  import opened Windows
  import opened QuotaStores
  import opened QuotaRules
  import opened Engine
  import opened Budget
  import opened BudgetSafety

  /** Request `id` ran under a policy with quota `q`, keyed to `key`, in the window starting at `start`. */
  predicate ChargedTo(env: Policies, s: State, id: nat, q: Quota, key: string, start: nat) {
    && Known(env, s, id)
    && Reserve(q) in RulesOf(env, s, id)
    && KeyFor(q, s.requests[id].ctx.fields) == Some(key)
    && WindowStart(s.requests[id].ctx.now, q.windowSeconds) == start
  }

  ghost function Sum(costs: map<nat, nat>): nat
    decreases |costs|
  {
    if costs == map[] then 0
    else
      var id := Pick(costs);
      RemoveShrinks(costs, id);
      costs[id] + Sum(costs - {id})
  }

  /** `costs` of the requests charged to one window of one quota. */
  function Charged(env: Policies, s: State, costs: map<nat, nat>, q: Quota, key: string, start: nat): map<nat, nat> {
    map id | id in costs && ChargedTo(env, s, id, q, key, start) :: costs[id]
  }

  ghost function Total(env: Policies, s: State, costs: map<nat, nat>, q: Quota, key: string, start: nat): nat {
    Sum(Charged(env, s, costs, q, key, start))
  }

  /** Holds of different requests are different holds: together they weigh no more than all holds. */
  lemma {:induction false} OwnHoldsWithinHeld(weights: map<nat, nat>, at: map<nat, nat>, holds: map<HoldId, Hold>, query: Query)
    requires forall id <- weights :: id in at && HoldId(id, at[id]) in holds
                                     && weights[id] == query.Weight(holds[HoldId(id, at[id])])
    ensures Sum(weights) <= Held(holds, query)
    decreases |weights|
  {
    if weights != map[] {
      var id := Pick(weights);
      RemoveShrinks(weights, id);
      var h := HoldId(id, at[id]);
      HeldRemove(holds, h, query);
      OwnHoldsWithinHeld(weights - {id}, at, holds - {h}, query);
    }
  }

  lemma {:induction false} SumScales(costs: map<nat, nat>, weights: map<nat, nat>, unit: nat)
    requires costs.Keys == weights.Keys
    requires forall id <- costs :: costs[id] <= unit * weights[id]
    ensures Sum(costs) <= unit * Sum(weights)
    decreases |costs|
  {
    if costs == map[] {
      assert weights == map[];
    } else {
      var id := Pick(costs);
      RemoveShrinks(costs, id);
      SumRemove(weights, id);
      SumScales(costs - {id}, weights - {id}, unit);
      Distribute(unit, weights[id], Sum(weights - {id}));
    }
  }

  lemma {:induction false} SumRemove(m: map<nat, nat>, id: nat)
    requires id in m
    ensures Sum(m) == m[id] + Sum(m - {id})
    decreases |m|
  {
    var p := Pick(m);
    RemoveShrinks(m, p);
    if p != id {
      RemoveShrinks(m, id);
      SumRemove(m - {p}, id);
      SumRemove(m - {id}, p);
      assert m - {p} - {id} == m - {id} - {p};
    }
  }

  /** If each cost is covered, at `unit` per counted unit, by a hold of its own, the costs are covered by the holds. */
  lemma HoldsCoverCosts(costs: map<nat, nat>, at: map<nat, nat>, holds: map<HoldId, Hold>, query: Query, unit: nat)
    requires costs.Keys == at.Keys
    requires forall id <- costs :: HoldId(id, at[id]) in holds && costs[id] <= unit * query.Weight(holds[HoldId(id, at[id])])
    ensures Sum(costs) <= unit * Held(holds, query)
  {
    var weights := WeightsAt(at, holds, query);
    OwnHoldsWithinHeld(weights, at, holds, query);
    SumScales(costs, weights, unit);
    ScaleMonotone(unit, Sum(weights), Held(holds, query));
  }

  /** The weight on `query` of the hold at each charged request's place. */
  function WeightsAt(at: map<nat, nat>, holds: map<HoldId, Hold>, query: Query): map<nat, nat> {
    map id | id in at :: WeightAt(holds, HoldId(id, at[id]), query)
  }

  lemma ScaleMonotone(unit: nat, a: nat, b: nat)
    requires a <= b
    ensures unit * a <= unit * b
  {
  }

  lemma Distribute(unit: nat, a: nat, b: nat)
    ensures unit * (a + b) == unit * a + unit * b
  {
  }

  function IndexOf(rules: seq<Rule>, rule: Rule): (i: nat)
    requires rule in rules
    ensures i < |rules| && rules[i] == rule
  {
    if rules[0] == rule then 0 else 1 + IndexOf(rules[1..], rule)
  }

  /** Where, in each charged request's policy, the quota stands. */
  function Places(env: Policies, s: State, costs: map<nat, nat>, q: Quota, key: string, start: nat): map<nat, nat> {
    map id | id in costs && ChargedTo(env, s, id, q, key, start) :: IndexOf(RulesOf(env, s, id), Reserve(q))
  }

  /** The hold that quota rule `i` of an attested request still has. */
  lemma AttestedHolds(env: Policies, s: State, id: nat, i: nat)
    requires Inv(env, s) && id in s.rows && Known(env, s, id) && i < |RulesOf(env, s, id)|
    requires Charges(RulesOf(env, s, id), s.requests[id].ctx, i)
    ensures var q, ctx := RulesOf(env, s, id)[i].quota, s.requests[id].ctx;
            && HoldId(id, i) in s.holds
            && s.holds[HoldId(id, i)].quota == q && s.holds[HoldId(id, i)].slot == SlotFor(q, ctx).value
            && (s.holds[HoldId(id, i)].amount == AmountFor(q, ctx)
                || (s.rows[id].claimed.Some? && s.holds[HoldId(id, i)].amount == Owed(q, ctx, s.rows[id].claimed.value)))
  {
    assert Covered(env, s, id);
    assert Settled(s, RulesOf(env, s, id), s.requests[id].ctx, id, i);
  }

  /** A landed operation's cost is covered by what its attestation still holds, claimed or not. */
  lemma LandedIsCovered(env: Policies, s: State, id: nat, i: nat)
    requires Inv(env, s) && id in s.landed && Known(env, s, id) && i < |RulesOf(env, s, id)|
    requires Charges(RulesOf(env, s, id), s.requests[id].ctx, i) && RulesOf(env, s, id)[i].quota.unit == Wei
    ensures HoldId(id, i) in s.holds
    ensures s.holds[HoldId(id, i)].quota == RulesOf(env, s, id)[i].quota
    ensures s.holds[HoldId(id, i)].slot == SlotFor(RulesOf(env, s, id)[i].quota, s.requests[id].ctx).value
    ensures s.landed[id] <= WEI_PER_GWEI * s.holds[HoldId(id, i)].amount
  {
    assert Covered(env, s, id);
    AttestedHolds(env, s, id, i);
    CeilGweiMonotone(s.landed[id], s.requests[id].ctx.maxCost);
    if s.rows[id].claimed.Some? {
      var event :| ClaimedBy(s, id, event);
      assert event == id;
    }
  }

  lemma InitialInv(env: Policies)
    ensures Inv(env, INITIAL)
  {
  }

  lemma InitialBooks(slot: string)
    ensures BooksAt(INITIAL.counters, INITIAL.holds, slot, 0, 0)
  {
  }

  /** Every run ends with its counters in step with its holds. */
  lemma RunBooks(env: Policies, steps: seq<Step>, slot: string)
    requires ValidRun(env, INITIAL, steps)
    ensures var s := After(env, INITIAL, steps);
            Inv(env, s) && BooksAt(s.counters, s.holds, slot, Stray(env, INITIAL, steps, slot), Missed(env, INITIAL, steps, slot))
  {
    InitialInv(env);
    InitialBooks(slot);
    RunKeepsInv(env, INITIAL, steps);
    RunKeepsBooks(env, INITIAL, steps, slot, 0, 0);
  }

  /** A charged request's quota stands at its place, and charges the counter. */
  lemma PlacedCharges(env: Policies, s: State, id: nat, q: Quota, key: string, start: nat)
    requires ChargedTo(env, s, id, q, key, start)
    ensures var i, rules := IndexOf(RulesOf(env, s, id), Reserve(q)), RulesOf(env, s, id);
            && i < |rules| && rules[i] == Reserve(q) && Charges(rules, s.requests[id].ctx, i)
            && SlotFor(q, s.requests[id].ctx) == Some(SlotName(key, q.windowSeconds, start))
  {
  }

  lemma LandedHeldAt(env: Policies, s: State, id: nat, i: nat, q: Quota, key: string, start: nat, query: Query)
    requires Inv(env, s) && q.unit == Wei && query == OfQuota(q, SlotName(key, q.windowSeconds, start))
    requires id in s.landed && ChargedTo(env, s, id, q, key, start) && i == IndexOf(RulesOf(env, s, id), Reserve(q))
    ensures HoldId(id, i) in s.holds && s.landed[id] <= WEI_PER_GWEI * query.Weight(s.holds[HoldId(id, i)])
  {
    PlacedCharges(env, s, id, q, key, start);
    LandedIsCovered(env, s, id, i);
  }

  lemma LandedWithinHeld(env: Policies, s: State, q: Quota, key: string, start: nat, query: Query)
    requires Inv(env, s) && q.unit == Wei && query == OfQuota(q, SlotName(key, q.windowSeconds, start))
    ensures Total(env, s, s.landed, q, key, start) <= WEI_PER_GWEI * Held(s.holds, query)
  {
    var costs, at := Charged(env, s, s.landed, q, key, start), Places(env, s, s.landed, q, key, start);
    forall id <- costs
      ensures HoldId(id, at[id]) in s.holds && costs[id] <= WEI_PER_GWEI * query.Weight(s.holds[HoldId(id, at[id])])
    {
      LandedHeldAt(env, s, id, at[id], q, key, start, query);
    }
    HoldsCoverCosts(costs, at, s.holds, query, WEI_PER_GWEI);
  }

  /** A wei quota's limit bounds what it holds, at a gwei each, but for the stray gwei. */
  lemma HeldIsWithinLimit(q: Quota, held: nat, stray: nat)
    requires q.unit == Wei && held <= CountedLimit(q) + stray
    ensures WEI_PER_GWEI * held <= q.limit + WEI_PER_GWEI * stray
  {
  }

  /**
   * The spend cap. In every run, for every wei quota and window, what landed operations attested in that window
   * actually cost exceeds the configured limit by no more than the gwei that refunds of other requests took off
   * its counter.
   */
  lemma SpendNeverPassesCap(env: Policies, steps: seq<Step>, q: Quota, key: string, start: nat)
    requires ValidRun(env, INITIAL, steps) && q.unit == Wei
    ensures var s := After(env, INITIAL, steps);
            Total(env, s, s.landed, q, key, start)
            <= q.limit + WEI_PER_GWEI * Stray(env, INITIAL, steps, SlotName(key, q.windowSeconds, start))
  {
    var slot, s := SlotName(key, q.windowSeconds, start), After(env, INITIAL, steps);
    RunBooks(env, steps, slot);
    LandedWithinHeld(env, s, q, key, start, OfQuota(q, slot));
    HeldIsWithinLimit(q, Held(s.holds, OfQuota(q, slot)), Stray(env, INITIAL, steps, slot));
  }

  /** One per attestation. */
  function Ones(rows: map<nat, Row>): map<nat, nat> {
    map id | id in rows :: 1
  }

  lemma AttestedHeldAt(env: Policies, s: State, id: nat, i: nat, q: Quota, key: string, start: nat, query: Query)
    requires Inv(env, s) && q.unit == Operations && query == OfQuota(q, SlotName(key, q.windowSeconds, start))
    requires id in s.rows && ChargedTo(env, s, id, q, key, start) && i == IndexOf(RulesOf(env, s, id), Reserve(q))
    ensures HoldId(id, i) in s.holds && 1 <= query.Weight(s.holds[HoldId(id, i)])
  {
    PlacedCharges(env, s, id, q, key, start);
    AttestedHolds(env, s, id, i);
  }

  lemma AttestedWithinHeld(env: Policies, s: State, q: Quota, key: string, start: nat, query: Query)
    requires Inv(env, s) && q.unit == Operations && query == OfQuota(q, SlotName(key, q.windowSeconds, start))
    ensures Total(env, s, Ones(s.rows), q, key, start) <= Held(s.holds, query)
  {
    var costs, at := Charged(env, s, Ones(s.rows), q, key, start), Places(env, s, Ones(s.rows), q, key, start);
    forall id <- costs
      ensures HoldId(id, at[id]) in s.holds && costs[id] <= 1 * query.Weight(s.holds[HoldId(id, at[id])])
    {
      AttestedHeldAt(env, s, id, at[id], q, key, start, query);
    }
    HoldsCoverCosts(costs, at, s.holds, query, 1);
  }

  /**
   * An operations quota: in every run the attestations recorded in one window exceed its limit by no more than what
   * refunds, which no operations quota takes part in, took off its counter.
   */
  lemma AttestationsNeverPassQuota(env: Policies, steps: seq<Step>, q: Quota, key: string, start: nat)
    requires ValidRun(env, INITIAL, steps) && q.unit == Operations
    ensures var s := After(env, INITIAL, steps);
            Total(env, s, Ones(s.rows), q, key, start) <= q.limit + Stray(env, INITIAL, steps, SlotName(key, q.windowSeconds, start))
  {
    var slot := SlotName(key, q.windowSeconds, start);
    RunBooks(env, steps, slot);
    AttestedWithinHeld(env, After(env, INITIAL, steps), q, key, start, OfQuota(q, slot));
  }

  /**
   * In every reachable state each counter is the holds on it, but for what refunds took off it for others or gave
   * back elsewhere of its own; and each quota's own holds fit its own limit, but for the former.
   */
  lemma CountersAreHolds(env: Policies, steps: seq<Step>, q: Quota, slot: string)
    requires ValidRun(env, INITIAL, steps)
    ensures var s, stray := After(env, INITIAL, steps), Stray(env, INITIAL, steps, slot);
            && Held(s.holds, OnSlot(slot)) <= Usage(s.counters, slot) + stray
            && Usage(s.counters, slot) <= Held(s.holds, OnSlot(slot)) + Missed(env, INITIAL, steps, slot)
            && Held(s.holds, OfQuota(q, slot)) <= CountedLimit(q) + stray
  {
    RunBooks(env, steps, slot);
  }

  // ---------------------------------------------------------------------------------------------
  // When a row's refund reaches the counter that was charged

  /** Exactly when: the row is stamped in the charged window, and a per-key quota had a key to charge. */
  lemma FaithfulExactly(q: Quota, ctx: Context, createdAt: nat)
    requires q.unit == Wei && q.subject in {Wallet, ApiKey, Chain, Global}
    ensures FaithfulFor(q, ctx, createdAt)
            <==> && WindowStart(createdAt, q.windowSeconds) == WindowStart(ctx.now, q.windowSeconds)
                 && (q.subject == ApiKey ==> ctx.fields.apiKeyId.Some?)
  {
    var r := TrueUpOf(ctx, createdAt, 0);
    var refund := KeyFor(q, SubjectFields(r.chainId, r.sender, None, r.apiKeyId, None));
    var charged := KeyFor(q, ctx.fields);
    if charged.Some? {
      assert refund == charged;
      if SlotName(refund.value, q.windowSeconds, WindowStart(createdAt, q.windowSeconds))
         == SlotName(charged.value, q.windowSeconds, WindowStart(ctx.now, q.windowSeconds)) {
        SlotNameInjective(refund.value, q.windowSeconds, WindowStart(createdAt, q.windowSeconds),
                          charged.value, q.windowSeconds, WindowStart(ctx.now, q.windowSeconds));
      }
    }
  }

  /** Per-address and per-target caps cannot be located from a row: they are never refunded. */
  lemma UnlocatedCapsStayConservative(q: Quota, ctx: Context, createdAt: nat, counters: Counters, actual: nat, link: Link)
    requires q.unit == Operations || q.subject == Ip || q.subject == Target
    ensures FaithfulFor(q, ctx, createdAt)
    ensures AfterTrueUp(q, counters, TrueUpOf(ctx, createdAt, actual), link) == counters
  {
  }

  /** Stamped in another window, a row's refund comes off that window's counter: budget of requests it never charged. */
  lemma MisstampedRefundFreesAnotherWindow(q: Quota, ctx: Context, createdAt: nat, counters: Counters, actual: nat)
    requires q.unit == Wei && q.subject == Global && CeilGwei(actual) < CeilGwei(ctx.maxCost)
    requires WindowStart(createdAt, q.windowSeconds) != WindowStart(ctx.now, q.windowSeconds)
    ensures SlotFor(q, ctx).Some? && SlotFor(q, ctx.(now := createdAt)).Some?
    ensures var charged, hit := SlotFor(q, ctx).value, SlotFor(q, ctx.(now := createdAt)).value;
            var after := AfterTrueUp(q, counters, TrueUpOf(ctx, createdAt, actual), Up);
            && charged != hit
            && Usage(after, charged) == Usage(counters, charged)
            && (Usage(counters, hit) > 0 ==> Usage(after, hit) < Usage(counters, hit))
  {
    FaithfulExactly(q, ctx, createdAt);
  }
}
