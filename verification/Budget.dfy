/**
 * The sponsorship budget protocol as a labelled transition system over the quota counters, the holds
 * that explain them, the requests in flight on any number of replicas, and the sponsorship rows.
 *
 * Every step is one atomic action: a store script, a SQL statement, or a local decision. A replica
 * that crashes takes no further step for its requests; a reconciler that crashes, finds the policy
 * unloaded, or loses a refund takes no further step for that refund.
 */
module Budget {
  import opened Text
  import opened Windows
  import opened QuotaStores
  import opened QuotaRules
  import opened Engine

  datatype PolicyKey = PolicyKey(tenant: string, policyId: string)

  /** Loaded policies, each in the engine's evaluation order. */
  type Policies = map<PolicyKey, seq<Rule>>

  /** What identifies an operation on chain; several attestations may be issued for one. */
  datatype Operation = Operation(chainId: nat, sender: string, nonce: nat)

  datatype Phase =
    | Evaluating(next: nat)           // rules before `next` have passed
    | Unwinding(pending: set<nat>)    // refused or failed; releases still to be tried
    | Attested                        // recorded and handed out

  datatype Request = Request(policy: PolicyKey, nonce: nat, ctx: Context, phase: Phase)

  /** A sponsorship row; `claimed` is the actual cost it was reconciled with. */
  datatype Row = Row(createdAt: nat, claimed: Option<nat>)

  /** A reservation as it still stands on a counter. */
  datatype Hold = Hold(quota: Quota, slot: string, amount: nat)

  datatype HoldId = HoldId(request: nat, rule: nat)

  datatype State = State(
    counters: Counters,
    holds: map<HoldId, Hold>,
    requests: map<nat, Request>,
    rows: map<nat, Row>,
    landed: map<nat, nat>,            // attestation an operation landed with, and its actual cost in wei
    refunds: set<HoldId>)             // claimed true-ups not yet tried

  const INITIAL := State(map[], map[], map[], map[], map[], {})

  datatype Step =
    | Arrive(id: nat, policy: PolicyKey, nonce: nat, ctx: Context)
    | Evaluate(id: nat, world: World)
    | Undo(id: nat, rule: nat, link: Link)
    | Fail(id: nat)                               // signing or recording failed
    | Record(id: nat, createdAt: nat)
    | Land(id: nat, cost: nat)
    | Claim(id: nat, event: nat)                     // row `id` claimed by the event of landed attestation `event`
    | Refund(id: nat, rule: nat, link: Link)

  function OperationOf(r: Request): Operation {
    Operation(r.ctx.fields.chainId, Lower(r.ctx.fields.sender), r.nonce)
  }

  function ReservingUpTo(rules: seq<Rule>, n: nat): set<nat>
    requires n <= |rules|
  {
    set j: nat | j < n && rules[j].Reserve?
  }

  /** The true-up the reconciler rebuilds from a row of this request. */
  function TrueUpOf(ctx: Context, createdAt: nat, actual: nat): SpendTrueUp {
    var key := if ctx.fields.apiKeyId.Some? then ctx.fields.apiKeyId.value else "anonymous";
    SpendTrueUp(ctx.fields.chainId, ctx.fields.sender, Some(key), ctx.maxCost, actual, createdAt)
  }

  /** A refund computed from the row lands on the counter the request was charged on. */
  predicate FaithfulFor(q: Quota, ctx: Context, createdAt: nat) {
    var slot := TrueUpSlot(q, TrueUpOf(ctx, createdAt, 0));
    slot.Some? ==> slot == SlotFor(q, ctx)
  }

  predicate RowFaithful(rules: seq<Rule>, ctx: Context, createdAt: nat) {
    forall i | 0 <= i < |rules| && rules[i].Reserve? :: FaithfulFor(rules[i].quota, ctx, createdAt)
  }

  predicate Known(env: Policies, s: State, id: nat) {
    id in s.requests && s.requests[id].policy in env
  }

  function RulesOf(env: Policies, s: State, id: nat): seq<Rule>
    requires Known(env, s, id)
  {
    env[s.requests[id].policy]
  }

  predicate Enabled(env: Policies, s: State, step: Step) {
    match step
    case Arrive(id, policy, _, _) => id !in s.requests && policy in env
    case Evaluate(id, _) =>
      && Known(env, s, id)
      && s.requests[id].phase.Evaluating? && s.requests[id].phase.next < |RulesOf(env, s, id)|
    case Undo(id, i, _) =>
      && Known(env, s, id) && s.requests[id].phase.Unwinding? && i in s.requests[id].phase.pending
      && i < |RulesOf(env, s, id)| && RulesOf(env, s, id)[i].Reserve?
    case Fail(id) =>
      Known(env, s, id) && s.requests[id].phase == Evaluating(|RulesOf(env, s, id)|)
    case Record(id, _) =>
      Known(env, s, id) && s.requests[id].phase == Evaluating(|RulesOf(env, s, id)|)
    case Land(id, cost) =>
      && Known(env, s, id) && s.requests[id].phase.Attested? && cost <= s.requests[id].ctx.maxCost
      && forall other <- s.landed ::
           other in s.requests && OperationOf(s.requests[other]) != OperationOf(s.requests[id])
    case Claim(id, event) =>
      && Known(env, s, id) && id in s.rows && s.rows[id].claimed.None?
      && event in s.landed && event in s.requests
      && OperationOf(s.requests[event]) == OperationOf(s.requests[id])
    case Refund(id, i, _) =>
      && Known(env, s, id) && HoldId(id, i) in s.refunds
      && i < |RulesOf(env, s, id)| && RulesOf(env, s, id)[i].Reserve?
      && id in s.rows && s.rows[id].claimed.Some?
  }

  function MoveTo(s: State, id: nat, phase: Phase): State
    requires id in s.requests
  {
    s.(requests := s.requests[id := s.requests[id].(phase := phase)])
  }

  /** A consume that is applied leaves a hold, whether or not its answer arrives. */
  function HoldsAfterEvaluate(s: State, id: nat, i: nat, q: Quota, ctx: Context, link: Link): map<HoldId, Hold> {
    match SlotFor(q, ctx)
    case None => s.holds
    case Some(slot) =>
      if link != RequestLost && Fits(s.counters, slot, AmountFor(q, ctx), CountedLimit(q))
      then s.holds[HoldId(id, i) := Hold(q, slot, AmountFor(q, ctx))] else s.holds
  }

  function HoldsAfterUndo(s: State, id: nat, i: nat, q: Quota, ctx: Context, link: Link): map<HoldId, Hold> {
    if SlotFor(q, ctx).None? || link == RequestLost then s.holds else s.holds - {HoldId(id, i)}
  }

  /** A hold less `amount`, down to zero. */
  function HoldsLess(holds: map<HoldId, Hold>, h: HoldId, amount: nat): map<HoldId, Hold> {
    if h !in holds then holds
    else holds[h := holds[h].(amount := if holds[h].amount <= amount then 0 else holds[h].amount - amount)]
  }

  function HoldsAfterRefund(s: State, h: HoldId, q: Quota, r: SpendTrueUp, link: Link): map<HoldId, Hold> {
    if TrueUpSlot(q, r).None? || OverReserved(r) == 0 || link == RequestLost then s.holds else HoldsLess(s.holds, h, OverReserved(r))
  }

  function Apply(env: Policies, s: State, step: Step): State
    requires Enabled(env, s, step)
  {
    match step
    case Arrive(id, policy, nonce, ctx) =>
      s.(requests := s.requests[id := Request(policy, nonce, ctx, Evaluating(0))])
    case Evaluate(id, world) =>
      var request := s.requests[id];
      var rules, i, ctx := env[request.policy], request.phase.next, request.ctx;
      var verdict := RuleVerdict(rules[i], s.counters, ctx, world);
      var moved := MoveTo(s, id, if verdict.Allow? then Evaluating(i + 1) else Unwinding(ReservingUpTo(rules, i)));
      if rules[i].Check? then moved
      else moved.(counters := AfterEvaluate(rules[i].quota, s.counters, ctx, world.link),
                  holds := HoldsAfterEvaluate(s, id, i, rules[i].quota, ctx, world.link))
    case Undo(id, i, link) =>
      var request := s.requests[id];
      var q := env[request.policy][i].quota;
      MoveTo(s, id, Unwinding(request.phase.pending - {i})).(
        counters := QuotaRules.AfterRelease(q, s.counters, request.ctx, link),
        holds := HoldsAfterUndo(s, id, i, q, request.ctx, link))
    case Fail(id) =>
      var rules := env[s.requests[id].policy];
      MoveTo(s, id, Unwinding(ReservingUpTo(rules, |rules|)))
    case Record(id, createdAt) =>
      MoveTo(s, id, Attested).(rows := s.rows[id := Row(createdAt, None)])
    case Land(id, cost) =>
      s.(landed := s.landed[id := cost])
    case Claim(id, event) =>
      var rules := env[s.requests[id].policy];
      s.(rows := s.rows[id := s.rows[id].(claimed := Some(s.landed[event]))],
         refunds := s.refunds + set i | i in ReservingUpTo(rules, |rules|) :: HoldId(id, i))
    case Refund(id, i, link) =>
      var request := s.requests[id];
      var q := env[request.policy][i].quota;
      var r := TrueUpOf(request.ctx, s.rows[id].createdAt, s.rows[id].claimed.value);
      s.(counters := AfterTrueUp(q, s.counters, r, link),
         holds := HoldsAfterRefund(s, HoldId(id, i), q, r, link),
         refunds := s.refunds - {HoldId(id, i)})
  }

  ghost predicate ValidRun(env: Policies, s: State, steps: seq<Step>)
    decreases steps
  {
    steps == [] || (Enabled(env, s, steps[0]) && ValidRun(env, Apply(env, s, steps[0]), steps[1..]))
  }

  ghost function After(env: Policies, s: State, steps: seq<Step>): State
    requires ValidRun(env, s, steps)
    decreases steps
  {
    if steps == [] then s else After(env, Apply(env, s, steps[0]), steps[1..])
  }

  /** A row is stamped so that its refunds reach the counters its request charged. */
  predicate Faithful(env: Policies, s: State, step: Step) {
    step.Record? && Known(env, s, step.id) ==> RowFaithful(RulesOf(env, s, step.id), s.requests[step.id].ctx, step.createdAt)
  }

  ghost predicate FaithfulRun(env: Policies, s: State, steps: seq<Step>)
    requires ValidRun(env, s, steps)
    decreases steps
  {
    steps == [] || (Faithful(env, s, steps[0]) && FaithfulRun(env, Apply(env, s, steps[0]), steps[1..]))
  }

  // ---------------------------------------------------------------------------------------------
  // Refunds that reach another counter

  /** What a step took off a counter. */
  function TakenOff(before: Counters, after: Counters, slot: string): nat {
    if Usage(after, slot) < Usage(before, slot) then Usage(before, slot) - Usage(after, slot) else 0
  }

  /** What a refund of a request charged on `charged` took off `slot`, when that is another counter. */
  function StrayIn(charged: Option<string>, before: Counters, after: Counters, slot: string): nat {
    if charged == Some(slot) then 0 else TakenOff(before, after, slot)
  }

  /** What a refund that reaches `reached` gave back of the hold `h` on `slot`, when that is another counter. */
  function MissedIn(reached: Option<string>, before: map<HoldId, Hold>, after: map<HoldId, Hold>, h: HoldId, slot: string): nat {
    var had, has := WeightAt(before, h, OnSlot(slot)), WeightAt(after, h, OnSlot(slot));
    if reached == Some(slot) || had <= has then 0 else had - has
  }

  /** What a step takes off `slot` as a refund of a request that was not charged there. */
  function StrayOf(env: Policies, s: State, step: Step, slot: string): nat
    requires Enabled(env, s, step)
  {
    if step.Refund?
    then StrayIn(SlotFor(RulesOf(env, s, step.id)[step.rule].quota, s.requests[step.id].ctx), s.counters, Apply(env, s, step).counters, slot)
    else 0
  }

  /** What a step gives back of a hold on `slot` by a refund that reaches another counter. */
  function MissedOf(env: Policies, s: State, step: Step, slot: string): nat
    requires Enabled(env, s, step)
  {
    if step.Refund? then
      var r := TrueUpOf(s.requests[step.id].ctx, s.rows[step.id].createdAt, s.rows[step.id].claimed.value);
      MissedIn(TrueUpSlot(RulesOf(env, s, step.id)[step.rule].quota, r), s.holds, Apply(env, s, step).holds, HoldId(step.id, step.rule), slot)
    else 0
  }

  /** The gwei that refunds took off `slot` over a run although their requests were not charged there. */
  ghost function Stray(env: Policies, s: State, steps: seq<Step>, slot: string): nat
    requires ValidRun(env, s, steps)
    decreases steps
  {
    if steps == [] then 0 else StrayOf(env, s, steps[0], slot) + Stray(env, Apply(env, s, steps[0]), steps[1..], slot)
  }

  /** The gwei of holds on `slot` that refunds over a run gave back on other counters. */
  ghost function Missed(env: Policies, s: State, steps: seq<Step>, slot: string): nat
    requires ValidRun(env, s, steps)
    decreases steps
  {
    if steps == [] then 0 else MissedOf(env, s, steps[0], slot) + Missed(env, Apply(env, s, steps[0]), steps[1..], slot)
  }

  /** A refund of this quota, from a row stamped `createdAt`, would reach `slot` although the quota charges elsewhere. */
  predicate StrayedTo(q: Quota, ctx: Context, createdAt: nat, slot: string) {
    TrueUpSlot(q, TrueUpOf(ctx, createdAt, 0)) == Some(slot) && SlotFor(q, ctx) != Some(slot)
  }

  predicate RowSpares(rules: seq<Rule>, ctx: Context, createdAt: nat, slot: string) {
    forall i | 0 <= i < |rules| && rules[i].Reserve? :: !StrayedTo(rules[i].quota, ctx, createdAt, slot)
  }

  /** A row is stamped so that none of its refunds reaches `slot` without having been charged there. */
  predicate Spares(env: Policies, s: State, step: Step, slot: string) {
    step.Record? && Known(env, s, step.id) ==> RowSpares(RulesOf(env, s, step.id), s.requests[step.id].ctx, step.createdAt, slot)
  }

  ghost predicate SparingRun(env: Policies, s: State, steps: seq<Step>, slot: string)
    requires ValidRun(env, s, steps)
    decreases steps
  {
    steps == [] || (Spares(env, s, steps[0], slot) && SparingRun(env, Apply(env, s, steps[0]), steps[1..], slot))
  }

  // ---------------------------------------------------------------------------------------------
  // Sums of holds

  /** All holds on a counter, or those of one quota on it. */
  datatype Query = OnSlot(slot: string) | OfQuota(quota: Quota, slot: string)
  {
    function Weight(h: Hold): nat {
      if h.slot == slot && (OfQuota? ==> h.quota == quota) then h.amount else 0
    }
  }

  ghost function Pick<K, V>(m: map<K, V>): K
    requires m != map[]
    ensures Pick(m) in m
  {
    assert m.Keys != {};
    var k :| k in m; k
  }

  lemma RemoveShrinks<K, V>(m: map<K, V>, k: K)
    requires k in m
    ensures |m - {k}| == |m| - 1
  {
    assert (m - {k}).Keys == m.Keys - {k};
  }

  ghost function Held(holds: map<HoldId, Hold>, q: Query): nat
    decreases |holds|
  {
    if holds == map[] then 0
    else
      var h := Pick(holds);
      RemoveShrinks(holds, h);
      q.Weight(holds[h]) + Held(holds - {h}, q)
  }

  lemma {:induction false} HeldRemove(holds: map<HoldId, Hold>, h: HoldId, q: Query)
    requires h in holds
    ensures Held(holds, q) == q.Weight(holds[h]) + Held(holds - {h}, q)
    decreases |holds|
  {
    var p := Pick(holds);
    RemoveShrinks(holds, p);
    if p != h {
      RemoveShrinks(holds, h);
      HeldRemove(holds - {p}, h, q);
      HeldRemove(holds - {h}, p, q);
      assert holds - {p} - {h} == holds - {h} - {p};
    }
  }

  function WeightAt(holds: map<HoldId, Hold>, h: HoldId, q: Query): nat {
    if h in holds then q.Weight(holds[h]) else 0
  }

  /** Two hold tables that differ at one hold differ in every sum by that hold's weight. */
  lemma HeldChange(before: map<HoldId, Hold>, after: map<HoldId, Hold>, h: HoldId, q: Query)
    requires before - {h} == after - {h}
    ensures Held(after, q) + WeightAt(before, h, q) == Held(before, q) + WeightAt(after, h, q)
  {
    if h in before { HeldRemove(before, h, q); } else { assert before - {h} == before; }
    if h in after { HeldRemove(after, h, q); } else { assert after - {h} == after; }
  }

  lemma {:induction false} QuotaHoldsWithinSlot(holds: map<HoldId, Hold>, quota: Quota, slot: string)
    ensures Held(holds, OfQuota(quota, slot)) <= Held(holds, OnSlot(slot))
    decreases |holds|
  {
    if holds != map[] {
      var p := Pick(holds);
      RemoveShrinks(holds, p);
      QuotaHoldsWithinSlot(holds - {p}, quota, slot);
    }
  }

  // ---------------------------------------------------------------------------------------------
  // The invariant

  /**
   * One counter beside the holds on it. It counts at least what they hold, but for the `stray` gwei that refunds of
   * requests charged elsewhere took off it, and at most that, but for the `missed` gwei whose refunds went
   * elsewhere. What one quota holds stays within that quota's own limit, whoever shares the counter, but for `stray`.
   */
  ghost predicate BooksAt(counters: Counters, holds: map<HoldId, Hold>, slot: string, stray: nat, missed: nat) {
    && Held(holds, OnSlot(slot)) <= Usage(counters, slot) + stray
    && Usage(counters, slot) <= Held(holds, OnSlot(slot)) + missed
    && forall quota: Quota :: Held(holds, OfQuota(quota, slot)) <= CountedLimit(quota) + stray
  }

  /** What a reservation must still hold once its row was reconciled with `actual`. */
  function Owed(q: Quota, ctx: Context, actual: nat): nat {
    if q.unit == Operations then 1
    else if CeilGwei(ctx.maxCost) <= CeilGwei(actual) then CeilGwei(ctx.maxCost) else CeilGwei(actual)
  }

  predicate Charges(rules: seq<Rule>, ctx: Context, i: nat)
    requires i < |rules|
  {
    rules[i].Reserve? && SlotFor(rules[i].quota, ctx).Some?
  }

  predicate Stands(holds: map<HoldId, Hold>, rules: seq<Rule>, ctx: Context, id: nat, i: nat)
    requires i < |rules|
  {
    Charges(rules, ctx, i) ==>
      && HoldId(id, i) in holds
      && holds[HoldId(id, i)] == Hold(rules[i].quota, SlotFor(rules[i].quota, ctx).value, AmountFor(rules[i].quota, ctx))
  }

  /** An unclaimed row holds its reservation; a claimed one that, or the smaller of reserved and actual, and nothing else. */
  predicate Settled(s: State, rules: seq<Rule>, ctx: Context, id: nat, i: nat)
    requires i < |rules| && id in s.rows
  {
    var row := s.rows[id];
    if row.claimed.None? || HoldId(id, i) in s.refunds then Stands(s.holds, rules, ctx, id, i)
    else Charges(rules, ctx, i) ==>
           && HoldId(id, i) in s.holds
           && var h := s.holds[HoldId(id, i)];
              && h.quota == rules[i].quota && h.slot == SlotFor(rules[i].quota, ctx).value
              && h.amount in {AmountFor(rules[i].quota, ctx), Owed(rules[i].quota, ctx, row.claimed.value)}
  }

  predicate Covered(env: Policies, s: State, id: nat)
    requires id in s.requests
  {
    var request := s.requests[id];
    && request.policy in env
    && var rules, ctx := env[request.policy], request.ctx;
       && (request.phase.Attested? <==> id in s.rows)
       && match request.phase
          case Evaluating(next) =>
            next <= |rules| && forall i | 0 <= i < next :: Stands(s.holds, rules, ctx, id, i)
          case Unwinding(pending) =>
            forall i <- pending :: i < |rules| && rules[i].Reserve? && Stands(s.holds, rules, ctx, id, i)
          case Attested => forall i | 0 <= i < |rules| :: Settled(s, rules, ctx, id, i)
  }

  predicate AllCovered(env: Policies, s: State) {
    forall id <- s.requests :: Covered(env, s, id)
  }

  predicate RowKnown(s: State, id: nat) {
    id in s.requests
  }

  /** A hold stands on the counter that its request's rule charges. */
  predicate HoldKnown(env: Policies, s: State, h: HoldId)
    requires h in s.holds
  {
    && Known(env, s, h.request) && h.rule < |RulesOf(env, s, h.request)|
    && Charges(RulesOf(env, s, h.request), s.requests[h.request].ctx, h.rule)
    && s.holds[h].quota == RulesOf(env, s, h.request)[h.rule].quota
    && s.holds[h].slot == SlotFor(s.holds[h].quota, s.requests[h.request].ctx).value
    && (s.requests[h.request].phase.Evaluating? ==> h.rule < s.requests[h.request].phase.next)
  }

  predicate RefundKnown(env: Policies, s: State, h: HoldId) {
    && h.request in s.rows && s.rows[h.request].claimed.Some? && Known(env, s, h.request)
    && h.rule < |RulesOf(env, s, h.request)| && RulesOf(env, s, h.request)[h.rule].Reserve?
  }

  predicate Accounted(env: Policies, s: State) {
    && AllCovered(env, s)
    && (forall id <- s.rows :: RowKnown(s, id))
    && (forall h <- s.holds :: HoldKnown(env, s, h))
    && (forall h <- s.refunds :: RefundKnown(env, s, h))
  }

  /** An operation lands once, within the maximum cost of the attestation it carries. */
  predicate LandedSound(s: State) {
    && (forall id <- s.landed ::
          id in s.requests && s.requests[id].phase.Attested? && s.landed[id] <= s.requests[id].ctx.maxCost)
    && (forall a <- s.landed, b <- s.landed ::
          OperationOf(s.requests[a]) == OperationOf(s.requests[b]) ==> a == b)
  }

  predicate ClaimedBy(s: State, id: nat, event: nat) {
    && id in s.rows && s.rows[id].claimed.Some? && id in s.requests
    && event in s.landed && event in s.requests
    && OperationOf(s.requests[event]) == OperationOf(s.requests[id])
    && s.landed[event] == s.rows[id].claimed.value
  }

  /** A claimed row was reconciled with the cost of its own operation. */
  ghost predicate ClaimsSound(s: State) {
    forall id <- s.rows | s.rows[id].claimed.Some? :: exists event :: ClaimedBy(s, id, event)
  }

  predicate RequestTraced(env: Policies, s: State, id: nat) {
    id in s.requests && s.requests[id].policy in env && (s.requests[id].phase.Attested? <==> id in s.rows)
  }

  /** What runs keep however their rows are stamped: which requests have rows, and what landings and claims say. */
  ghost predicate Traced(env: Policies, s: State) {
    && (forall id <- s.requests :: RequestTraced(env, s, id))
    && (forall id <- s.rows :: RowKnown(s, id))
    && (forall h <- s.refunds :: RefundKnown(env, s, h))
    && LandedSound(s) && ClaimsSound(s)
  }

  /** What every run keeps: every request's holds, on the counters it charged, and what landings and claims say. */
  ghost predicate Inv(env: Policies, s: State) {
    Accounted(env, s) && LandedSound(s) && ClaimsSound(s)
  }
}
