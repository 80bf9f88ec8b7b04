/** Self-service claims: a transfer read from the chain buys time, once (paymentVerifier.ts, admin.service.ts). */
module PaymentClaims {
  import opened Text
  import opened Subscriptions

  const MAX_CLAIM_EXTENSION_SECONDS: nat := 63_072_000
  const MIN_PERIOD_SECONDS: nat := 86_400
  const MAX_PERIOD_SECONDS: nat := 63_072_000

  datatype Plan = Plan(id: string, periodSeconds: nat, priceWei: map<nat, nat>)

  /** What the plan schema admits. */
  ghost predicate InSchema(plan: Plan) {
    && MIN_PERIOD_SECONDS <= plan.periodSeconds <= MAX_PERIOD_SECONDS
    && forall chain <- plan.priceWei :: plan.priceWei[chain] > 0
  }

  datatype VerifierOptions = VerifierOptions(treasury: string, confirmations: nat, maxPeriodsPerPayment: nat)

  /** What a transaction's hash fixes. */
  datatype Transfer = Transfer(to: Option<string>, valueWei: nat, input: string)

  /** How the chain reports a mined transaction. */
  datatype Mined = Mined(transfer: Transfer, success: bool, blockNumber: nat)

  datatype Refusal = NotSoldOnChain | NotFound | Reverted | WrongRecipient | WrongAccount | Underpaid | Unconfirmed

  datatype Verified = Verified(amountWei: nat, periods: nat)

  function Min(a: int, b: int): int {
    if a < b then a else b
  }

  predicate SentTo(transfer: Transfer, treasury: string) {
    transfer.to.Some? && Lower(transfer.to.value) == Lower(treasury)
  }

  /** A transfer that the plan can be bought with went through: it is sold there, mined, and did not revert. */
  predicate WentThrough(chainId: nat, mined: Option<Mined>, plan: Plan) {
    chainId in plan.priceWei && mined.Some? && mined.value.success
  }

  /** And it names the account that claims it, at the treasury. */
  predicate IsForClaim(chainId: nat, mined: Option<Mined>, reference: string, plan: Plan, o: VerifierOptions) {
    && WentThrough(chainId, mined, plan)
    && SentTo(mined.value.transfer, o.treasury) && Lower(mined.value.transfer.input) == Lower(reference)
  }

  /**
   * `reference` is the calldata a payment for the tenant must carry. A payment is accepted exactly when it went
   * through, is for the claim, pays one period at least and is deep enough; each refusal names the first that is missing.
   */
  function Verify(chainId: nat, mined: Option<Mined>, head: nat, reference: string, plan: Plan, o: VerifierOptions)
    : (r: Result<Verified, Refusal>)
    requires InSchema(plan)
    ensures r.Ok? <==>
              && IsForClaim(chainId, mined, reference, plan, o)
              && mined.value.transfer.valueWei >= plan.priceWei[chainId]
              && head + 1 >= mined.value.blockNumber + o.confirmations
    ensures r == Err(NotSoldOnChain) <==> chainId !in plan.priceWei
    ensures r == Err(NotFound) <==> chainId in plan.priceWei && mined.None?
    ensures r == Err(Reverted) <==> chainId in plan.priceWei && mined.Some? && !mined.value.success
    ensures r == Err(WrongRecipient) <==> WentThrough(chainId, mined, plan) && !SentTo(mined.value.transfer, o.treasury)
    ensures r == Err(WrongAccount) <==>
              && WentThrough(chainId, mined, plan) && SentTo(mined.value.transfer, o.treasury)
              && Lower(mined.value.transfer.input) != Lower(reference)
    ensures r == Err(Underpaid) <==>
              IsForClaim(chainId, mined, reference, plan, o) && mined.value.transfer.valueWei < plan.priceWei[chainId]
    ensures r == Err(Unconfirmed) <==>
              && IsForClaim(chainId, mined, reference, plan, o) && mined.value.transfer.valueWei >= plan.priceWei[chainId]
              && head + 1 < mined.value.blockNumber + o.confirmations
    ensures r.Ok? ==>
              && r.value.amountWei == mined.value.transfer.valueWei
              && 1 <= r.value.periods && r.value.periods * plan.priceWei[chainId] <= r.value.amountWei
  {
    if chainId !in plan.priceWei then Err(NotSoldOnChain)
    else if mined.None? then Err(NotFound)
    else
      var price, m := plan.priceWei[chainId], mined.value;
      if !m.success then Err(Reverted)
      else if m.transfer.to.None? || Lower(m.transfer.to.value) != Lower(o.treasury) then Err(WrongRecipient)
      else if Lower(m.transfer.input) != Lower(reference) then Err(WrongAccount)
      else if m.transfer.valueWei < price then Err(Underpaid)
      else if head - m.blockNumber + 1 < o.confirmations then Err(Unconfirmed)
      else
        var periods := Max(1, Min(m.transfer.valueWei / price, o.maxPeriodsPerPayment));
        PeriodsArePaid(m.transfer.valueWei, price, o.maxPeriodsPerPayment);
        Ok(Verified(m.transfer.valueWei, periods))
  }

  lemma PeriodsArePaid(value: nat, price: nat, cap: nat)
    requires 0 < price <= value
    ensures 1 <= Max(1, Min(value / price, cap)) <= value / price
    ensures Max(1, Min(value / price, cap)) * price <= value
  {
    assert value / price >= 1;
    Scale(Max(1, Min(value / price, cap)), value / price, price);
  }

  lemma Scale(a: nat, b: nat, unit: nat)
    requires a <= b
    ensures a * unit <= b * unit
  {
  }

  /**
   * As the chain grows an acceptance stands, a refusal for want of confirmations ends exactly when the payment is
   * deep enough, and any other refusal of a mined payment is final.
   */
  lemma OnlyDepthIsWaitedFor(chainId: nat, mined: Mined, head: nat, later: nat, reference: string, plan: Plan, o: VerifierOptions)
    requires InSchema(plan) && head <= later
    ensures var now, after := Verify(chainId, Some(mined), head, reference, plan, o), Verify(chainId, Some(mined), later, reference, plan, o);
            if now == Err(Unconfirmed)
            then after.Ok? <==> later + 1 >= mined.blockNumber + o.confirmations
            else after == now
  {
  }

  datatype ClaimRequest = ClaimRequest(tenant: string, chainId: nat, txHash: string, plan: Plan, now: nat)

  datatype ClaimError = Refused(why: Refusal) | NotRecorded(error: RecordError)

  /** The periods one claim credits. */
  function Credited(verified: Verified, plan: Plan): (n: nat)
    requires InSchema(plan)
  {
    Min(verified.periods, Max(1, MAX_CLAIM_EXTENSION_SECONDS / plan.periodSeconds))
  }

  function RecordedAs(q: ClaimRequest, v: Verified): PaymentRequest
    requires InSchema(q.plan)
  {
    PaymentRequest(q.tenant, q.plan.id, q.plan.periodSeconds * Credited(v, q.plan), Some(v.amountWei),
                   Some(q.chainId), Some(Lower(q.txHash)), q.now)
  }

  function Claim(b: Billing, q: ClaimRequest, mined: Option<Mined>, head: nat, reference: string, o: VerifierOptions)
    : (Billing, Result<Payment, ClaimError>)
    requires InSchema(q.plan)
  {
    match Verify(q.chainId, mined, head, reference, q.plan, o)
    case Err(why) => (b, Err(Refused(why)))
    case Ok(v) =>
      var (after, outcome) := Record(b, RecordedAs(q, v));
      (after, if outcome.Ok? then Ok(outcome.value) else Err(NotRecorded(outcome.error)))
  }

  class ClaimService {
    const repository: SubscriptionRepository
    const options: VerifierOptions

    constructor (repository: SubscriptionRepository, options: VerifierOptions)
      ensures this.repository == repository && this.options == options
    {
      this.repository, this.options := repository, options;
    }

    /** Verifies on chain, then records under the lower-cased hash. */
    method ClaimSubscriptionPayment(q: ClaimRequest, mined: Option<Mined>, head: nat, reference: string)
      returns (outcome: Result<Payment, ClaimError>)
      requires InSchema(q.plan)
      modifies repository
      ensures (repository.Contents(), outcome) == Claim(old(repository.Contents()), q, mined, head, reference, options)
    {
      var verified := Verify(q.chainId, mined, head, reference, q.plan, options);
      if verified.Err? {
        return Err(Refused(verified.error));
      }
      var longest := MAX_CLAIM_EXTENSION_SECONDS / q.plan.periodSeconds;
      var periods := Min(verified.value.periods, Max(1, longest));
      var recorded := repository.RecordPayment(
        PaymentRequest(q.tenant, q.plan.id, q.plan.periodSeconds * periods, Some(verified.value.amountWei),
                       Some(q.chainId), Some(Lower(q.txHash)), q.now));
      outcome := if recorded.Ok? then Ok(recorded.value) else Err(NotRecorded(recorded.error));
    }
  }

  /** One claim extends by whole periods that were paid for, and never by more than two years. */
  lemma ClaimIsBounded(b: Billing, q: ClaimRequest, mined: Option<Mined>, head: nat, reference: string, o: VerifierOptions)
    requires InSchema(q.plan) && Claim(b, q, mined, head, reference, o).1.Ok?
    ensures var payment, v := Claim(b, q, mined, head, reference, o).1.value, Verify(q.chainId, mined, head, reference, q.plan, o).value;
            var periods := Credited(v, q.plan);
            && periods >= 1 && payment.extendedTo - payment.extendedFrom == periods * q.plan.periodSeconds
            && payment.extendedTo - payment.extendedFrom <= MAX_CLAIM_EXTENSION_SECONDS
            && periods * q.plan.priceWei[q.chainId] <= mined.value.transfer.valueWei
            && payment.amountWei == Some(mined.value.transfer.valueWei)
            && payment.tx == Some(TxRef(q.chainId, Lower(q.txHash))) && payment.tenant == q.tenant
            && payment.extendedFrom == Max(q.now, PaidThrough(b, q.tenant))
            && Claim(b, q, mined, head, reference, o).0.payments == b.payments + [payment]
  {
    var v := Verify(q.chainId, mined, head, reference, q.plan, o).value;
    var periods, longest := Credited(v, q.plan), Max(1, MAX_CLAIM_EXTENSION_SECONDS / q.plan.periodSeconds);
    Scale(periods, v.periods, q.plan.priceWei[q.chainId]);
    Scale(periods, longest, q.plan.periodSeconds);
    WholePeriodsFit(q.plan.periodSeconds);
  }

  lemma QuotientFits(n: nat, d: nat)
    requires d > 0
    ensures n / d * d <= n
  {
    assert n == n / d * d + n % d;
  }

  lemma WholePeriodsFit(period: nat)
    requires MIN_PERIOD_SECONDS <= period <= MAX_PERIOD_SECONDS
    ensures Max(1, MAX_CLAIM_EXTENSION_SECONDS / period) * period <= MAX_CLAIM_EXTENSION_SECONDS
  {
    QuotientFits(MAX_CLAIM_EXTENSION_SECONDS, period);
  }

  /** Nor does it credit less than it could: one more period would be unpaid, over the cap, or beyond two years. */
  lemma ClaimIsMaximal(q: ClaimRequest, mined: Option<Mined>, head: nat, reference: string, o: VerifierOptions)
    requires InSchema(q.plan) && Verify(q.chainId, mined, head, reference, q.plan, o).Ok?
    ensures var v := Verify(q.chainId, mined, head, reference, q.plan, o).value;
            var more := Credited(v, q.plan) + 1;
            || more * q.plan.priceWei[q.chainId] > mined.value.transfer.valueWei
            || more > o.maxPeriodsPerPayment
            || more * q.plan.periodSeconds > MAX_CLAIM_EXTENSION_SECONDS
  {
    var v := Verify(q.chainId, mined, head, reference, q.plan, o).value;
    NextMultiple(mined.value.transfer.valueWei, q.plan.priceWei[q.chainId]);
    NextMultiple(MAX_CLAIM_EXTENSION_SECONDS, q.plan.periodSeconds);
  }

  lemma NextMultiple(n: nat, d: nat)
    requires d > 0
    ensures (n / d + 1) * d > n
    ensures n / d < 1 ==> 2 * d > n
  {
    assert n == n / d * d + n % d;
    assert (n / d + 1) * d == n / d * d + d;
  }
}
