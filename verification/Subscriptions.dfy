/** Prepaid periods: recording a payment extends a subscription (subscriptionRepository.ts, subscription.ts). */
module Subscriptions {
  import opened Text

  const DEFAULT_GRACE_SECONDS: nat := 259_200

  datatype Subscription = Subscription(plan: string, paidThrough: nat, graceSeconds: nat)

  /** An on-chain transaction as the unique index sees it. */
  datatype TxRef = TxRef(chainId: nat, txHash: string)

  datatype Payment = Payment(tenant: string, amountWei: Option<nat>, tx: Option<TxRef>, extendedFrom: nat, extendedTo: nat)

  datatype PaymentRequest = PaymentRequest(
    tenant: string, plan: string, periodSeconds: int, amountWei: Option<nat>,
    chainId: Option<nat>, txHash: Option<string>, now: nat)

  datatype RecordError = DuplicatePayment(chainId: nat, txHash: string) | ConstraintViolated

  /** The two tables. */
  datatype Billing = Billing(payments: seq<Payment>, subscriptions: map<string, Subscription>)

  function PaidThrough(b: Billing, tenant: string): nat {
    if tenant in b.subscriptions then b.subscriptions[tenant].paidThrough else 0
  }

  function Max(a: int, b: int): int {
    if a < b then b else a
  }

  predicate IsRecorded(payments: seq<Payment>, tx: TxRef) {
    exists i | 0 <= i < |payments| :: payments[i].tx == Some(tx)
  }

  /** One serial call: the rows it leaves, and its answer. */
  function Record(b: Billing, q: PaymentRequest): (r: (Billing, Result<Payment, RecordError>))
    ensures r.1.Err? ==> r.0 == b
    ensures r.1 == Err(ConstraintViolated) <==> q.periodSeconds <= 0 || (q.chainId.Some? != q.txHash.Some?)
    ensures r.1.Err? && r.1.error.DuplicatePayment? <==>
              q.periodSeconds > 0 && q.chainId.Some? && q.txHash.Some? && IsRecorded(b.payments, TxRef(q.chainId.value, q.txHash.value))
    ensures r.1.Ok? ==>
              var p := r.1.value;
              && r.0.payments == b.payments + [p]
              && p.tenant == q.tenant && p.amountWei == q.amountWei && p.extendedTo == p.extendedFrom + q.periodSeconds
              && q.now <= p.extendedFrom && PaidThrough(b, q.tenant) <= p.extendedFrom
              && (p.extendedFrom == q.now || p.extendedFrom == PaidThrough(b, q.tenant))
              && (q.txHash.Some? ==> p.tx == Some(TxRef(q.chainId.value, q.txHash.value))) && (q.txHash.None? ==> p.tx == None)
              && r.0.subscriptions.Keys == b.subscriptions.Keys + {q.tenant}
              && (forall other <- b.subscriptions | other != q.tenant :: r.0.subscriptions[other] == b.subscriptions[other])
              && r.0.subscriptions[q.tenant].plan == q.plan && r.0.subscriptions[q.tenant].paidThrough == p.extendedTo
              && (q.tenant in b.subscriptions ==> r.0.subscriptions[q.tenant].graceSeconds == b.subscriptions[q.tenant].graceSeconds)
              && (q.tenant !in b.subscriptions ==> r.0.subscriptions[q.tenant].graceSeconds == 259_200)
  {
    var extendedFrom := Max(q.now, PaidThrough(b, q.tenant));
    var extendedTo := extendedFrom + q.periodSeconds;
    if extendedTo <= extendedFrom || q.chainId.None? != q.txHash.None? then (b, Err(ConstraintViolated))
    else if q.txHash.Some? && IsRecorded(b.payments, TxRef(q.chainId.value, q.txHash.value)) then
      (b, Err(DuplicatePayment(q.chainId.value, q.txHash.value)))
    else
      var tx := if q.txHash.None? then None else Some(TxRef(q.chainId.value, q.txHash.value));
      var payment := Payment(q.tenant, q.amountWei, tx, extendedFrom, extendedTo);
      var grace := if q.tenant in b.subscriptions then b.subscriptions[q.tenant].graceSeconds else DEFAULT_GRACE_SECONDS;
      (Billing(b.payments + [payment], b.subscriptions[q.tenant := Subscription(q.plan, extendedTo, grace)]), Ok(payment))
  }

  class SubscriptionRepository {
    var payments: seq<Payment>
    var subscriptions: map<string, Subscription>

    constructor ()
      ensures Contents() == Billing([], map[])
    {
      payments, subscriptions := [], map[];
    }

    function Contents(): Billing
      reads this
    {
      Billing(payments, subscriptions)
    }

    method Get(tenant: string) returns (subscription: Option<Subscription>)
      ensures subscription == if tenant in subscriptions then Some(subscriptions[tenant]) else None
    {
      return if tenant in subscriptions then Some(subscriptions[tenant]) else None;
    }

    /** INSERT into the payments table, under its constraints and its unique index. */
    method InsertPayment(payment: Payment, complete: bool) returns (outcome: Result<Payment, RecordError>)
      modifies `payments
      ensures outcome == (if payment.extendedTo <= payment.extendedFrom || !complete then Err(ConstraintViolated)
                          else if payment.tx.Some? && IsRecorded(old(payments), payment.tx.value)
                          then Err(DuplicatePayment(payment.tx.value.chainId, payment.tx.value.txHash))
                          else Ok(payment))
      ensures payments == if outcome.Ok? then old(payments) + [payment] else old(payments)
    {
      if payment.extendedTo <= payment.extendedFrom || !complete {
        return Err(ConstraintViolated);
      }
      if payment.tx.Some? {
        for i := 0 to |payments|
          invariant forall j | 0 <= j < i :: payments[j].tx != payment.tx
          invariant payments == old(payments)
        {
          if payments[i].tx == payment.tx {
            return Err(DuplicatePayment(payment.tx.value.chainId, payment.tx.value.txHash));
          }
        }
      }
      payments := payments + [payment];
      return Ok(payment);
    }

    /** One transaction: the payment row and the new end commit together, or nothing does. */
    method RecordPayment(q: PaymentRequest) returns (outcome: Result<Payment, RecordError>)
      modifies this
      ensures (Contents(), outcome) == Record(old(Contents()), q)
    {
      var currentPaidThrough := if q.tenant in subscriptions then subscriptions[q.tenant].paidThrough else 0;
      var extendedFrom := if q.now < currentPaidThrough then currentPaidThrough else q.now;
      if q.periodSeconds <= 0 {
        return Err(ConstraintViolated);
      }
      var extendedTo := extendedFrom + q.periodSeconds;
      var tx := if q.txHash.Some? && q.chainId.Some? then Some(TxRef(q.chainId.value, q.txHash.value)) else None;
      var payment := Payment(q.tenant, q.amountWei, tx, extendedFrom, extendedTo);
      outcome := InsertPayment(payment, q.chainId.None? == q.txHash.None?);
      if outcome.Ok? {
        var grace := if q.tenant in subscriptions then subscriptions[q.tenant].graceSeconds else DEFAULT_GRACE_SECONDS;
        subscriptions := subscriptions[q.tenant := Subscription(q.plan, extendedTo, grace)];
      }
    }

    method SetGraceSeconds(tenant: string, graceSeconds: nat)
      modifies `subscriptions
      ensures Contents() == WithGrace(old(Contents()), tenant, graceSeconds)
      ensures subscriptions == if tenant in old(subscriptions)
                               then old(subscriptions)[tenant := old(subscriptions)[tenant].(graceSeconds := graceSeconds)] else old(subscriptions)
    {
      if tenant in subscriptions {
        subscriptions := subscriptions[tenant := subscriptions[tenant].(graceSeconds := graceSeconds)];
      }
    }
  }

  function WithGrace(b: Billing, tenant: string, graceSeconds: nat): Billing {
    if tenant in b.subscriptions
    then b.(subscriptions := b.subscriptions[tenant := b.subscriptions[tenant].(graceSeconds := graceSeconds)])
    else b
  }

  // ---------------------------------------------------------------------------------------------
  // Runs of payments

  datatype Event = Pay(request: PaymentRequest) | SetGrace(tenant: string, graceSeconds: nat, at: nat)

  function At(e: Event): nat {
    if e.Pay? then e.request.now else e.at
  }

  /** Serial calls whose clock never goes back, none after `until`. */
  ghost predicate InOrder(events: seq<Event>, until: nat) {
    && (forall i, j | 0 <= i < j < |events| :: At(events[i]) <= At(events[j]))
    && (forall i | 0 <= i < |events| :: At(events[i]) <= until)
  }

  function Apply(b: Billing, e: Event): Billing {
    match e
    case Pay(request) => Record(b, request).0
    case SetGrace(tenant, graceSeconds, _) => WithGrace(b, tenant, graceSeconds)
  }

  function After(events: seq<Event>): Billing {
    if events == [] then Billing([], map[]) else Apply(After(events[..|events| - 1]), events[|events| - 1])
  }

  /** The seconds the accepted payments of `tenant` asked for. */
  function Bought(events: seq<Event>, tenant: string): int {
    if events == [] then 0
    else
      var before, e := events[..|events| - 1], events[|events| - 1];
      Bought(before, tenant)
      + if e.Pay? && e.request.tenant == tenant && Record(After(before), e.request).1.Ok? then e.request.periodSeconds else 0
  }

  function Covered(payments: seq<Payment>, tenant: string): int {
    if payments == [] then 0
    else
      var p := payments[|payments| - 1];
      Covered(payments[..|payments| - 1], tenant) + if p.tenant == tenant then p.extendedTo - p.extendedFrom else 0
  }

  predicate Holds(p: Payment, tenant: string, t: nat) {
    p.tenant == tenant && p.extendedFrom <= t <= p.extendedTo
  }

  ghost predicate BoughtAt(b: Billing, tenant: string, t: nat) {
    exists i | 0 <= i < |b.payments| :: Holds(b.payments[i], tenant, t)
  }

  /** A payment buys time, and its tenant is paid through at least its end. */
  ghost predicate WithinEnd(p: Payment, subscriptions: map<string, Subscription>) {
    && p.extendedFrom < p.extendedTo
    && p.tenant in subscriptions && p.extendedTo <= subscriptions[p.tenant].paidThrough
  }

  ghost predicate EndsAt(payments: seq<Payment>, tenant: string, end: nat) {
    exists i | 0 <= i < |payments| :: payments[i].tenant == tenant && payments[i].extendedTo == end
  }

  /** A tenant's intervals follow one another. */
  ghost predicate Sequential(payments: seq<Payment>) {
    forall i, j | 0 <= i < j < |payments| && payments[i].tenant == payments[j].tenant ::
      payments[i].extendedTo <= payments[j].extendedFrom
  }

  ghost predicate RecordedOnce(payments: seq<Payment>) {
    forall i, j | 0 <= i < j < |payments| && payments[i].tx.Some? :: payments[i].tx != payments[j].tx
  }

  /** What every run keeps: ordered intervals, their last end stored, and each transaction recorded at most once. */
  ghost predicate Orderly(b: Billing) {
    && (forall i | 0 <= i < |b.payments| :: WithinEnd(b.payments[i], b.subscriptions))
    && (forall tenant <- b.subscriptions :: EndsAt(b.payments, tenant, b.subscriptions[tenant].paidThrough))
    && Sequential(b.payments)
    && RecordedOnce(b.payments)
  }

  lemma EndsStay(payments: seq<Payment>, more: Payment, tenant: string, end: nat)
    requires EndsAt(payments, tenant, end)
    ensures EndsAt(payments + [more], tenant, end)
  {
    var i :| 0 <= i < |payments| && payments[i].tenant == tenant && payments[i].extendedTo == end;
    assert (payments + [more])[i] == payments[i];
  }

  lemma RecordKeepsEnds(b: Billing, q: PaymentRequest)
    requires Orderly(b) && Record(b, q).1.Ok?
    ensures var after := Record(b, q).0;
            && (forall i | 0 <= i < |after.payments| :: WithinEnd(after.payments[i], after.subscriptions))
            && forall tenant <- after.subscriptions :: EndsAt(after.payments, tenant, after.subscriptions[tenant].paidThrough)
  {
    var (after, outcome) := Record(b, q);
    var n := |b.payments|;
    assert after.payments[n] == outcome.value;
    forall i | 0 <= i < |after.payments| ensures WithinEnd(after.payments[i], after.subscriptions) {
      assert i < n ==> WithinEnd(b.payments[i], b.subscriptions);
    }
    forall tenant <- after.subscriptions ensures EndsAt(after.payments, tenant, after.subscriptions[tenant].paidThrough) {
      if tenant != q.tenant {
        EndsStay(b.payments, outcome.value, tenant, b.subscriptions[tenant].paidThrough);
      }
    }
  }

  lemma RecordKeepsOrder(b: Billing, q: PaymentRequest)
    requires Orderly(b) && Record(b, q).1.Ok?
    ensures Sequential(Record(b, q).0.payments) && RecordedOnce(Record(b, q).0.payments)
  {
    var payment := Record(b, q).1.value;
    forall i | 0 <= i < |b.payments|
      ensures b.payments[i].tenant == q.tenant ==> b.payments[i].extendedTo <= payment.extendedFrom
    {
      assert WithinEnd(b.payments[i], b.subscriptions);
    }
  }

  lemma RecordKeepsOrderly(b: Billing, q: PaymentRequest)
    requires Orderly(b)
    ensures Orderly(Record(b, q).0)
  {
    if Record(b, q).1.Ok? {
      RecordKeepsEnds(b, q);
      RecordKeepsOrder(b, q);
    }
  }

  lemma GraceKeepsOrderly(b: Billing, tenant: string, graceSeconds: nat)
    requires Orderly(b)
    ensures Orderly(WithGrace(b, tenant, graceSeconds))
  {
    var after := WithGrace(b, tenant, graceSeconds);
    forall i | 0 <= i < |after.payments| ensures WithinEnd(after.payments[i], after.subscriptions) {
      assert WithinEnd(b.payments[i], b.subscriptions);
    }
  }

  /** Every run leaves ordered, disjoint intervals per tenant, each transaction recorded at most once. */
  lemma {:induction false} IntervalsAreOrdered(events: seq<Event>)
    ensures Orderly(After(events))
  {
    if events != [] {
      IntervalsAreOrdered(events[..|events| - 1]);
      var before, e := After(events[..|events| - 1]), events[|events| - 1];
      if e.Pay? {
        RecordKeepsOrderly(before, e.request);
      } else {
        GraceKeepsOrderly(before, e.tenant, e.graceSeconds);
      }
    }
  }

  lemma CoveredGrows(payments: seq<Payment>, p: Payment, tenant: string)
    ensures Covered(payments + [p], tenant) == Covered(payments, tenant) + if p.tenant == tenant then p.extendedTo - p.extendedFrom else 0
  {
    assert (payments + [p])[..|payments|] == payments;
  }

  /** An event covers exactly the seconds it buys. */
  lemma EventCovers(b: Billing, e: Event, tenant: string)
    ensures Covered(Apply(b, e).payments, tenant)
            == Covered(b.payments, tenant)
               + if e.Pay? && e.request.tenant == tenant && Record(b, e.request).1.Ok? then e.request.periodSeconds else 0
  {
    if e.Pay? && Record(b, e.request).1.Ok? {
      CoveredGrows(b.payments, Record(b, e.request).1.value, tenant);
    }
  }

  /** Time is neither lost nor given away: what the intervals cover is what was bought. */
  lemma {:induction false} TimeIsConserved(events: seq<Event>, tenant: string)
    ensures Covered(After(events).payments, tenant) == Bought(events, tenant)
  {
    if events == [] {
      assert After(events).payments == [];
    } else {
      var before, e := events[..|events| - 1], events[|events| - 1];
      TimeIsConserved(before, tenant);
      EventCovers(After(before), e, tenant);
    }
  }

  lemma CoverageExtends(before: Billing, q: PaymentRequest, tenant: string, until: nat)
    requires Record(before, q).1.Ok? && q.now <= until
    requires q.now <= until <= PaidThrough(before, tenant) ==> BoughtAt(before, tenant, until)
    requires tenant in Record(before, q).0.subscriptions && until <= PaidThrough(Record(before, q).0, tenant)
    ensures BoughtAt(Record(before, q).0, tenant, until)
  {
    var after := Record(before, q).0;
    var n := |before.payments|;
    if tenant == q.tenant && after.payments[n].extendedFrom <= until {
      assert Holds(after.payments[n], tenant, until);
    } else {
      var i :| 0 <= i < n && Holds(before.payments[i], tenant, until);
      assert after.payments[i] == before.payments[i];
    }
  }

  /** A paid-up instant that no payment postdates lies in a purchased interval. */
  lemma {:induction false} PaidUpWasBought(events: seq<Event>, tenant: string, until: nat)
    requires InOrder(events, until)
    requires tenant in After(events).subscriptions && until <= PaidThrough(After(events), tenant)
    ensures BoughtAt(After(events), tenant, until)
  {
    if events != [] {
      var front, e := events[..|events| - 1], events[|events| - 1];
      var before := After(front);
      assert InOrder(front, until);
      if e.Pay? && Record(before, e.request).1.Ok? {
        if until <= PaidThrough(before, tenant) && tenant in before.subscriptions {
          PaidUpWasBought(front, tenant, until);
        }
        if tenant !in before.subscriptions && PaidThrough(before, tenant) == until {
          assert until == 0 == e.request.now;
          assert After(events).payments[|before.payments|].extendedFrom == 0;
          assert Holds(After(events).payments[|before.payments|], tenant, until);
        } else {
          CoverageExtends(before, e.request, tenant, until);
        }
      } else {
        PaidUpWasBought(front, tenant, until);
        assert After(events).payments == before.payments;
      }
    }
  }

  /**
   * Paid time is exact: after any serial run with a clock that does not go back, a tenant is active at
   * `t` if and only if `t` lies in an interval bought by then.
   */
  lemma ActiveExactlyWhenBought(events: seq<Event>, tenant: string, t: nat)
    requires InOrder(events, t)
    ensures var b := After(events);
            (tenant in b.subscriptions && t <= b.subscriptions[tenant].paidThrough) <==> BoughtAt(b, tenant, t)
  {
    IntervalsAreOrdered(events);
    var b := After(events);
    if tenant in b.subscriptions && t <= b.subscriptions[tenant].paidThrough {
      PaidUpWasBought(events, tenant, t);
    }
  }
}
