/**
 * Which plan a tenant's prepaid time is served under. A payment relabels all the time still left with the plan it
 * buys (subscriptionRepository.ts), so time bought at one plan's price can be served under another.
 */
module PlanTime {
  import opened Text
  import opened Subscriptions

  /** The prepaid seconds that lie after `t`, if they stand under `plan`. */
  function Left(b: Billing, tenant: string, plan: string, t: nat): nat {
    if tenant in b.subscriptions && b.subscriptions[tenant].plan == plan && t < b.subscriptions[tenant].paidThrough
    then b.subscriptions[tenant].paidThrough - t else 0
  }

  /** The seconds from `from` to `to` that are prepaid, if they stand under `plan`. */
  function ServedIn(b: Billing, tenant: string, plan: string, from: nat, to: nat): int
    requires from <= to
  {
    if tenant !in b.subscriptions || b.subscriptions[tenant].plan != plan then 0
    else
      var end := b.subscriptions[tenant].paidThrough;
      if end <= from then 0 else if end <= to then end - from else to - from
  }

  /** The seconds served under `plan` up to `until`, between one event and the next. */
  function Served(events: seq<Event>, tenant: string, plan: string, until: nat): int
    requires InOrder(events, until)
  {
    if events == [] then 0
    else
      var front, e := events[..|events| - 1], events[|events| - 1];
      Served(front, tenant, plan, At(e)) + ServedIn(After(events), tenant, plan, At(e), until)
  }

  predicate Accepted(b: Billing, e: Event, tenant: string) {
    e.Pay? && e.request.tenant == tenant && Record(b, e.request).1.Ok?
  }

  /** The seconds bought at the price of `plan`. */
  function BoughtAs(events: seq<Event>, tenant: string, plan: string): int {
    if events == [] then 0
    else
      var front, e := events[..|events| - 1], events[|events| - 1];
      BoughtAs(front, tenant, plan)
      + if Accepted(After(front), e, tenant) && e.request.plan == plan then e.request.periodSeconds else 0
  }

  /** The seconds that a payment takes from `from` to the plan it buys. */
  function Relabelled(b: Billing, e: Event, tenant: string, from: string): nat {
    if Accepted(b, e, tenant) && e.request.plan != from then Left(b, tenant, from, e.request.now) else 0
  }

  /** What plan a tenant's time stands under. */
  function PlanOf(b: Billing, tenant: string): Option<string> {
    if tenant in b.subscriptions then Some(b.subscriptions[tenant].plan) else None
  }

  /** The seconds that a payment brings to `plan` from the plan held so far. */
  function Brought(b: Billing, e: Event, tenant: string, plan: string): nat {
    var held := PlanOf(b, tenant);
    if held.Some? && e.Pay? && e.request.plan == plan then Relabelled(b, e, tenant, held.value) else 0
  }

  /** The seconds relabelled from other plans to `plan`. */
  function Gained(events: seq<Event>, tenant: string, plan: string): nat {
    if events == [] then 0
    else
      var front, e := events[..|events| - 1], events[|events| - 1];
      Gained(front, tenant, plan) + Brought(After(front), e, tenant, plan)
  }

  /** The seconds relabelled from `plan` to others. */
  function Lost(events: seq<Event>, tenant: string, plan: string): nat {
    if events == [] then 0
    else
      var front, e := events[..|events| - 1], events[|events| - 1];
      Lost(front, tenant, plan) + Relabelled(After(front), e, tenant, plan)
  }

  lemma TimePasses(b: Billing, tenant: string, plan: string, from: nat, to: nat)
    requires from <= to
    ensures ServedIn(b, tenant, plan, from, to) == Left(b, tenant, plan, from) - Left(b, tenant, plan, to)
  {
  }

  /** What an event changes of the time left under a plan: bought and gained, less lost. */
  lemma EventMoves(b: Billing, e: Event, tenant: string, plan: string)
    ensures var bought := if Accepted(b, e, tenant) && e.request.plan == plan then e.request.periodSeconds else 0;
            Left(Subscriptions.Apply(b, e), tenant, plan, At(e))
            == Left(b, tenant, plan, At(e)) + bought + Brought(b, e, tenant, plan) - Relabelled(b, e, tenant, plan)
  {
  }

  /**
   * Conservation, plan by plan: what was served and what is left is what was bought at the plan's price, and what
   * other plans lost to it, less what it lost to them.
   */
  lemma {:induction false} PlanTimeIsConserved(events: seq<Event>, tenant: string, plan: string, until: nat)
    requires InOrder(events, until)
    ensures Served(events, tenant, plan, until) + Left(After(events), tenant, plan, until) + Lost(events, tenant, plan)
            == BoughtAs(events, tenant, plan) + Gained(events, tenant, plan)
    decreases |events|
  {
    if events == [] {
    } else {
      var front, e := events[..|events| - 1], events[|events| - 1];
      PlanTimeIsConserved(front, tenant, plan, At(e));
      EventMoves(After(front), e, tenant, plan);
      TimePasses(After(events), tenant, plan, At(e), until);
    }
  }

  /** Time served under a plan never exceeds what was bought at its price and what it gained, less what it lost. */
  lemma ServedWithinBought(events: seq<Event>, tenant: string, plan: string, until: nat)
    requires InOrder(events, until)
    ensures Served(events, tenant, plan, until) <= BoughtAs(events, tenant, plan) + Gained(events, tenant, plan) - Lost(events, tenant, plan)
  {
    PlanTimeIsConserved(events, tenant, plan, until);
  }

  lemma LaterInOrder(events: seq<Event>, until: nat, later: nat)
    requires InOrder(events, until) && until <= later
    ensures InOrder(events, later)
  {
  }

  ghost predicate WithinAt(events: seq<Event>, tenant: string, plan: string, until: nat) {
    InOrder(events, until) ==> Served(events, tenant, plan, until) <= BoughtAs(events, tenant, plan)
  }

  /**
   * Exactly when: without further events a plan is at no time served for longer than was bought at its price if
   * and only if it gained no more time from other plans than it lost to them.
   */
  lemma ServedBeyondBoughtExactly(events: seq<Event>, tenant: string, plan: string, last: nat)
    requires InOrder(events, last)
    ensures (forall until :: WithinAt(events, tenant, plan, until)) <==> Gained(events, tenant, plan) <= Lost(events, tenant, plan)
  {
    forall until ensures Gained(events, tenant, plan) <= Lost(events, tenant, plan) ==> WithinAt(events, tenant, plan, until) {
      if InOrder(events, until) {
        ServedWithinBought(events, tenant, plan, until);
      }
    }
    var end := if PaidThrough(After(events), tenant) > last then PaidThrough(After(events), tenant) else last;
    LaterInOrder(events, last, end);
    PlanTimeIsConserved(events, tenant, plan, end);
    assert Left(After(events), tenant, plan, end) == 0;
    assert WithinAt(events, tenant, plan, end) ==> Gained(events, tenant, plan) <= Lost(events, tenant, plan);
  }

  /** Every accepted payment that changes the plan comes when no prepaid time is left. */
  ghost predicate SwitchesAtExpiry(events: seq<Event>, tenant: string) {
    forall k | 0 <= k < |events| :: SwitchAtExpiry(After(events[..k]), events[k], tenant)
  }

  predicate SwitchAtExpiry(b: Billing, e: Event, tenant: string) {
    Accepted(b, e, tenant) && PlanOf(b, tenant).Some? && PlanOf(b, tenant) != Some(e.request.plan)
    ==> PaidThrough(b, tenant) <= e.request.now
  }

  lemma {:induction false} ExpiryRelabelsNothing(events: seq<Event>, tenant: string, plan: string)
    requires SwitchesAtExpiry(events, tenant)
    ensures Gained(events, tenant, plan) == 0 == Lost(events, tenant, plan)
    decreases |events|
  {
    if events == [] {
    } else {
      var n := |events| - 1;
      var front := events[..n];
      forall k | 0 <= k < n ensures SwitchAtExpiry(After(front[..k]), front[k], tenant) {
        assert front[..k] == events[..k];
      }
      ExpiryRelabelsNothing(front, tenant, plan);
      assert SwitchAtExpiry(After(front), events[n], tenant);
    }
  }

  /** A tenant that changes plan only when its time is up is served every plan for no longer than it bought it. */
  lemma SwitchingAtExpiryIsFair(events: seq<Event>, tenant: string, plan: string, until: nat)
    requires InOrder(events, until) && SwitchesAtExpiry(events, tenant)
    ensures Served(events, tenant, plan, until) <= BoughtAs(events, tenant, plan)
  {
    ExpiryRelabelsNothing(events, tenant, plan);
    ServedWithinBought(events, tenant, plan, until);
  }

  /** A period bought at one price, then one of another plan at once: both are served under the second. */
  lemma SecondPlanServesBoth(first: PaymentRequest, second: PaymentRequest)
    requires first.tenant == second.tenant && first.plan != second.plan && first.now == second.now
    requires first.periodSeconds > 0 && second.periodSeconds > 0 && first.txHash.None? && second.txHash.None?
    requires first.chainId.None? && second.chainId.None?
    ensures var events, end := [Pay(first), Pay(second)], first.now + first.periodSeconds + second.periodSeconds;
            && InOrder(events, end)
            && BoughtAs(events, first.tenant, second.plan) == second.periodSeconds
            && Served(events, first.tenant, second.plan, end) == first.periodSeconds + second.periodSeconds
  {
    var events, end := [Pay(first), Pay(second)], first.now + first.periodSeconds + second.periodSeconds;
    var one := [Pay(first)];
    assert events[..1] == one && one[..0] == [];
    var b := After(one);
    assert one[..|one| - 1] == [] && After([]) == Billing([], map[]);
    assert b == Record(Billing([], map[]), first).0;
    assert b.subscriptions[first.tenant].paidThrough == first.now + first.periodSeconds;
    assert After(events) == Record(b, second).0 && Record(b, second).1.Ok?;
    assert After(events).subscriptions[first.tenant].paidThrough == end;
    assert Served(one, first.tenant, second.plan, first.now) == 0;
    assert BoughtAs(one, first.tenant, second.plan) == 0;
  }
}
