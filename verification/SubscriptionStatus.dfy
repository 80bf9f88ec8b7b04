/** What a subscription allows right now, from a cached row and the clock (subscription.ts). */
module SubscriptionStatus {
  import opened Text
  import opened Subscriptions

  datatype State = Active | Grace | Lapsed | NoSubscription

  datatype Status = Status(state: State, paidThrough: Option<nat>, graceEndsAt: Option<nat>, allowsSponsorship: bool, renewalDue: bool)

  datatype StatusOptions = StatusOptions(unsubscribedAllows: bool, ttlMs: nat, noticeSeconds: nat)

  function Describe(subscription: Option<Subscription>, now: nat, o: StatusOptions): Status {
    match subscription
    case None => Status(NoSubscription, None, None, o.unsubscribedAllows, false)
    case Some(s) =>
      var graceEndsAt := s.paidThrough + s.graceSeconds;
      var state := if now <= s.paidThrough then Active else if now <= graceEndsAt then Grace else Lapsed;
      Status(state, Some(s.paidThrough), Some(graceEndsAt), state != Lapsed,
             state == Grace || (state == Active && now >= s.paidThrough - o.noticeSeconds))
  }

  datatype TenantStatus = TenantActive | TenantSuspended

  datatype Notice = RenewalDue | InGrace

  /** The rows the notice sweep selects, before it drops those already notified. */
  function DueForNotice(s: Subscription, tenant: TenantStatus, now: nat, noticeSeconds: nat): Option<Notice> {
    if tenant == TenantActive && s.paidThrough <= now + noticeSeconds && s.paidThrough + s.graceSeconds >= now
    then Some(if s.paidThrough >= now then RenewalDue else InGrace) else None
  }

  /**
   * The sweep warns exactly the active tenants whose banner shows, and of what the banner says. A suspended
   * tenant's banner shows all the same, and no notice is sent.
   */
  lemma NoticeAgreesWithBanner(s: Subscription, tenant: TenantStatus, now: nat, o: StatusOptions)
    ensures var status := Describe(Some(s), now, o);
            && (DueForNotice(s, tenant, now, o.noticeSeconds).Some? <==> tenant == TenantActive && status.renewalDue)
            && (DueForNotice(s, tenant, now, o.noticeSeconds) == Some(InGrace) <==> tenant == TenantActive && status.state == Grace)
  {
  }

  datatype CacheEntry = CacheEntry(subscription: Option<Subscription>, readAt: int)

  class SubscriptionService {
    const repository: SubscriptionRepository
    const options: StatusOptions
    var cache: map<string, CacheEntry>

    constructor (repository: SubscriptionRepository, options: StatusOptions)
      ensures this.repository == repository && this.options == options && cache == map[]
    {
      this.repository, this.options, cache := repository, options, map[];
    }

    method StatusOf(tenant: string, now: nat, nowMs: int) returns (status: Status)
      modifies this`cache
      ensures cache == Loaded(old(cache), repository.Contents(), tenant, nowMs, options)
      ensures tenant in cache && status == Describe(cache[tenant].subscription, now, options)
      ensures var young := tenant in old(cache) && nowMs < old(cache)[tenant].readAt + options.ttlMs;
              && (young ==> cache == old(cache))
              && (!young ==> cache == old(cache)[tenant := CacheEntry(if tenant in repository.subscriptions then Some(repository.subscriptions[tenant])
                                                                      else None, nowMs)])
    {
      var subscription := Load(tenant, nowMs);
      status := Describe(subscription, now, options);
    }

    method Load(tenant: string, nowMs: int) returns (subscription: Option<Subscription>)
      modifies this`cache
      ensures cache == Loaded(old(cache), repository.Contents(), tenant, nowMs, options)
      ensures tenant in cache && subscription == cache[tenant].subscription
    {
      if tenant in cache && nowMs - cache[tenant].readAt < options.ttlMs {
        return cache[tenant].subscription;
      }
      subscription := repository.Get(tenant);
      cache := cache[tenant := CacheEntry(subscription, nowMs)];
    }

    method Invalidate(tenant: string)
      modifies this`cache
      ensures cache == old(cache) - {tenant}
    {
      cache := cache - {tenant};
    }
  }

  function Row(b: Billing, tenant: string): Option<Subscription> {
    if tenant in b.subscriptions then Some(b.subscriptions[tenant]) else None
  }

  predicate Fresh(cache: map<string, CacheEntry>, tenant: string, nowMs: int, o: StatusOptions) {
    tenant in cache && nowMs - cache[tenant].readAt < o.ttlMs
  }

  function Loaded(cache: map<string, CacheEntry>, b: Billing, tenant: string, nowMs: int, o: StatusOptions): map<string, CacheEntry> {
    if Fresh(cache, tenant, nowMs, o) then cache else cache[tenant := CacheEntry(Row(b, tenant), nowMs)]
  }

  // ---------------------------------------------------------------------------------------------
  // Replicas: payments anywhere, loads that take time, invalidations that may be overtaken

  /** A load that has read the row and not yet cached it. */
  datatype Pending = Pending(tenant: string, entry: CacheEntry)

  datatype Replica = Replica(billing: Billing, cache: map<string, CacheEntry>, pending: seq<Pending>)

  datatype Step = Purchase(request: PaymentRequest)
                | GraceChange(tenant: string, graceSeconds: nat)
                | BeginLoad(tenant: string, nowMs: int)
                | FinishLoad(index: nat)
                | Invalidation(tenant: string)

  function Next(r: Replica, step: Step, o: StatusOptions): Replica {
    match step
    case Purchase(request) => r.(billing := Record(r.billing, request).0)
    case GraceChange(tenant, graceSeconds) => r.(billing := WithGrace(r.billing, tenant, graceSeconds))
    case BeginLoad(tenant, nowMs) =>
      if Fresh(r.cache, tenant, nowMs, o) then r
      else r.(pending := r.pending + [Pending(tenant, CacheEntry(Row(r.billing, tenant), nowMs))])
    case FinishLoad(index) =>
      if index < |r.pending|
      then r.(cache := r.cache[r.pending[index].tenant := r.pending[index].entry],
              pending := r.pending[..index] + r.pending[index + 1..])
      else r
    case Invalidation(tenant) => r.(cache := r.cache - {tenant})
  }

  function Run(r: Replica, steps: seq<Step>, o: StatusOptions): Replica {
    if steps == [] then r else Next(Run(r, steps[..|steps| - 1], o), steps[|steps| - 1], o)
  }

  /** `seen` is what the row was at some earlier moment: the paid end only moves forward, the grace window either way. */
  predicate Earlier(seen: Option<Subscription>, row: Option<Subscription>) {
    seen.Some? ==> row.Some? && seen.value.paidThrough <= row.value.paidThrough
  }

  ghost predicate NeverAhead(r: Replica) {
    && (forall tenant <- r.cache :: Earlier(r.cache[tenant].subscription, Row(r.billing, tenant)))
    && (forall i | 0 <= i < |r.pending| :: Earlier(r.pending[i].entry.subscription, Row(r.billing, r.pending[i].tenant)))
  }

  /** Neither a payment nor a new grace window takes paid time away. */
  lemma RowMovesForward(b: Billing, step: Step, tenant: string, seen: Option<Subscription>, o: StatusOptions)
    requires Earlier(seen, Row(b, tenant))
    ensures Earlier(seen, Row(Next(Replica(b, map[], []), step, o).billing, tenant))
  {
  }

  lemma StepKeepsNeverAhead(r: Replica, step: Step, o: StatusOptions)
    requires NeverAhead(r)
    ensures NeverAhead(Next(r, step, o))
  {
    if step.Purchase? || step.GraceChange? {
      var after := Next(r, step, o);
      assert after.billing == Next(Replica(r.billing, map[], []), step, o).billing;
      forall tenant: string, seen | Earlier(seen, Row(r.billing, tenant)) ensures Earlier(seen, Row(after.billing, tenant)) {
        RowMovesForward(r.billing, step, tenant, seen, o);
      }
    }
  }

  lemma {:induction false} CacheNeverAhead(b: Billing, steps: seq<Step>, o: StatusOptions)
    ensures NeverAhead(Run(Replica(b, map[], []), steps, o))
  {
    if steps != [] {
      CacheNeverAhead(b, steps[..|steps| - 1], o);
      StepKeepsNeverAhead(Run(Replica(b, map[], []), steps[..|steps| - 1], o), steps[|steps| - 1], o);
    }
  }

  predicate Allows(subscription: Option<Subscription>, now: nat, o: StatusOptions) {
    Describe(subscription, now, o).allowsSponsorship
  }

  /** Cached, it allows sponsorship where the stored row does not. */
  predicate OverAllows(cached: Option<Subscription>, stored: Option<Subscription>, now: nat, o: StatusOptions) {
    Allows(cached, now, o) && !Allows(stored, now, o)
  }

  /**
   * In every interleaving of payments, grace changes, slow loads and invalidations, a cached row allows more than
   * the stored one only if the grace window was lowered since it was read; and a cached absence only where
   * unsubscribed tenants are allowed and the subscription bought since has already lapsed.
   */
  lemma CacheOverAllowsOnly(b: Billing, steps: seq<Step>, o: StatusOptions, tenant: string, now: nat)
    requires tenant in Run(Replica(b, map[], []), steps, o).cache
    ensures var r := Run(Replica(b, map[], []), steps, o);
            var cached, stored := r.cache[tenant].subscription, Row(r.billing, tenant);
            OverAllows(cached, stored, now, o) ==>
              && stored.Some?
              && (if cached.Some? then stored.value.graceSeconds < cached.value.graceSeconds
                  else o.unsubscribedAllows && Describe(stored, now, o).state == Lapsed)
  {
    CacheNeverAhead(b, steps, o);
  }

  /**
   * Exactly when: there is an instant at which the cached row allows too much if and only if the grace window was
   * lowered by more than payments extended the end, or the cached absence is allowed and a row exists by now.
   */
  lemma CacheOverAllowsExactly(b: Billing, steps: seq<Step>, o: StatusOptions, tenant: string)
    requires tenant in Run(Replica(b, map[], []), steps, o).cache
    ensures var r := Run(Replica(b, map[], []), steps, o);
            var cached, stored := r.cache[tenant].subscription, Row(r.billing, tenant);
            (exists now :: OverAllows(cached, stored, now, o))
            <==> match (cached, stored)
                 case (Some(c), Some(s)) => s.paidThrough - c.paidThrough < c.graceSeconds - s.graceSeconds
                 case (None, Some(s)) => o.unsubscribedAllows
                 case (_, None) => false
  {
    CacheNeverAhead(b, steps, o);
    var r := Run(Replica(b, map[], []), steps, o);
    var cached, stored := r.cache[tenant].subscription, Row(r.billing, tenant);
    if stored.Some? {
      var end := stored.value.paidThrough + stored.value.graceSeconds;
      assert OverAllows(cached, stored, end + 1, o) <==>
             if cached.Some? then end < cached.value.paidThrough + cached.value.graceSeconds else o.unsubscribedAllows;
    }
  }

  /** The cached absence is real: the first payment, seen late, of a period that has already lapsed. */
  lemma CachedAbsenceOverAllows()
    ensures var o, q := StatusOptions(true, 10_000, 604_800), PaymentRequest("t", "basic", 1, None, None, None, 0);
            var r := Run(Replica(Billing([], map[]), map[], []), [BeginLoad("t", 0), FinishLoad(0), Purchase(q)], o);
            "t" in r.cache && OverAllows(r.cache["t"].subscription, Row(r.billing, "t"), 2 + DEFAULT_GRACE_SECONDS, o)
  {
    var o, q := StatusOptions(true, 10_000, 604_800), PaymentRequest("t", "basic", 1, None, None, None, 0);
    LoadThen(Billing([], map[]), "t", Purchase(q), o);
  }

  /** So is the lowered grace window: a row read before it was set to zero still allows its old grace. */
  lemma LoweredGraceOverAllows()
    ensures var o, b := StatusOptions(true, 10_000, 604_800), Billing([], map["t" := Subscription("basic", 1, DEFAULT_GRACE_SECONDS)]);
            var r := Run(Replica(b, map[], []), [BeginLoad("t", 0), FinishLoad(0), GraceChange("t", 0)], o);
            "t" in r.cache && OverAllows(r.cache["t"].subscription, Row(r.billing, "t"), 2, o)
  {
    var o, b := StatusOptions(true, 10_000, 604_800), Billing([], map["t" := Subscription("basic", 1, DEFAULT_GRACE_SECONDS)]);
    LoadThen(b, "t", GraceChange("t", 0), o);
  }

  lemma LoadThen(b: Billing, tenant: string, step: Step, o: StatusOptions)
    requires step.Purchase? || step.GraceChange?
    ensures Run(Replica(b, map[], []), [BeginLoad(tenant, 0), FinishLoad(0), step], o)
            == Replica(Next(Replica(b, map[], []), step, o).billing, map[tenant := CacheEntry(Row(b, tenant), 0)], [])
  {
    var steps := [BeginLoad(tenant, 0), FinishLoad(0), step];
    var start, two, one := Replica(b, map[], []), steps[..2], steps[..1];
    assert two[..1] == one && one[..0] == [];
    assert Run(start, one, o) == Replica(b, map[], [Pending(tenant, CacheEntry(Row(b, tenant), 0))]);
    assert Run(start, two, o) == Replica(b, map[tenant := CacheEntry(Row(b, tenant), 0)], []);
  }

  /** Every cached or in-flight row of the tenant is paid at least through `end`. */
  ghost predicate PaidAtLeast(r: Replica, tenant: string, end: nat) {
    && tenant in r.billing.subscriptions && end <= r.billing.subscriptions[tenant].paidThrough
    && (tenant in r.cache ==> r.cache[tenant].subscription.Some? && end <= r.cache[tenant].subscription.value.paidThrough)
    && (forall i | 0 <= i < |r.pending| && r.pending[i].tenant == tenant ::
          r.pending[i].entry.subscription.Some? && end <= r.pending[i].entry.subscription.value.paidThrough)
  }

  lemma StepKeepsPaid(r: Replica, step: Step, o: StatusOptions, tenant: string, end: nat)
    requires PaidAtLeast(r, tenant, end)
    ensures PaidAtLeast(Next(r, step, o), tenant, end)
  {
  }

  lemma {:induction false} RunKeepsPaid(r: Replica, steps: seq<Step>, o: StatusOptions, tenant: string, end: nat)
    requires PaidAtLeast(r, tenant, end)
    ensures PaidAtLeast(Run(r, steps, o), tenant, end)
  {
    if steps != [] {
      RunKeepsPaid(r, steps[..|steps| - 1], o, tenant, end);
      StepKeepsPaid(Run(r, steps[..|steps| - 1], o), steps[|steps| - 1], o, tenant, end);
    }
  }

  /**
   * A payment followed by its invalidation, with no load of the tenant in flight, is never forgotten: whatever
   * happens from there on, every row the replica serves is paid at least through the end it bought.
   */
  lemma PaymentIsNeverForgotten(r: Replica, q: PaymentRequest, steps: seq<Step>, o: StatusOptions)
    requires Record(r.billing, q).1.Ok?
    requires forall i | 0 <= i < |r.pending| :: r.pending[i].tenant != q.tenant
    ensures var paid := Next(Next(r, Purchase(q), o), Invalidation(q.tenant), o);
            var served := Run(paid, steps, o).cache;
            q.tenant in served ==> served[q.tenant].subscription.Some?
                                   && Record(r.billing, q).1.value.extendedTo <= served[q.tenant].subscription.value.paidThrough
  {
    var paid := Next(Next(r, Purchase(q), o), Invalidation(q.tenant), o);
    RunKeepsPaid(paid, steps, o, q.tenant, Record(r.billing, q).1.value.extendedTo);
  }

  ghost predicate CoveredWithin(b: Billing, tenant: string, t: nat, grace: nat) {
    exists i | 0 <= i < |b.payments| :: b.payments[i].tenant == tenant && t <= b.payments[i].extendedTo + grace
  }

  /** The last of the tenant's intervals ends at `end`. */
  ghost predicate LastsUntil(b: Billing, tenant: string, end: nat) {
    && EndsAt(b.payments, tenant, end)
    && forall i | 0 <= i < |b.payments| && b.payments[i].tenant == tenant :: b.payments[i].extendedTo <= end
  }

  lemma StoredLasts(b: Billing, tenant: string)
    requires Orderly(b) && tenant in b.subscriptions
    ensures LastsUntil(b, tenant, b.subscriptions[tenant].paidThrough)
  {
    forall i | 0 <= i < |b.payments| && b.payments[i].tenant == tenant
      ensures b.payments[i].extendedTo <= b.subscriptions[tenant].paidThrough
    {
      assert WithinEnd(b.payments[i], b.subscriptions);
    }
  }

  lemma CoveredUntil(b: Billing, tenant: string, t: nat, end: nat, grace: nat)
    requires LastsUntil(b, tenant, end)
    ensures CoveredWithin(b, tenant, t, grace) <==> t <= end + grace
  {
  }

  lemma DescribesLast(b: Billing, tenant: string, s: Subscription, t: nat, o: StatusOptions)
    requires LastsUntil(b, tenant, s.paidThrough)
    ensures var status := Describe(Some(s), t, o);
            && (status.allowsSponsorship <==> CoveredWithin(b, tenant, t, s.graceSeconds))
            && (status.state == Lapsed <==> !status.allowsSponsorship) && status.state != NoSubscription
            && (status.renewalDue <==> status.allowsSponsorship && s.paidThrough <= t + o.noticeSeconds)
  {
    CoveredUntil(b, tenant, t, s.paidThrough, s.graceSeconds);
  }

  /** What a status should say of the tenant's payments at `t`. */
  ghost predicate SaysWhatWasBought(status: Status, b: Billing, tenant: string, t: nat, o: StatusOptions) {
    && (status.state == Active <==> BoughtAt(b, tenant, t))
    && (status.state == NoSubscription <==> tenant !in b.subscriptions)
    && (tenant in b.subscriptions ==>
          && (status.allowsSponsorship <==> CoveredWithin(b, tenant, t, b.subscriptions[tenant].graceSeconds))
          && (status.state == Lapsed <==> !status.allowsSponsorship)
          && status.paidThrough.Some? && LastsUntil(b, tenant, status.paidThrough.value)
          && status.graceEndsAt == Some(status.paidThrough.value + b.subscriptions[tenant].graceSeconds)
          && (status.renewalDue <==> status.allowsSponsorship && status.paidThrough.value <= t + o.noticeSeconds))
    && (tenant !in b.subscriptions ==>
          status.allowsSponsorship == o.unsubscribedAllows && !status.renewalDue && status.paidThrough == None == status.graceEndsAt)
  }

  lemma RowSaysWhatWasBought(b: Billing, tenant: string, t: nat, o: StatusOptions)
    requires Orderly(b)
    requires (tenant in b.subscriptions && t <= b.subscriptions[tenant].paidThrough) <==> BoughtAt(b, tenant, t)
    ensures SaysWhatWasBought(Describe(Row(b, tenant), t, o), b, tenant, t, o)
  {
    if tenant in b.subscriptions {
      StoredLasts(b, tenant);
      DescribesLast(b, tenant, b.subscriptions[tenant], t, o);
    }
  }

  /**
   * The status read off the stored row says what the payments bought: active inside a bought interval, allowed
   * up to the grace window after one, due for renewal while it is allowed and nothing bought lasts beyond the notice,
   * and no subscription exactly without a payment. It names the last end bought, and the end of the grace window.
   */
  lemma StatusIsWhatWasBought(events: seq<Event>, tenant: string, t: nat, o: StatusOptions)
    requires InOrder(events, t)
    ensures SaysWhatWasBought(Describe(Row(After(events), tenant), t, o), After(events), tenant, t, o)
  {
    ActiveExactlyWhenBought(events, tenant, t);
    IntervalsAreOrdered(events);
    RowSaysWhatWasBought(After(events), tenant, t, o);
  }
}
