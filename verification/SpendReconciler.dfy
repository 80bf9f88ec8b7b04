/** Trues up spend caps from on-chain cost: one window per tick, one claim per event, one refund per quota (spendReconciler.ts). */
module SpendReconciler {
  import opened Text
  import opened QuotaStores
  import opened QuotaRules
  import opened Engine
  import opened Budget
  import opened BudgetRuns
  import opened ReconcilerRuns
  import opened Sponsorships
  import opened SponsorService
  import opened TrueUps
  import opened ScanWindow
  import P = ScanProtocol

  /** The events of the window, in the order the chain reports them. */
  function EventsIn(chain: seq<Settlement>, from: nat, to: nat): seq<Settlement> {
    if chain == [] then []
    else (if from <= chain[0].blockNumber <= to then [chain[0]] else []) + EventsIn(chain[1..], from, to)
  }

  datatype ReconcileStats = ReconcileStats(fromBlock: nat, toBlock: nat, eventsScanned: nat, reservationsReconciled: nat, weiRefunded: nat)

  function SavedCheckpoint(checkpoints: map<nat, nat>, chainId: nat): Option<nat> {
    if chainId in checkpoints then Some(checkpoints[chainId]) else None
  }

  /** Only the lower-cased sender matters to a true-up. */
  lemma TrueUpIgnoresCase(q: Quota, counters: Counters, r: SpendTrueUp, sender: string, link: Link)
    requires Lower(sender) == Lower(r.sender)
    ensures AfterTrueUp(q, counters, r.(sender := sender), link) == AfterTrueUp(q, counters, r, link)
  {
  }

  /** Where the reserving rules stand, in order. */
  function Places(rules: seq<Rule>, from: nat): seq<nat>
    requires from <= |rules|
    decreases |rules| - from
  {
    if from == |rules| then []
    else (if rules[from].Reserve? then [from] else []) + Places(rules, from + 1)
  }

  /** `places` are where the rules from `from` on reserve, in order, and `quotas` what they reserve on. */
  ghost predicate Placed(rules: seq<Rule>, from: nat, places: seq<nat>, quotas: seq<Quota>) {
    && |places| == |quotas|
    && (forall k | 0 <= k < |places| :: from <= places[k] < |rules| && rules[places[k]] == Reserve(quotas[k]))
    && (forall k, l | 0 <= k < l < |places| :: places[k] < places[l])
    && (forall i | from <= i < |rules| && rules[i].Reserve? :: i in places)
  }

  lemma PlacedFirst(rules: seq<Rule>, from: nat, places: seq<nat>, quotas: seq<Quota>)
    requires from < |rules| && rules[from].Reserve? && Placed(rules, from + 1, places, quotas)
    ensures Placed(rules, from, [from] + places, [rules[from].quota] + quotas)
  {
  }

  lemma PlacedLater(rules: seq<Rule>, from: nat, places: seq<nat>, quotas: seq<Quota>)
    requires from < |rules| && !rules[from].Reserve? && Placed(rules, from + 1, places, quotas)
    ensures Placed(rules, from, places, quotas)
  {
  }

  lemma {:induction false} PlacesOfReserving(rules: seq<Rule>, from: nat)
    requires from <= |rules|
    ensures Placed(rules, from, Places(rules, from), Reserving(rules[from..]))
    decreases |rules| - from
  {
    if from == |rules| {
      assert rules[from..] == [];
    } else {
      var rest := rules[from + 1..];
      PlacesOfReserving(rules, from + 1);
      assert rules[from..] == [rules[from]] + rest;
      ReservingFirst(rules[from], rest);
      if rules[from].Reserve? {
        PlacedFirst(rules, from, Places(rules, from + 1), Reserving(rest));
      } else {
        PlacedLater(rules, from, Places(rules, from + 1), Reserving(rest));
        assert [] + Places(rules, from + 1) == Places(rules, from + 1) && [] + Reserving(rest) == Reserving(rest);
      }
    }
  }

  /** The loaded policies are policies of the protocol; one that was unloaded since is simply missing. */
  ghost predicate StillLoaded(env: Policies, policies: map<PolicyKey, seq<LoadedRule>>) {
    forall key <- policies :: key in env && env[key] == OrderRules(EraseAll(policies[key]))
  }

  /** Only counters, holds and refunds due have moved. */
  ghost predicate OnlyRefunded(s: State, s': State) {
    s' == s.(counters := s'.counters, holds := s'.holds, refunds := s'.refunds)
  }

  lemma RefundMoves(env: Policies, s: State, id: nat, i: nat, link: Link)
    requires Enabled(env, s, Refund(id, i, link))
    ensures var s1 := Apply(env, s, Refund(id, i, link));
            && OnlyRefunded(s, s1)
            && s1.counters == AfterTrueUp(RulesOf(env, s, id)[i].quota, s.counters,
                                          TrueUpOf(s.requests[id].ctx, s.rows[id].createdAt, s.rows[id].claimed.value), link)
            && s1.refunds == s.refunds - {HoldId(id, i)}
  {
  }

  lemma RunSnoc(env: Policies, s: State, steps: seq<Step>, step: Step)
    requires ValidRun(env, s, steps) && Enabled(env, After(env, s, steps), step)
    ensures ValidRun(env, s, steps + [step]) && After(env, s, steps + [step]) == Apply(env, After(env, s, steps), step)
  {
    RunCons(env, After(env, s, steps), step, []);
    RunAppend(env, s, steps, [step]);
  }

  /** What the caller of a true-up knows of the row: it is claimed, and the refund is of what it was charged. */
  ghost predicate TrueUpFor(env: Policies, s: State, id: nat, r: SpendTrueUp) {
    && Known(env, s, id) && id in s.rows && s.rows[id].claimed.Some?
    && Lower(r.sender) == Lower(s.requests[id].ctx.fields.sender)
    && r.(sender := s.requests[id].ctx.fields.sender) == TrueUpOf(s.requests[id].ctx, s.rows[id].createdAt, s.rows[id].claimed.value)
  }

  /** Refunds have been run from `s`, leaving these counters and refunds due. */
  ghost predicate RefundsRun(env: Policies, s: State, steps: seq<Step>, counters: Counters, refunds: set<HoldId>) {
    && ValidRun(env, s, steps) && OnlyRefunded(s, After(env, s, steps)) && AllRefunds(steps)
    && After(env, s, steps).counters == counters && After(env, s, steps).refunds == refunds
  }

  lemma RefundExtendsRun(env: Policies, s: State, steps: seq<Step>, id: nat, i: nat, r: SpendTrueUp, link: Link,
                         counters: Counters, refunds: set<HoldId>)
    requires TrueUpFor(env, s, id, r) && RefundsRun(env, s, steps, counters, refunds)
    requires i < |RulesOf(env, s, id)| && RulesOf(env, s, id)[i].Reserve? && HoldId(id, i) in refunds
    ensures RefundsRun(env, s, steps + [Step.Refund(id, i, link)], AfterTrueUp(RulesOf(env, s, id)[i].quota, counters, r, link),
                       refunds - {HoldId(id, i)})
  {
    var s1 := After(env, s, steps);
    RefundMoves(env, s1, id, i, link);
    TrueUpIgnoresCase(RulesOf(env, s, id)[i].quota, s1.counters, r, s.requests[id].ctx.fields.sender, link);
    RunSnoc(env, s, steps, Step.Refund(id, i, link));
  }

  function HoldsAt(id: nat, places: seq<nat>): set<HoldId> {
    set i | i in places :: HoldId(id, i)
  }

  lemma StillHeld(s: State, id: nat, places: seq<nat>, k: nat)
    requires k < |places| && forall l, m | 0 <= l < m < |places| :: places[l] < places[m]
    requires forall i <- places :: HoldId(id, i) in s.refunds
    ensures HoldId(id, places[k]) in s.refunds - HoldsAt(id, places[..k])
    ensures s.refunds - HoldsAt(id, places[..k]) - {HoldId(id, places[k])} == s.refunds - HoldsAt(id, places[..k + 1])
  {
    assert places[..k + 1] == places[..k] + [places[k]];
  }

  lemma NextRefund(env: Policies, s: State, steps: seq<Step>, id: nat, places: seq<nat>, quotas: seq<Quota>, k: nat, r: SpendTrueUp,
                   link: Link, counters: Counters)
    requires TrueUpFor(env, s, id, r) && Placed(RulesOf(env, s, id), 0, places, quotas) && k < |places|
    requires forall i <- places :: HoldId(id, i) in s.refunds
    requires RefundsRun(env, s, steps, counters, s.refunds - HoldsAt(id, places[..k]))
    ensures RefundsRun(env, s, steps + [Step.Refund(id, places[k], link)], AfterTrueUp(quotas[k], counters, r, link),
                       s.refunds - HoldsAt(id, places[..k + 1]))
  {
    StillHeld(s, id, places, k);
    RefundExtendsRun(env, s, steps, id, places[k], r, link, counters, s.refunds - HoldsAt(id, places[..k]));
  }

  /** The quotas the filter finds stand in the policy's order at these places. */
  lemma QuotaPlaces(env: Policies, s: State, id: nat, rules: seq<LoadedRule>) returns (places: seq<nat>)
    requires Known(env, s, id) && RulesOf(env, s, id) == OrderRules(EraseAll(rules))
    ensures Placed(RulesOf(env, s, id), 0, places, OptionsOf(QuotasOf(rules)))
  {
    var ordered := RulesOf(env, s, id);
    places := Places(ordered, 0);
    QuotasErase(rules);
    ReservingInWrittenOrder(EraseAll(rules));
    PlacesOfReserving(ordered, 0);
    assert ordered[0..] == ordered;
  }

  class SpendReconciler {
    const store: InMemoryQuotaStore
    const table: SponsorshipTable
    const policies: map<PolicyKey, seq<LoadedRule>>
    const options: ScanOptions

    constructor (store: InMemoryQuotaStore, table: SponsorshipTable, policies: map<PolicyKey, seq<LoadedRule>>, options: ScanOptions)
      ensures this.store == store && this.table == table && this.policies == policies && this.options == options
    {
      this.store, this.table, this.policies, this.options := store, table, policies, options;
    }

    ghost predicate Ready(env: Policies) {
      && StillLoaded(env, policies) && options.maxBlockRange >= 1
      && forall key <- policies, r <- policies[key] :: r.LoadedQuota? ==> r.rule.store == store
    }

    /** Refunds every quota of the row's policy once; a refund that fails is dropped, never retried. */
    method Refund(chainId: nat, id: nat, row: SponsorshipRow, event: Settlement, link: (nat, nat) -> Link, at: nat,
                  ghost env: Policies, ghost s: State)
      returns (refunded: nat, ghost steps: seq<Step>)
      requires Ready(env) && s.counters == store.counters
      requires Known(env, s, id) && id in s.rows && s.rows[id].claimed == Some(event.actualGasCostWei)
      requires row.(actualCostWei := s.rows[id].claimed) == RowOf(s, id)
      requires row.chainId == chainId && row.sender == Lower(event.sender)
      requires forall i | 0 <= i < |RulesOf(env, s, id)| && RulesOf(env, s, id)[i].Reserve? :: HoldId(id, i) in s.refunds
      modifies store
      ensures ValidRun(env, s, steps) && OnlyRefunded(s, After(env, s, steps)) && After(env, s, steps).counters == store.counters
      ensures AllRefunds(steps)
      ensures TruedUp(row, Books(map[], old(store.counters), 0, 0), Books(map[], store.counters, 0, refunded), chainId, event, policies, link, at)
      ensures PolicyKey(row.tenant, row.policyId) in policies ==>
                (forall i | 0 <= i < |RulesOf(env, s, id)| :: HoldId(id, i) !in After(env, s, steps).refunds || !RulesOf(env, s, id)[i].Reserve?)
    {
      refunded, steps := 0, [];
      var key := PolicyKey(row.tenant, row.policyId);
      if key !in policies {
        return;
      }
      var rules := policies[key];
      var reservation := SpendTrueUp(chainId, event.sender, Some(row.apiKeyId), row.maxCostWei, event.actualGasCostWei, row.createdAt);
      assert reservation == TrueUpOf(s.requests[id].ctx, row.createdAt, event.actualGasCostWei).(sender := event.sender);
      ghost var places := QuotaPlaces(env, s, id, rules);
      var quotas := QuotasOf(rules);   // the `instanceof QuotaRule` filter
      QuotasShareStore(env, rules, quotas);
      refunded, steps := RefundEach(quotas, reservation, link, at, env, s, id, places);
      QuotasErase(rules);
      assert forall i | 0 <= i < |RulesOf(env, s, id)| && RulesOf(env, s, id)[i].Reserve? :: i in places;
    }

    lemma QuotasShareStore(env: Policies, rules: seq<LoadedRule>, quotas: seq<QuotaRule>)
      requires Ready(env) && rules in policies.Values && quotas == QuotasOf(rules)
      ensures forall q <- quotas :: q.store == store
    {
      QuotasErase(rules);
      forall q <- quotas ensures q.store == store {
        assert LoadedQuota(q) in rules;
      }
    }

    /** The loop over the quotas: one true-up each. */
    method RefundEach(quotas: seq<QuotaRule>, reservation: SpendTrueUp, link: (nat, nat) -> Link, at: nat, ghost env: Policies, ghost s: State,
                      ghost id: nat, ghost places: seq<nat>)
      returns (refunded: nat, ghost steps: seq<Step>)
      requires s.counters == store.counters && TrueUpFor(env, s, id, reservation)
      requires forall q <- quotas :: q.store == store
      requires Placed(RulesOf(env, s, id), 0, places, OptionsOf(quotas))
      requires forall i <- places :: HoldId(id, i) in s.refunds
      modifies store
      ensures RefundsRun(env, s, steps, store.counters, s.refunds - HoldsAt(id, places))
      ensures store.counters == TruedUpTo(OptionsOf(quotas), |quotas|, old(store.counters), reservation, link, at)
      ensures refunded == WeiRefunded(OptionsOf(quotas), |quotas|, reservation, link, at)
    {
      refunded, steps := 0, [];
      ghost var plan, before := OptionsOf(quotas), store.counters;
      assert s.refunds - HoldsAt(id, places[..0]) == s.refunds;
      for k := 0 to |quotas|
        invariant RefundsRun(env, s, steps, store.counters, s.refunds - HoldsAt(id, places[..k]))
        invariant store.counters == TruedUpTo(plan, k, before, reservation, link, at)
        invariant refunded == WeiRefunded(plan, k, reservation, link, at)
      {
        assert plan[k] == quotas[k].options;
        ghost var counters := store.counters;
        var wei := quotas[k].TrueUp(reservation, link(at, k));
        NextTrueUp(plan, k, before, reservation, link, at, counters, wei);
        refunded := refunded + wei;
        NextRefund(env, s, steps, id, places, plan, k, reservation, link(at, k), counters);
        steps := steps + [Step.Refund(id, places[k], link(at, k))];
      }
      assert places[..|quotas|] == places;
    }

    /** The row that has just been claimed is refunded: claim and refunds are the event's part of the run. */
    method RefundClaimed(chainId: nat, id: nat, event: Settlement, link: (nat, nat) -> Link, at: nat, ghost env: Policies, ghost s: State,
                         ghost landed: nat, ghost rows: Rows)
      returns (refunded: nat, ghost refunds: seq<Step>)
      requires Ready(env) && s.counters == store.counters && Agrees(s, rows)
      requires Claimable(rows, id, chainId, event.sender, event.nonce) && Known(env, s, id) && Settles(s, chainId, event, landed)
      requires table.rows == rows[id := rows[id].(actualCostWei := Some(event.actualGasCostWei))]
      modifies store
      ensures var part := Part(Some(landed), Some(id), refunds);
              PartRuns(env, s, part) && Tracks(env, s, StepsOf(part), store.counters, table.rows)
      ensures TruedUp(table.rows[id], Books(map[], old(store.counters), 0, 0), Books(map[], store.counters, 0, refunded),
                      chainId, event, policies, link, at)
    {
      ClaimIsStep(env, s, rows, id, landed, chainId, event);
      ghost var s1 := Apply(env, s, Step.Claim(id, landed));
      refunded, refunds := Refund(chainId, id, table.rows[id], event, link, at, env, s1);
      ClaimedPart(env, s, table.rows, id, landed, refunds);
    }

    /**
     * One event: claim its newest unreconciled attestation, if any, and refund it. `landed` is the attestation
     * the operation landed with, when it is one of ours.
     */
    method ReconcileEvent(chainId: nat, event: Settlement, link: (nat, nat) -> Link, at: nat, ghost env: Policies, ghost s: State,
                          ghost landed: Option<nat>)
      returns (claims: nat, refunded: nat, ghost part: Part)
      requires Ready(env) && table.Valid() && s.counters == store.counters && Agrees(s, table.rows)
      requires forall id <- s.rows :: Known(env, s, id)
      requires Sourced(s, table.rows, chainId, event, landed)
      modifies store, table`rows
      ensures part.landed == landed && PartRuns(env, s, part)
      ensures table.Valid() && Tracks(env, s, StepsOf(part), store.counters, table.rows)
      ensures OnlyMarked(old(table.rows), table.rows) && Handled(table.rows, chainId, event)
      ensures |Reconciled(table.rows)| == |Reconciled(old(table.rows))| + claims
      ensures EventDone(Books(old(table.rows), old(store.counters), 0, 0), Books(table.rows, store.counters, claims, refunded),
                        chainId, event, policies, link, at)
    {
      ghost var rows := table.rows;
      var claim := table.Claim(chainId, event.sender, event.nonce, event.actualGasCostWei);
      if claim.None? {
        claims, refunded, part := 0, 0, Part(landed, None, []);
        NothingToClaim(rows, chainId, event);
        NothingLeft(s, rows, chainId, event, landed);
        UnclaimedPart(env, s, rows, part);
        return;
      }
      var id := claim.value;
      ClaimMarks(rows, id, chainId, event);
      ClaimedIsOurs(s, rows, id, chainId, event, landed);
      ghost var refunds;
      refunded, refunds := RefundClaimed(chainId, id, event, link, at, env, s, landed.value, rows);
      claims, part := 1, Part(landed, Some(id), refunds);
      ClaimDone(id, rows, table.rows, s.counters, store.counters, refunded, chainId, event, policies, link, at);
    }

    /** The next event, after those `done` since the rows were `before`. */
    method OfferEvent(chainId: nat, event: Settlement, link: (nat, nat) -> Link, at: nat, ghost env: Policies, ghost s: State,
                      ghost landing: Settlement -> Option<nat>, ghost parts: seq<Part>, ghost done: seq<Settlement>, ghost before: Rows,
                      ghost first: Books, reconciled: nat, refunded: nat)
      returns (reconciled': nat, refunded': nat, ghost part: Part)
      requires Ready(env) && table.Valid() && Agrees(s, before) && at == |done|
      requires forall id <- s.rows :: Known(env, s, id)
      requires Sourced(s, before, chainId, event, landing(event))
      requires Offered(env, s, parts, done, landing, chainId, before, table.rows, store.counters, reconciled)
      requires Books(table.rows, store.counters, reconciled, refunded) in Outcomes(done, chainId, policies, link, first)
      modifies store, table`rows
      ensures table.Valid()
      ensures Offered(env, s, parts + [part], done + [event], landing, chainId, before, table.rows, store.counters, reconciled')
      ensures Books(table.rows, store.counters, reconciled', refunded')
              in Outcomes(done + [event], chainId, policies, link, first)
    {
      ghost var s1, rows, counters := After(env, s, Flatten(parts)), table.rows, store.counters;
      NextEvent(env, s, s1, parts, done, event, landing, chainId, before, rows, counters, reconciled);
      var claims, wei;
      claims, wei, part := ReconcileEvent(chainId, event, link, at, env, s1, landing(event));
      reconciled', refunded' := reconciled + claims, refunded + wei;
      OfferedFurther(env, s, parts, part, done, event, landing, chainId, before, rows, table.rows, counters, store.counters,
                     reconciled, claims, reconciled');
      OneMoreDone(done, chainId, policies, link, first, rows, counters, reconciled, refunded,
                  event, table.rows, store.counters, claims, wei, reconciled', refunded');
    }

    /** Offers every event of a window to the table, in chain order. */
    method ReconcileEvents(chainId: nat, events: seq<Settlement>, link: (nat, nat) -> Link, ghost env: Policies, ghost s: State,
                           ghost landing: Settlement -> Option<nat>)
      returns (reconciled: nat, refunded: nat, ghost parts: seq<Part>)
      requires Ready(env) && table.Valid() && Tracks(env, s, [], store.counters, table.rows)
      requires forall id <- s.rows :: Known(env, s, id)
      requires forall i | 0 <= i < |events| :: Sourced(s, table.rows, chainId, events[i], landing(events[i]))
      modifies store, table`rows
      ensures table.Valid()
      ensures Offered(env, s, parts, events, landing, chainId, old(table.rows), table.rows, store.counters, reconciled)
      ensures Books(table.rows, store.counters, reconciled, refunded)
              in Outcomes(events, chainId, policies, link, Books(old(table.rows), old(store.counters), 0, 0))
    {
      reconciled, refunded, parts := 0, 0, [];
      ghost var done: seq<Settlement> := [];
      ghost var first := Books(table.rows, store.counters, 0, 0);
      for i := 0 to |events|
        invariant table.Valid() && done == events[..i]
        invariant Offered(env, s, parts, done, landing, chainId, first.rows, table.rows, store.counters, reconciled)
        invariant Books(table.rows, store.counters, reconciled, refunded) in Outcomes(done, chainId, policies, link, first)
      {
        ghost var part;
        reconciled, refunded, part := OfferEvent(chainId, events[i], link, i, env, s, landing, parts, done, first.rows, first, reconciled, refunded);
        UpToNext(events, i);
        parts, done := parts + [part], done + [events[i]];
      }
      assert events[..|events|] == events;
    }

    method PlanWindow(chainId: nat, latest: nat) returns (window: Option<(nat, nat)>)
      requires options.maxBlockRange >= 1
      ensures window == NextWindow(latest, SavedCheckpoint(table.checkpoints, chainId), options)
    {
      var safeHead := latest - options.confirmations;
      if safeHead < 0 {
        return None;
      }
      var lookback := if safeHead - options.initialLookbackBlocks > 0 then safeHead - options.initialLookbackBlocks else 0;
      var from := if chainId in table.checkpoints then table.checkpoints[chainId] + 1 else lookback;
      if from > safeHead {
        return None;
      }
      var to := if safeHead < from + options.maxBlockRange - 1 then safeHead else from + options.maxBlockRange - 1;
      window := Some((from, to));
    }

    /**
     * One tick: the window after the checkpoint, every event of it offered to the table, then the checkpoint.
     * The whole tick is a run of the budget protocol, part by part; `TickIsScan` makes it one of the scan.
     */
    method ReconcileChain(chainId: nat, latest: nat, chain: seq<Settlement>, link: (nat, nat) -> Link, ghost env: Policies, ghost s: State,
                          ghost landing: Settlement -> Option<nat>)
      returns (stats: Option<ReconcileStats>, ghost parts: seq<Part>)
      requires Ready(env) && table.Valid() && Tracks(env, s, [], store.counters, table.rows)
      requires forall id <- s.rows :: Known(env, s, id)
      requires forall i | 0 <= i < |chain| :: Sourced(s, table.rows, chainId, chain[i], landing(chain[i]))
      modifies store, table
      ensures table.Valid() && Tracks(env, s, Flatten(parts), store.counters, table.rows)
      ensures OnlyMarked(old(table.rows), table.rows)
      ensures var window := NextWindow(latest, SavedCheckpoint(old(table.checkpoints), chainId), options);
              match window
              case None => stats.None? && parts == [] && table.rows == old(table.rows) && store.counters == old(store.counters)
                           && table.checkpoints == old(table.checkpoints)
              case Some((from, to)) =>
                var events := EventsIn(chain, from, to);
                && stats.Some? && WindowDone(stats.value, from, to, events, old(table.rows), table.rows)
                && PartsOf(env, s, parts, events, landing)
                && Books(table.rows, store.counters, stats.value.reservationsReconciled, stats.value.weiRefunded)
                   in Outcomes(events, chainId, policies, link, Books(old(table.rows), old(store.counters), 0, 0))
                && AllHandled(table.rows, chainId, events)
                && table.checkpoints == old(table.checkpoints)[chainId := to]
    {
      stats, parts := None, [];
      var window := PlanWindow(chainId, latest);
      if window.None? {
        return;
      }
      var (from, to) := window.value;
      var events := EventsIn(chain, from, to);
      EventsAreSourced(s, table.rows, chainId, chain, from, to, landing);
      var reconciled, refunded;
      reconciled, refunded, parts := ReconcileEvents(chainId, events, link, env, s, landing);
      table.SaveCheckpoint(chainId, to);
      stats := Some(ReconcileStats(from, to, |events|, reconciled, refunded));
    }
  }

  /** What a tick reports of its window. */
  ghost predicate WindowDone(stats: ReconcileStats, from: nat, to: nat, events: seq<Settlement>, before: Rows, after: Rows) {
    && stats.fromBlock == from && stats.toBlock == to && stats.eventsScanned == |events|
    && |Reconciled(after)| == |Reconciled(before)| + stats.reservationsReconciled
  }

  /** The parts deal with these events, in order. */
  ghost predicate PartsOf(env: Policies, s: State, parts: seq<Part>, events: seq<Settlement>, landing: Settlement -> Option<nat>) {
    PartsRun(env, s, parts) && LandedAs(parts, events, landing)
  }

  ghost predicate LandedAs(parts: seq<Part>, events: seq<Settlement>, landing: Settlement -> Option<nat>) {
    |parts| == |events| && forall i | 0 <= i < |events| :: parts[i].landed == landing(events[i])
  }

  lemma LandedFurther(parts: seq<Part>, part: Part, events: seq<Settlement>, event: Settlement, landing: Settlement -> Option<nat>)
    requires LandedAs(parts, events, landing) && part.landed == landing(event)
    ensures LandedAs(parts + [part], events + [event], landing)
  {
  }

  /** The attestation the event's operation landed with; an event of no row of ours has none. */
  ghost predicate Sourced(s: State, rows: Rows, chainId: nat, event: Settlement, landed: Option<nat>) {
    match landed
    case Some(id) => Settles(s, chainId, event, id)
    case None => forall id :: !RowOfEvent(rows, id, chainId, event)
  }

  lemma SourcedAfter(s: State, s1: State, rows: Rows, rows1: Rows, chainId: nat, event: Settlement, landed: Option<nat>)
    requires Sourced(s, rows, chainId, event, landed) && OnlyMarked(rows, rows1)
    requires s1.requests == s.requests && s1.landed == s.landed
    ensures Sourced(s1, rows1, chainId, event, landed)
  {
    if landed.None? {
      forall id ensures !RowOfEvent(rows1, id, chainId, event) {
        assert !RowOfEvent(rows, id, chainId, event);
      }
    }
  }

  lemma ClaimedIsOurs(s: State, rows: Rows, id: nat, chainId: nat, event: Settlement, landed: Option<nat>)
    requires Sourced(s, rows, chainId, event, landed) && Claimable(rows, id, chainId, event.sender, event.nonce)
    ensures landed.Some? && Settles(s, chainId, event, landed.value)
  {
    assert RowOfEvent(rows, id, chainId, event);
  }

  lemma NothingLeft(s: State, rows: Rows, chainId: nat, event: Settlement, landed: Option<nat>)
    requires Agrees(s, rows) && Sourced(s, rows, chainId, event, landed)
    requires forall id :: !Claimable(rows, id, chainId, event.sender, event.nonce)
    ensures landed.Some? ==> AllClaimed(s, landed.value)
  {
    if landed.Some? {
      forall row <- s.rows | P.SameOperation(s, row, landed.value) ensures s.rows[row].claimed.Some? {
        assert rows[row] == RowOf(s, row);
        assert !Claimable(rows, row, chainId, event.sender, event.nonce);
      }
    }
  }

  /** The events have been offered one by one: their parts run, every one is handled, and as many rows are marked as reported. */
  ghost predicate Offered(env: Policies, s: State, parts: seq<Part>, events: seq<Settlement>, landing: Settlement -> Option<nat>, chainId: nat,
                          before: Rows, rows: Rows, counters: Counters, reconciled: nat) {
    && Dealt(env, s, parts, events, landing, counters, rows) && RowsOffered(before, rows, chainId, events, reconciled)
  }

  /** The parts of these events run, and lead to these counters and rows. */
  ghost predicate Dealt(env: Policies, s: State, parts: seq<Part>, events: seq<Settlement>, landing: Settlement -> Option<nat>,
                        counters: Counters, rows: Rows) {
    PartsOf(env, s, parts, events, landing) && Tracks(env, s, Flatten(parts), counters, rows)
  }

  /** Rows have only been marked, every event is handled, and as many rows are marked as reported. */
  ghost predicate RowsOffered(before: Rows, rows: Rows, chainId: nat, events: seq<Settlement>, reconciled: nat) {
    OnlyMarked(before, rows) && AllHandled(rows, chainId, events) && |Reconciled(rows)| == |Reconciled(before)| + reconciled
  }

  lemma UpToNext(events: seq<Settlement>, i: nat)
    requires i < |events|
    ensures events[..i + 1] == events[..i] + [events[i]]
  {
  }

  /** Where the next event finds the protocol. */
  lemma NextEvent(env: Policies, s: State, s1: State, parts: seq<Part>, done: seq<Settlement>, event: Settlement, landing: Settlement -> Option<nat>,
                  chainId: nat, before: Rows, rows: Rows, counters: Counters, reconciled: nat)
    requires Offered(env, s, parts, done, landing, chainId, before, rows, counters, reconciled)
    requires (forall id <- s.rows :: Known(env, s, id)) && Agrees(s, before)
    requires Sourced(s, before, chainId, event, landing(event)) && s1 == After(env, s, Flatten(parts))
    ensures s1.counters == counters && Agrees(s1, rows) && forall id <- s1.rows :: Known(env, s1, id)
    ensures Sourced(s1, rows, chainId, event, landing(event))
  {
    SourcedAfter(s, s1, before, rows, chainId, event, landing(event));
    KnownAfter(env, s, s1, rows);
  }

  lemma OfferedFurther(env: Policies, s: State, parts: seq<Part>, part: Part, done: seq<Settlement>, event: Settlement,
                       landing: Settlement -> Option<nat>, chainId: nat, before: Rows, rows: Rows, rows': Rows,
                       counters: Counters, counters': Counters, reconciled: nat, claims: nat, reconciled': nat)
    requires Offered(env, s, parts, done, landing, chainId, before, rows, counters, reconciled)
    requires part.landed == landing(event) && PartRuns(env, After(env, s, Flatten(parts)), part)
    requires Tracks(env, After(env, s, Flatten(parts)), StepsOf(part), counters', rows')
    requires OnlyMarked(rows, rows') && Handled(rows', chainId, event) && |Reconciled(rows')| == |Reconciled(rows)| + claims
    requires reconciled' == reconciled + claims
    ensures Offered(env, s, parts + [part], done + [event], landing, chainId, before, rows', counters', reconciled')
  {
    DealtFurther(env, s, parts, part, done, event, landing, counters, rows, counters', rows');
    RowsFurther(before, rows, rows', chainId, done, event, reconciled, claims);
  }

  lemma DealtFurther(env: Policies, s: State, parts: seq<Part>, part: Part, done: seq<Settlement>, event: Settlement,
                     landing: Settlement -> Option<nat>, counters: Counters, rows: Rows, counters': Counters, rows': Rows)
    requires Dealt(env, s, parts, done, landing, counters, rows)
    requires part.landed == landing(event) && PartRuns(env, After(env, s, Flatten(parts)), part)
    requires Tracks(env, After(env, s, Flatten(parts)), StepsOf(part), counters', rows')
    ensures Dealt(env, s, parts + [part], done + [event], landing, counters', rows')
  {
    PartsFurther(env, s, parts, part, done, event, landing);
    TracksFurther(env, s, parts, part, counters, rows, counters', rows');
  }

  lemma RowsFurther(before: Rows, rows: Rows, rows': Rows, chainId: nat, done: seq<Settlement>, event: Settlement, reconciled: nat, claims: nat)
    requires RowsOffered(before, rows, chainId, done, reconciled)
    requires OnlyMarked(rows, rows') && Handled(rows', chainId, event) && |Reconciled(rows')| == |Reconciled(rows)| + claims
    ensures RowsOffered(before, rows', chainId, done + [event], reconciled + claims)
  {
    MarkedFurther(before, rows, rows');
    OneMoreHandled(rows, rows', chainId, done, event);
  }

  lemma MarkedFurther(before: Rows, rows: Rows, rows': Rows)
    requires OnlyMarked(before, rows) && OnlyMarked(rows, rows')
    ensures OnlyMarked(before, rows')
  {
  }

  lemma PartsFurther(env: Policies, s: State, parts: seq<Part>, part: Part, events: seq<Settlement>, event: Settlement,
                     landing: Settlement -> Option<nat>)
    requires PartsOf(env, s, parts, events, landing) && part.landed == landing(event)
    requires ValidRun(env, s, Flatten(parts)) && PartRuns(env, After(env, s, Flatten(parts)), part)
    ensures PartsOf(env, s, parts + [part], events + [event], landing)
  {
    OnePartMore(env, s, parts, part);
    LandedFurther(parts, part, events, event, landing);
  }

  lemma TracksFurther(env: Policies, s: State, parts: seq<Part>, part: Part, counters: Counters, rows: Rows, counters': Counters, rows': Rows)
    requires PartsRun(env, s, parts) && Tracks(env, s, Flatten(parts), counters, rows)
    requires PartRuns(env, After(env, s, Flatten(parts)), part)
    requires Tracks(env, After(env, s, Flatten(parts)), StepsOf(part), counters', rows')
    ensures Tracks(env, s, Flatten(parts + [part]), counters', rows')
  {
    OnePartMore(env, s, parts, part);
  }

  lemma EventsAreSourced(s: State, rows: Rows, chainId: nat, chain: seq<Settlement>, from: nat, to: nat, landing: Settlement -> Option<nat>)
    requires forall i | 0 <= i < |chain| :: Sourced(s, rows, chainId, chain[i], landing(chain[i]))
    ensures forall i | 0 <= i < |EventsIn(chain, from, to)| ::
              Sourced(s, rows, chainId, EventsIn(chain, from, to)[i], landing(EventsIn(chain, from, to)[i]))
  {
    EventsInChain(chain, from, to);
    var events := EventsIn(chain, from, to);
    forall i | 0 <= i < |events| ensures Sourced(s, rows, chainId, events[i], landing(events[i])) {
      assert events[i] in events;
      var j :| 0 <= j < |chain| && chain[j] == events[i];
    }
  }

  /** What the node returns for the chain is what the scan protocol knows to have been mined. */
  ghost predicate Reports(p: P.State, chain: seq<Settlement>, landing: Settlement -> Option<nat>) {
    && (forall event <- chain | landing(event).Some? ::
          landing(event).value in p.minedAt && p.minedAt[landing(event).value] == event.blockNumber)
    && (forall id <- p.minedAt :: exists event <- chain :: landing(event) == Some(id))
  }

  function TickSteps(replica: nat, latest: nat, parts: seq<Part>): seq<P.Step> {
    [P.Begin(replica, latest, Ours(parts))] + (OfferAll(replica, parts) + [P.Finish(replica)])
  }

  lemma {:induction false} OursAreLanded(parts: seq<Part>, id: nat)
    ensures id in Ours(parts) <==> exists i | 0 <= i < |parts| :: parts[i].landed == Some(id)
  {
    if parts != [] {
      var front, last := parts[..|parts| - 1], parts[|parts| - 1];
      OursAreLanded(front, id);
      if last.landed == Some(id) {
        assert parts[|parts| - 1].landed == Some(id);
      }
      if i :| 0 <= i < |front| && front[i].landed == Some(id) {
        assert parts[i].landed == Some(id);
      }
      if i :| 0 <= i < |parts| && parts[i].landed == Some(id) {
        assert i < |front| ==> front[i].landed == Some(id);
      }
    }
  }

  /** The events offered are exactly those mined in the window. */
  lemma WindowIsComplete(p: P.State, chain: seq<Settlement>, landing: Settlement -> Option<nat>, from: nat, to: nat, parts: seq<Part>)
    requires Reports(p, chain, landing) && |parts| == |EventsIn(chain, from, to)|
    requires forall i | 0 <= i < |parts| :: parts[i].landed == landing(EventsIn(chain, from, to)[i])
    ensures forall id <- Ours(parts) :: id in p.minedAt && from <= p.minedAt[id] <= to
    ensures forall id <- p.minedAt :: from <= p.minedAt[id] <= to ==> id in Ours(parts)
  {
    var events := EventsIn(chain, from, to);
    EventsInChain(chain, from, to);
    forall id <- Ours(parts) ensures id in p.minedAt && from <= p.minedAt[id] <= to {
      OursAreLanded(parts, id);
      var i :| 0 <= i < |parts| && parts[i].landed == Some(id);
      assert events[i] in events && landing(events[i]) == Some(id);
    }
    forall id <- p.minedAt | from <= p.minedAt[id] <= to ensures id in Ours(parts) {
      var event :| event in chain && landing(event) == Some(id);
      assert event in events;
      var i :| 0 <= i < |events| && events[i] == event;
      assert parts[i].landed == Some(id);
      OursAreLanded(parts, id);
    }
  }

  /**
   * A tick of `ReconcileChain` is a run of the scan protocol: begin a window, offer its events one by one, refund
   * what is claimed, finish; it leaves the same budget and the same checkpoint.
   */
  lemma TickIsScan(env: Policies, c: P.Config, p: P.State, replica: nat, latest: nat, chain: seq<Settlement>,
                   landing: Settlement -> Option<nat>, from: nat, to: nat, parts: seq<Part>)
    requires NextWindow(latest, Some(p.checkpoint), c.options) == Some((from, to))
    requires replica !in p.scans && latest <= p.head && Reports(p, chain, landing)
    requires PartsOf(env, p.budget, parts, EventsIn(chain, from, to), landing)
    ensures ValidRun(env, p.budget, Flatten(parts)) && P.ValidRun(env, c, p, TickSteps(replica, latest, parts))
    ensures P.After(env, c, p, TickSteps(replica, latest, parts))
            == p.(budget := After(env, p.budget, Flatten(parts)), checkpoint := to)
  {
    var begin := P.Begin(replica, latest, Ours(parts));
    WindowsAreContiguous(latest, Some(p.checkpoint), c.options);
    WindowIsComplete(p, chain, landing, from, to, parts);
    BeginOpens(env, c, p, begin, from, to);
    OffersFinish(env, c, p, replica, from, to, parts);
    ScanCons(env, c, p, begin, OfferAll(replica, parts) + [P.Finish(replica)]);
  }

  /** From an open window on: its events are offered, and it finishes. */
  lemma OffersFinish(env: Policies, c: P.Config, p: P.State, replica: nat, from: nat, to: nat, parts: seq<Part>)
    requires replica !in p.scans && p.checkpoint < to && PartsRun(env, p.budget, parts)
    ensures var p1, steps := p.(scans := p.scans[replica := P.Scan(from, to, Ours(parts))]), OfferAll(replica, parts) + [P.Finish(replica)];
            && P.ValidRun(env, c, p1, steps) && ValidRun(env, p.budget, Flatten(parts))
            && P.After(env, c, p1, steps) == p.(budget := After(env, p.budget, Flatten(parts)), checkpoint := to)
  {
    var p1 := p.(scans := p.scans[replica := P.Scan(from, to, Ours(parts))]);
    assert Ours(parts) + [] == Ours(parts);
    PartsAreOffers(env, c, p1, replica, parts, []);
    ScanSnoc(env, c, p1, OfferAll(replica, parts), P.Finish(replica));
    FinishedScan(env, c, p, P.After(env, c, p1, OfferAll(replica, parts)), replica);
  }

  lemma BeginOpens(env: Policies, c: P.Config, p: P.State, begin: P.Step, from: nat, to: nat)
    requires begin.Begin? && NextWindow(begin.latest, Some(p.checkpoint), c.options) == Some((from, to))
    requires begin.replica !in p.scans && begin.latest <= p.head
    requires forall id <- begin.todo :: id in p.minedAt && from <= p.minedAt[id] <= to
    requires forall id <- p.minedAt :: from <= p.minedAt[id] <= to ==> id in begin.todo
    ensures P.Enabled(env, c, p, begin)
    ensures P.Apply(env, c, p, begin) == p.(scans := p.scans[begin.replica := P.Scan(from, to, begin.todo)])
  {
  }

  lemma ScanSnoc(env: Policies, c: P.Config, p: P.State, steps: seq<P.Step>, step: P.Step)
    requires P.ValidRun(env, c, p, steps) && P.Enabled(env, c, P.After(env, c, p, steps), step)
    ensures P.ValidRun(env, c, p, steps + [step]) && P.After(env, c, p, steps + [step]) == P.Apply(env, c, P.After(env, c, p, steps), step)
  {
    ScanCons(env, c, P.After(env, c, p, steps), step, []);
    ScanAppend(env, c, p, steps, [step]);
  }

  lemma FinishedScan(env: Policies, c: P.Config, p: P.State, p2: P.State, replica: nat)
    requires replica !in p.scans && replica in p2.scans && p2.scans - {replica} == p.scans
    requires p2 == p.(budget := p2.budget, scans := p2.scans) && p2.scans[replica].todo == [] && p.checkpoint < p2.scans[replica].to
    ensures P.Apply(env, c, p2, P.Finish(replica)) == p.(budget := p2.budget, checkpoint := p2.scans[replica].to)
  {
  }

  ghost predicate AllHandled(rows: Rows, chainId: nat, events: seq<Settlement>) {
    forall i | 0 <= i < |events| :: Handled(rows, chainId, events[i])
  }

  lemma OneMoreHandled(rows: Rows, rows': Rows, chainId: nat, done: seq<Settlement>, event: Settlement)
    requires AllHandled(rows, chainId, done) && OnlyMarked(rows, rows') && Handled(rows', chainId, event)
    ensures AllHandled(rows', chainId, done + [event])
  {
    var more := done + [event];
    forall j | 0 <= j < |more| ensures Handled(rows', chainId, more[j]) {
      if j < |done| {
        assert more[j] == done[j];
        MarkingKeepsHandled(rows, rows', chainId, done[j]);
      }
    }
  }

  lemma KnownAfter(env: Policies, s: State, s1: State, rows: Rows)
    requires Agrees(s1, rows) && s1.requests == s.requests && forall id <- rows :: id in s.rows
    requires forall id <- s.rows :: Known(env, s, id)
    ensures forall id <- s1.rows :: Known(env, s1, id)
  {
  }

  lemma {:induction false} EventsInChain(chain: seq<Settlement>, from: nat, to: nat)
    ensures forall event :: event in EventsIn(chain, from, to) <==> event in chain && from <= event.blockNumber <= to
  {
    if chain != [] {
      EventsInChain(chain[1..], from, to);
    }
  }

  lemma NothingToClaim(rows: Rows, chainId: nat, event: Settlement)
    requires forall id :: !Claimable(rows, id, chainId, event.sender, event.nonce)
    ensures Handled(rows, chainId, event)
  {
    forall id | RowOfEvent(rows, id, chainId, event) ensures rows[id].actualCostWei.Some? {
      assert !Claimable(rows, id, chainId, event.sender, event.nonce);
    }
  }

  lemma ClaimMarks(rows: Rows, id: nat, chainId: nat, event: Settlement)
    requires Claimable(rows, id, chainId, event.sender, event.nonce)
    ensures var rows' := rows[id := rows[id].(actualCostWei := Some(event.actualGasCostWei))];
            && OnlyMarked(rows, rows') && Handled(rows', chainId, event)
            && |Reconciled(rows')| == |Reconciled(rows)| + 1
  {
    var rows' := rows[id := rows[id].(actualCostWei := Some(event.actualGasCostWei))];
    assert RowOfEvent(rows', id, chainId, event) && rows'[id].actualCostWei.Some?;
    assert Reconciled(rows') == Reconciled(rows) + {id};
  }

  lemma ClaimThenRefunds(env: Policies, s: State, rows: Rows, id: nat, landed: nat, refunds: seq<Step>)
    requires Enabled(env, s, Step.Claim(id, landed))
    requires var s1 := Apply(env, s, Step.Claim(id, landed));
             Agrees(s1, rows) && ValidRun(env, s1, refunds) && OnlyRefunded(s1, After(env, s1, refunds))
    ensures var steps := [Step.Claim(id, landed)] + refunds;
            && ValidRun(env, s, steps)
            && After(env, s, steps) == After(env, Apply(env, s, Step.Claim(id, landed)), refunds)
            && Agrees(After(env, s, steps), rows)
            && After(env, s, steps).requests == s.requests && After(env, s, steps).landed == s.landed
  {
    var s1 := Apply(env, s, Step.Claim(id, landed));
    RunCons(env, s, Step.Claim(id, landed), refunds);
    RefundsAgree(s1, After(env, s1, refunds), rows);
  }

  lemma ClaimedPart(env: Policies, s: State, rows: Rows, id: nat, landed: nat, refunds: seq<Step>)
    requires Enabled(env, s, Step.Claim(id, landed)) && AllRefunds(refunds)
    requires var s1 := Apply(env, s, Step.Claim(id, landed));
             Agrees(s1, rows) && ValidRun(env, s1, refunds) && OnlyRefunded(s1, After(env, s1, refunds))
    ensures var part := Part(Some(landed), Some(id), refunds);
            PartRuns(env, s, part)
            && Tracks(env, s, StepsOf(part), After(env, Apply(env, s, Step.Claim(id, landed)), refunds).counters, rows)
  {
    ClaimThenRefunds(env, s, rows, id, landed, refunds);
  }

  lemma UnclaimedPart(env: Policies, s: State, rows: Rows, part: Part)
    requires Agrees(s, rows) && part.claimed.None? && (part.landed.Some? ==> AllClaimed(s, part.landed.value))
    ensures PartRuns(env, s, part) && Tracks(env, s, StepsOf(part), s.counters, rows)
  {
  }

  lemma RefundsAgree(s: State, s': State, rows: Rows)
    requires OnlyRefunded(s, s') && Agrees(s, rows)
    ensures Agrees(s', rows)
  {
    assert forall id <- rows :: RowOf(s', id) == RowOf(s, id);
  }

  /** The event is that of a landed operation. */
  ghost predicate Settles(s: State, chainId: nat, event: Settlement, landed: nat) {
    && landed in s.landed && landed in s.requests
    && OperationOf(s.requests[landed]) == Operation(chainId, Lower(event.sender), event.nonce)
    && s.landed[landed] == event.actualGasCostWei
  }

  /** The run `steps` from `s` leads to these counters and rows, with requests and landings as they were. */
  ghost predicate Tracks(env: Policies, s: State, steps: seq<Step>, counters: Counters, rows: Rows) {
    && ValidRun(env, s, steps)
    && After(env, s, steps).counters == counters && Agrees(After(env, s, steps), rows)
    && After(env, s, steps).requests == s.requests && After(env, s, steps).landed == s.landed
  }

  predicate RowOfEvent(rows: Rows, id: nat, chainId: nat, event: Settlement) {
    id in rows && rows[id].chainId == chainId && rows[id].sender == Lower(event.sender) && rows[id].nonce == event.nonce
  }

  /** If the operation was sponsored by us at all, one of its attestations is reconciled. */
  ghost predicate Handled(rows: Rows, chainId: nat, event: Settlement) {
    (exists id :: RowOfEvent(rows, id, chainId, event)) ==>
      exists id :: RowOfEvent(rows, id, chainId, event) && rows[id].actualCostWei.Some?
  }

  function Reconciled(rows: Rows): set<nat> {
    set id | id in rows && rows[id].actualCostWei.Some?
  }

  /** Rows are only ever marked: nothing is added, removed, rewritten or unmarked. */
  ghost predicate OnlyMarked(rows: Rows, rows': Rows) {
    && rows'.Keys == rows.Keys
    && forall id <- rows :: && rows'[id].(actualCostWei := rows[id].actualCostWei) == rows[id]
                            && (rows[id].actualCostWei.Some? ==> rows'[id] == rows[id])
  }

  lemma MarkingKeepsHandled(rows: Rows, rows': Rows, chainId: nat, event: Settlement)
    requires OnlyMarked(rows, rows') && Handled(rows, chainId, event)
    ensures Handled(rows', chainId, event)
  {
    if exists id :: RowOfEvent(rows', id, chainId, event) {
      var id :| RowOfEvent(rows', id, chainId, event);
      assert RowOfEvent(rows, id, chainId, event);
      var marked :| RowOfEvent(rows, marked, chainId, event) && rows[marked].actualCostWei.Some?;
      assert RowOfEvent(rows', marked, chainId, event) && rows'[marked].actualCostWei.Some?;
    }
  }

  lemma ClaimIsEnabled(env: Policies, s: State, rows: Rows, id: nat, landed: nat, chainId: nat, event: Settlement)
    requires Agrees(s, rows) && Known(env, s, id)
    requires Claimable(rows, id, chainId, event.sender, event.nonce) && Settles(s, chainId, event, landed)
    ensures Enabled(env, s, Step.Claim(id, landed)) && s.landed[landed] == event.actualGasCostWei && rows[id] == RowOf(s, id)
  {
    assert rows[id] == RowOf(s, id);
  }

  lemma ClaimAgrees(env: Policies, s: State, rows: Rows, id: nat, landed: nat)
    requires Agrees(s, rows) && id in rows && Enabled(env, s, Step.Claim(id, landed))
    ensures Agrees(Apply(env, s, Step.Claim(id, landed)), rows[id := rows[id].(actualCostWei := Some(s.landed[landed]))])
  {
    var s1 := Apply(env, s, Step.Claim(id, landed));
    assert rows[id] == RowOf(s, id);
    assert forall other <- rows | other != id :: RowOf(s1, other) == RowOf(s, other);
  }

  lemma ClaimMakesDue(env: Policies, s: State, id: nat, landed: nat)
    requires Enabled(env, s, Step.Claim(id, landed))
    ensures forall i | 0 <= i < |RulesOf(env, s, id)| && RulesOf(env, s, id)[i].Reserve? ::
              HoldId(id, i) in Apply(env, s, Step.Claim(id, landed)).refunds
  {
    forall i | 0 <= i < |RulesOf(env, s, id)| && RulesOf(env, s, id)[i].Reserve?
      ensures HoldId(id, i) in Apply(env, s, Step.Claim(id, landed)).refunds
    {
      assert i in ReservingUpTo(RulesOf(env, s, id), |RulesOf(env, s, id)|);
    }
  }

  /** A claim on the table is a claim step of the protocol. */
  lemma ClaimIsStep(env: Policies, s: State, rows: Rows, id: nat, landed: nat, chainId: nat, event: Settlement)
    requires Agrees(s, rows) && Known(env, s, id)
    requires Claimable(rows, id, chainId, event.sender, event.nonce) && Settles(s, chainId, event, landed)
    ensures Enabled(env, s, Step.Claim(id, landed))
    ensures var s1 := Apply(env, s, Step.Claim(id, landed));
            && s1.counters == s.counters && s1.requests == s.requests && s1.landed == s.landed
            && Agrees(s1, rows[id := rows[id].(actualCostWei := Some(event.actualGasCostWei))])
            && s1.rows[id].claimed == Some(event.actualGasCostWei)
            && forall i | 0 <= i < |RulesOf(env, s, id)| && RulesOf(env, s, id)[i].Reserve? :: HoldId(id, i) in s1.refunds
  {
    ClaimIsEnabled(env, s, rows, id, landed, chainId, event);
    ClaimAgrees(env, s, rows, id, landed);
    ClaimMakesDue(env, s, id, landed);
  }
}
