/** The budget protocol keeps its invariant under every step, hence over every run. */
module BudgetSafety {
  import opened Text
  import opened Windows
  import opened QuotaStores
  import opened QuotaRules
  import opened Engine
  import opened Budget

  // ---------------------------------------------------------------------------------------------
  // Counters and holds

  lemma TakeKeepsBooks(counters: Counters, holds: map<HoldId, Hold>, h: HoldId, q: Quota, taken: string, amount: nat,
                       slot: string, stray: nat, missed: nat)
    requires BooksAt(counters, holds, slot, stray, missed)
    requires h !in holds && Fits(counters, taken, amount, CountedLimit(q))
    ensures BooksAt(Consumed(counters, taken, amount, CountedLimit(q)), holds[h := Hold(q, taken, amount)], slot, stray, missed)
  {
    var holds' := holds[h := Hold(q, taken, amount)];
    assert holds' - {h} == holds - {h};
    HeldChange(holds, holds', h, OnSlot(slot));
    forall quota: Quota ensures Held(holds', OfQuota(quota, slot)) <= CountedLimit(quota) + stray {
      HeldChange(holds, holds', h, OfQuota(quota, slot));
      QuotaHoldsWithinSlot(holds, quota, slot);
    }
  }

  /** Giving back part of a hold, or all of it, takes that much off its counter, down to zero. */
  lemma GiveBackKeepsBooks(counters: Counters, holds: map<HoldId, Hold>, h: HoldId, amount: nat, holds': map<HoldId, Hold>,
                           slot: string, stray: nat, missed: nat)
    requires BooksAt(counters, holds, slot, stray, missed)
    requires h in holds && amount <= holds[h].amount
    requires holds' - {h} == holds - {h}
    requires if h in holds' then holds'[h] == holds[h].(amount := holds[h].amount - amount) else amount == holds[h].amount
    ensures BooksAt(Released(counters, holds[h].slot, amount), holds', slot, stray, missed)
  {
    HeldRemove(holds, h, OnSlot(slot));
    HeldChange(holds, holds', h, OnSlot(slot));
    forall quota: Quota ensures Held(holds', OfQuota(quota, slot)) <= CountedLimit(quota) + stray {
      HeldChange(holds, holds', h, OfQuota(quota, slot));
    }
  }

  /** A give-back that reaches another counter: that counter loses as stray what it loses, the hold's own as missed what the hold loses. */
  lemma StrayKeepsBooks(counters: Counters, counters': Counters, holds: map<HoldId, Hold>, holds': map<HoldId, Hold>, h: HoldId,
                        slot: string, stray: nat, missed: nat)
    requires BooksAt(counters, holds, slot, stray, missed)
    requires holds' - {h} == holds - {h} && Usage(counters', slot) <= Usage(counters, slot)
    requires forall q: Query :: WeightAt(holds', h, q) <= WeightAt(holds, h, q)
    ensures BooksAt(counters', holds', slot, stray + TakenOff(counters, counters', slot),
                    missed + (WeightAt(holds, h, OnSlot(slot)) - WeightAt(holds', h, OnSlot(slot))))
  {
    HeldChange(holds, holds', h, OnSlot(slot));
    forall quota: Quota ensures Held(holds', OfQuota(quota, slot)) <= CountedLimit(quota) + stray {
      HeldChange(holds, holds', h, OfQuota(quota, slot));
    }
  }

  ghost predicate BooksKept(env: Policies, s: State, step: Step, slot: string, stray: nat, missed: nat)
    requires Enabled(env, s, step)
  {
    var s' := Apply(env, s, step);
    BooksAt(s'.counters, s'.holds, slot, stray + StrayOf(env, s, step, slot), missed + MissedOf(env, s, step, slot))
  }

  lemma EvaluateKeepsBooks(env: Policies, s: State, id: nat, world: World, slot: string, stray: nat, missed: nat)
    requires Inv(env, s) && Enabled(env, s, Evaluate(id, world)) && BooksAt(s.counters, s.holds, slot, stray, missed)
    ensures BooksKept(env, s, Evaluate(id, world), slot, stray, missed)
  {
    var request := s.requests[id];
    var i, ctx := request.phase.next, request.ctx;
    var rule := RulesOf(env, s, id)[i];
    var h := HoldId(id, i);
    assert h !in s.holds;
    if rule.Reserve? && SlotFor(rule.quota, ctx).Some? {
      var taken, amount := SlotFor(rule.quota, ctx).value, AmountFor(rule.quota, ctx);
      if Fits(s.counters, taken, amount, CountedLimit(rule.quota)) {
        TakeKeepsBooks(s.counters, s.holds, h, rule.quota, taken, amount, slot, stray, missed);
      }
    }
  }

  lemma UndoFinds(env: Policies, s: State, id: nat, i: nat, link: Link)
    requires Inv(env, s) && Enabled(env, s, Undo(id, i, link))
    ensures Stands(s.holds, RulesOf(env, s, id), s.requests[id].ctx, id, i)
  {
    assert Covered(env, s, id);
  }

  lemma ReleaseKeepsBooks(s: State, id: nat, i: nat, rules: seq<Rule>, ctx: Context, link: Link, slot: string, stray: nat, missed: nat)
    requires BooksAt(s.counters, s.holds, slot, stray, missed) && i < |rules| && rules[i].Reserve? && Stands(s.holds, rules, ctx, id, i)
    ensures BooksAt(QuotaRules.AfterRelease(rules[i].quota, s.counters, ctx, link), HoldsAfterUndo(s, id, i, rules[i].quota, ctx, link),
                    slot, stray, missed)
  {
    var h, q := HoldId(id, i), rules[i].quota;
    if SlotFor(q, ctx).Some? && link != RequestLost {
      GiveBackKeepsBooks(s.counters, s.holds, h, s.holds[h].amount, s.holds - {h}, slot, stray, missed);
    }
  }

  lemma UndoKeepsBooks(env: Policies, s: State, id: nat, i: nat, link: Link, slot: string, stray: nat, missed: nat)
    requires Inv(env, s) && Enabled(env, s, Undo(id, i, link)) && BooksAt(s.counters, s.holds, slot, stray, missed)
    ensures BooksKept(env, s, Undo(id, i, link), slot, stray, missed)
  {
    UndoFinds(env, s, id, i, link);
    ReleaseKeepsBooks(s, id, i, RulesOf(env, s, id), s.requests[id].ctx, link, slot, stray, missed);
  }

  /** What a refund finds: a hold as reserved, if its rule charges at all, and a counter that does not depend on the cost. */
  lemma RefundFinds(env: Policies, s: State, id: nat, i: nat, link: Link)
    requires Inv(env, s) && Enabled(env, s, Refund(id, i, link))
    ensures var rules, ctx, row := RulesOf(env, s, id), s.requests[id].ctx, s.rows[id];
            var q, r := rules[i].quota, TrueUpOf(ctx, row.createdAt, row.claimed.value);
            && Stands(s.holds, rules, ctx, id, i)
            && (HoldId(id, i) in s.holds ==> s.holds[HoldId(id, i)].slot == SlotFor(q, ctx).value && Charges(rules, ctx, i))
            && TrueUpSlot(q, r) == TrueUpSlot(q, TrueUpOf(ctx, row.createdAt, 0))
            && OverReserved(r) <= CeilGwei(ctx.maxCost)
            && (TrueUpSlot(q, r).Some? ==> q.unit == Wei)
  {
    assert Covered(env, s, id);
    assert Settled(s, RulesOf(env, s, id), s.requests[id].ctx, id, i);
    if HoldId(id, i) in s.holds {
      assert HoldKnown(env, s, HoldId(id, i));
    }
  }

  /** A refund takes the hold down to the smaller of reserved and actual, whatever counter it reaches. */
  lemma RefundSettles(env: Policies, s: State, id: nat, i: nat, link: Link)
    requires Inv(env, s) && Enabled(env, s, Refund(id, i, link))
    ensures Settled(Apply(env, s, Refund(id, i, link)), RulesOf(env, s, id), s.requests[id].ctx, id, i)
  {
    RefundFinds(env, s, id, i, link);
  }

  /** A refund that reaches the counter charged, or another one. */
  lemma MoneyBackKeepsBooks(counters: Counters, holds: map<HoldId, Hold>, h: HoldId, over: nat, charged: Option<string>, reached: string,
                            slot: string, stray: nat, missed: nat)
    requires BooksAt(counters, holds, slot, stray, missed)
    requires h in holds ==> charged == Some(holds[h].slot)
    requires charged == Some(reached) ==> h in holds && over <= holds[h].amount
    ensures var counters', holds' := Released(counters, reached, over), HoldsLess(holds, h, over);
            BooksAt(counters', holds', slot, stray + StrayIn(charged, counters, counters', slot),
                    missed + MissedIn(Some(reached), holds, holds', h, slot))
  {
    var counters', holds' := Released(counters, reached, over), HoldsLess(holds, h, over);
    assert holds' - {h} == holds - {h};
    if charged == Some(reached) {
      GiveBackKeepsBooks(counters, holds, h, over, holds', slot, stray, missed);
    } else {
      StrayKeepsBooks(counters, counters', holds, holds', h, slot, stray, missed);
    }
  }

  /** Books after a true-up of quota `q` for a request that was charged on `charged`. */
  lemma TrueUpKeepsBooks(s: State, h: HoldId, q: Quota, r: SpendTrueUp, link: Link, charged: Option<string>,
                         slot: string, stray: nat, missed: nat)
    requires BooksAt(s.counters, s.holds, slot, stray, missed)
    requires h in s.holds ==> charged == Some(s.holds[h].slot)
    requires TrueUpSlot(q, r).Some? && charged == TrueUpSlot(q, r) ==> h in s.holds && OverReserved(r) <= s.holds[h].amount
    ensures var counters', holds' := AfterTrueUp(q, s.counters, r, link), HoldsAfterRefund(s, h, q, r, link);
            BooksAt(counters', holds', slot, stray + StrayIn(charged, s.counters, counters', slot),
                    missed + MissedIn(TrueUpSlot(q, r), s.holds, holds', h, slot))
  {
    if TrueUpSlot(q, r).Some? && OverReserved(r) != 0 && link != RequestLost {
      MoneyBackKeepsBooks(s.counters, s.holds, h, OverReserved(r), charged, TrueUpSlot(q, r).value, slot, stray, missed);
    }
  }

  lemma RefundApplies(env: Policies, s: State, id: nat, i: nat, link: Link, q: Quota, ctx: Context, r: SpendTrueUp, slot: string)
    requires Enabled(env, s, Refund(id, i, link)) && q == RulesOf(env, s, id)[i].quota && ctx == s.requests[id].ctx
    requires r == TrueUpOf(ctx, s.rows[id].createdAt, s.rows[id].claimed.value)
    ensures var s', step := Apply(env, s, Refund(id, i, link)), Refund(id, i, link);
            && s'.counters == AfterTrueUp(q, s.counters, r, link) && s'.holds == HoldsAfterRefund(s, HoldId(id, i), q, r, link)
            && StrayOf(env, s, step, slot) == StrayIn(SlotFor(q, ctx), s.counters, s'.counters, slot)
            && MissedOf(env, s, step, slot) == MissedIn(TrueUpSlot(q, r), s.holds, s'.holds, HoldId(id, i), slot)
  {
  }

  lemma RefundCharged(env: Policies, s: State, id: nat, i: nat, link: Link, q: Quota, ctx: Context, r: SpendTrueUp)
    requires Inv(env, s) && Enabled(env, s, Refund(id, i, link)) && q == RulesOf(env, s, id)[i].quota && ctx == s.requests[id].ctx
    requires r == TrueUpOf(ctx, s.rows[id].createdAt, s.rows[id].claimed.value)
    ensures HoldId(id, i) in s.holds ==> SlotFor(q, ctx) == Some(s.holds[HoldId(id, i)].slot)
    ensures TrueUpSlot(q, r).Some? && SlotFor(q, ctx) == TrueUpSlot(q, r) ==>
              HoldId(id, i) in s.holds && OverReserved(r) <= s.holds[HoldId(id, i)].amount
  {
    RefundFinds(env, s, id, i, link);
  }

  lemma RefundBooks(env: Policies, s: State, id: nat, i: nat, link: Link, q: Quota, ctx: Context, r: SpendTrueUp,
                    slot: string, stray: nat, missed: nat)
    requires Inv(env, s) && Enabled(env, s, Refund(id, i, link)) && BooksAt(s.counters, s.holds, slot, stray, missed)
    requires q == RulesOf(env, s, id)[i].quota && ctx == s.requests[id].ctx
    requires r == TrueUpOf(ctx, s.rows[id].createdAt, s.rows[id].claimed.value)
    ensures var counters', holds' := AfterTrueUp(q, s.counters, r, link), HoldsAfterRefund(s, HoldId(id, i), q, r, link);
            BooksAt(counters', holds', slot, stray + StrayIn(SlotFor(q, ctx), s.counters, counters', slot),
                    missed + MissedIn(TrueUpSlot(q, r), s.holds, holds', HoldId(id, i), slot))
  {
    RefundCharged(env, s, id, i, link, q, ctx, r);
    TrueUpKeepsBooks(s, HoldId(id, i), q, r, link, SlotFor(q, ctx), slot, stray, missed);
  }

  lemma RefundKeepsBooks(env: Policies, s: State, id: nat, i: nat, link: Link, slot: string, stray: nat, missed: nat)
    requires Inv(env, s) && Enabled(env, s, Refund(id, i, link)) && BooksAt(s.counters, s.holds, slot, stray, missed)
    ensures BooksKept(env, s, Refund(id, i, link), slot, stray, missed)
  {
    var q, ctx := RulesOf(env, s, id)[i].quota, s.requests[id].ctx;
    var r := TrueUpOf(ctx, s.rows[id].createdAt, s.rows[id].claimed.value);
    RefundBooks(env, s, id, i, link, q, ctx, r, slot, stray, missed);
    RefundApplies(env, s, id, i, link, q, ctx, r, slot);
  }

  // ---------------------------------------------------------------------------------------------
  // Requests and their holds

  /** A step leaves request `id` alone: same request, same row, same holds, same refunds due. */
  ghost predicate SameFor(s: State, s': State, id: nat) {
    && id in s.requests && id in s'.requests && s'.requests[id] == s.requests[id]
    && (id in s.rows <==> id in s'.rows)
    && (id in s.rows ==> s'.rows[id] == s.rows[id])
    && (forall h: HoldId | h.request == id && h in s.holds :: h in s'.holds && s'.holds[h] == s.holds[h])
    && (forall h: HoldId | h.request == id :: h in s'.refunds <==> h in s.refunds)
  }

  lemma EvaluateFrame(env: Policies, s: State, step: Step, id: nat)
    requires Enabled(env, s, step) && step.Evaluate? && id in s.requests && id != step.id
    ensures SameFor(s, Apply(env, s, step), id)
  {
  }

  lemma UndoFrame(env: Policies, s: State, step: Step, id: nat)
    requires Enabled(env, s, step) && step.Undo? && id in s.requests && id != step.id
    ensures SameFor(s, Apply(env, s, step), id)
  {
  }

  lemma RefundFrame(env: Policies, s: State, step: Step, id: nat)
    requires Enabled(env, s, step) && step.Refund? && id in s.requests && id != step.id
    ensures SameFor(s, Apply(env, s, step), id)
  {
  }

  /** A step of one request leaves the others alone. */
  lemma StepFrame(env: Policies, s: State, step: Step, id: nat)
    requires Enabled(env, s, step) && id in s.requests && id != step.id
    ensures SameFor(s, Apply(env, s, step), id)
  {
    if step.Evaluate? {
      EvaluateFrame(env, s, step, id);
    } else if step.Undo? {
      UndoFrame(env, s, step, id);
    } else if step.Refund? {
      RefundFrame(env, s, step, id);
    }
  }

  lemma CoveredFrame(env: Policies, s: State, s': State, id: nat)
    requires SameFor(s, s', id) && Covered(env, s, id)
    ensures Covered(env, s', id)
  {
    var request := s.requests[id];
    var rules, ctx := env[request.policy], request.ctx;
    forall i | 0 <= i < |rules| && Stands(s.holds, rules, ctx, id, i)
      ensures Stands(s'.holds, rules, ctx, id, i)
    {
      assert HoldId(id, i).request == id;
    }
    if request.phase.Attested? {
      forall i | 0 <= i < |rules| ensures Settled(s', rules, ctx, id, i) {
        assert Settled(s, rules, ctx, id, i);
        assert HoldId(id, i).request == id;
      }
    }
  }

  lemma ReservedStands(s: State, rules: seq<Rule>, id: nat, i: nat, ctx: Context, link: Link)
    requires i < |rules| && rules[i].Reserve?
    requires Verdict(rules[i].quota, s.counters, ctx, link) == Some(Allow)
    ensures Stands(HoldsAfterEvaluate(s, id, i, rules[i].quota, ctx, link), rules, ctx, id, i)
  {
  }

  lemma EarlierHoldsStay(s: State, rules: seq<Rule>, id: nat, i: nat, j: nat, ctx: Context, link: Link)
    requires j < i < |rules| && rules[i].Reserve? && Stands(s.holds, rules, ctx, id, j)
    ensures Stands(HoldsAfterEvaluate(s, id, i, rules[i].quota, ctx, link), rules, ctx, id, j)
  {
    assert HoldId(id, j) != HoldId(id, i);
  }

  lemma EarlierStand(env: Policies, s: State, id: nat, world: World, j: nat)
    requires Inv(env, s) && Enabled(env, s, Evaluate(id, world)) && j < s.requests[id].phase.next
    ensures Stands(Apply(env, s, Evaluate(id, world)).holds, RulesOf(env, s, id), s.requests[id].ctx, id, j)
  {
    var request := s.requests[id];
    var rules, ctx, n := env[request.policy], request.ctx, request.phase.next;
    assert Covered(env, s, id);
    assert Stands(s.holds, rules, ctx, id, j);
    if rules[n].Reserve? {
      EarlierHoldsStay(s, rules, id, n, j, ctx, world.link);
    }
  }

  lemma PassedStands(env: Policies, s: State, id: nat, world: World)
    requires Enabled(env, s, Evaluate(id, world))
    requires RuleVerdict(RulesOf(env, s, id)[s.requests[id].phase.next], s.counters, s.requests[id].ctx, world).Allow?
    ensures Stands(Apply(env, s, Evaluate(id, world)).holds, RulesOf(env, s, id), s.requests[id].ctx, id, s.requests[id].phase.next)
  {
    var rules, n := RulesOf(env, s, id), s.requests[id].phase.next;
    if rules[n].Reserve? {
      ReservedStands(s, rules, id, n, s.requests[id].ctx, world.link);
    }
  }

  lemma EvaluatedPhase(env: Policies, s: State, id: nat, world: World)
    requires Enabled(env, s, Evaluate(id, world))
    ensures var s', rules, n := Apply(env, s, Evaluate(id, world)), RulesOf(env, s, id), s.requests[id].phase.next;
            && s'.rows == s.rows
            && s'.requests[id] == s.requests[id].(
                 phase := if RuleVerdict(rules[n], s.counters, s.requests[id].ctx, world).Allow? then Evaluating(n + 1)
                          else Unwinding(ReservingUpTo(rules, n)))
  {
  }

  lemma EvaluatedCovered(env: Policies, s: State, id: nat, world: World)
    requires Inv(env, s) && Enabled(env, s, Evaluate(id, world))
    ensures Covered(env, Apply(env, s, Evaluate(id, world)), id)
  {
    var s' := Apply(env, s, Evaluate(id, world));
    var rules, ctx, n := RulesOf(env, s, id), s.requests[id].ctx, s.requests[id].phase.next;
    assert Covered(env, s, id);
    EvaluatedPhase(env, s, id, world);
    forall j | 0 <= j < n ensures Stands(s'.holds, rules, ctx, id, j) {
      EarlierStand(env, s, id, world, j);
    }
    if RuleVerdict(rules[n], s.counters, ctx, world).Allow? {
      PassedStands(env, s, id, world);
    }
  }

  lemma UnwoundCovered(env: Policies, s: State, id: nat, i: nat, link: Link)
    requires Inv(env, s) && Enabled(env, s, Undo(id, i, link))
    ensures Covered(env, Apply(env, s, Undo(id, i, link)), id)
  {
    var s' := Apply(env, s, Undo(id, i, link));
    var request := s.requests[id];
    var rules, ctx := env[request.policy], request.ctx;
    assert Covered(env, s, id);
    forall j | j in request.phase.pending - {i}
      ensures j < |rules| && rules[j].Reserve? && Stands(s'.holds, rules, ctx, id, j)
    {
      assert Stands(s.holds, rules, ctx, id, j);
    }
  }

  lemma RecordedCovered(env: Policies, s: State, id: nat, createdAt: nat)
    requires Inv(env, s) && Enabled(env, s, Record(id, createdAt))
    ensures Covered(env, Apply(env, s, Record(id, createdAt)), id)
  {
    var s' := Apply(env, s, Record(id, createdAt));
    var request := s.requests[id];
    var rules, ctx := env[request.policy], request.ctx;
    assert Covered(env, s, id);
    forall i | 0 <= i < |rules| ensures Settled(s', rules, ctx, id, i) {
      assert Stands(s.holds, rules, ctx, id, i);
    }
  }

  lemma ClaimedCovered(env: Policies, s: State, id: nat, event: nat)
    requires Inv(env, s) && Enabled(env, s, Claim(id, event))
    ensures Covered(env, Apply(env, s, Claim(id, event)), id)
  {
    var s' := Apply(env, s, Claim(id, event));
    var request := s.requests[id];
    var rules, ctx := env[request.policy], request.ctx;
    assert Covered(env, s, id);
    forall i | 0 <= i < |rules| ensures Settled(s', rules, ctx, id, i) {
      assert Settled(s, rules, ctx, id, i);
      if rules[i].Reserve? {
        assert i in ReservingUpTo(rules, |rules|);
        assert HoldId(id, i) in s'.refunds;
      }
    }
  }

  lemma RefundedCovered(env: Policies, s: State, id: nat, i: nat, link: Link)
    requires Inv(env, s) && Enabled(env, s, Refund(id, i, link))
    ensures Covered(env, Apply(env, s, Refund(id, i, link)), id)
  {
    var s' := Apply(env, s, Refund(id, i, link));
    var request := s.requests[id];
    var rules, ctx := env[request.policy], request.ctx;
    assert Covered(env, s, id);
    RefundSettles(env, s, id, i, link);
    forall j | 0 <= j < |rules| && j != i ensures Settled(s', rules, ctx, id, j) {
      assert Settled(s, rules, ctx, id, j);
    }
  }

  lemma StepKeepsBooks(env: Policies, s: State, step: Step, slot: string, stray: nat, missed: nat)
    requires Inv(env, s) && Enabled(env, s, step) && BooksAt(s.counters, s.holds, slot, stray, missed)
    ensures BooksKept(env, s, step, slot, stray, missed)
  {
    match step
    case Evaluate(id, world) => EvaluateKeepsBooks(env, s, id, world, slot, stray, missed);
    case Undo(id, i, link) => UndoKeepsBooks(env, s, id, i, link, slot, stray, missed);
    case Refund(id, i, link) => RefundKeepsBooks(env, s, id, i, link, slot, stray, missed);
    case _ =>
  }

  lemma OwnCovered(env: Policies, s: State, step: Step)
    requires Inv(env, s) && Enabled(env, s, step)
    ensures Covered(env, Apply(env, s, step), step.id)
  {
    match step
    case Arrive(_, _, _, _) =>
    case Evaluate(id, world) => EvaluatedCovered(env, s, id, world);
    case Undo(id, i, link) => UnwoundCovered(env, s, id, i, link);
    case Fail(id) => assert Covered(env, s, id);
    case Record(id, createdAt) => RecordedCovered(env, s, id, createdAt);
    case Land(id, _) => CoveredFrame(env, s, Apply(env, s, step), id);
    case Claim(id, event) => ClaimedCovered(env, s, id, event);
    case Refund(id, i, link) => RefundedCovered(env, s, id, i, link);
  }

  lemma StepKeepsRequests(env: Policies, s: State, step: Step)
    requires Enabled(env, s, step)
    ensures Apply(env, s, step).requests.Keys == s.requests.Keys + {step.id}
  {
  }

  lemma StepCovers(env: Policies, s: State, step: Step)
    requires Inv(env, s) && Enabled(env, s, step)
    ensures AllCovered(env, Apply(env, s, step))
  {
    var s' := Apply(env, s, step);
    StepKeepsRequests(env, s, step);
    forall id <- s'.requests ensures Covered(env, s', id) {
      if id == step.id {
        OwnCovered(env, s, step);
      } else {
        StepFrame(env, s, step, id);
        assert Covered(env, s, id);
        CoveredFrame(env, s, s', id);
      }
    }
  }

  lemma OperationStays(env: Policies, s: State, step: Step, id: nat)
    requires Enabled(env, s, step) && id in s.requests
    ensures id in Apply(env, s, step).requests && OperationOf(Apply(env, s, step).requests[id]) == OperationOf(s.requests[id])
  {
  }

  /** A claimed row is never touched again. */
  lemma ClaimedRowStays(env: Policies, s: State, step: Step, id: nat)
    requires Enabled(env, s, step) && id in s.rows && s.rows[id].claimed.Some?
    requires id in s.requests && s.requests[id].phase.Attested?
    ensures id in Apply(env, s, step).rows && Apply(env, s, step).rows[id] == s.rows[id]
  {
  }

  lemma StepKeepsRow(env: Policies, s: State, step: Step, id: nat)
    requires Enabled(env, s, step) && id in Apply(env, s, step).rows
    requires id in s.rows ==> RowKnown(s, id)
    ensures RowKnown(Apply(env, s, step), id)
  {
  }

  lemma EvaluateHolds(env: Policies, s: State, id: nat, world: World, h: HoldId)
    requires Enabled(env, s, Evaluate(id, world))
    ensures var s', i := Apply(env, s, Evaluate(id, world)), s.requests[id].phase.next;
            && s'.requests == s.requests[id := s.requests[id].(phase := s'.requests[id].phase)]
            && (s'.requests[id].phase.Evaluating? ==> s'.requests[id].phase.next == i + 1)
            && (h in s'.holds && h != HoldId(id, i) ==> h in s.holds && s'.holds[h] == s.holds[h])
            && (HoldId(id, i) in s'.holds && HoldId(id, i) !in s.holds ==>
                  var q, slot := RulesOf(env, s, id)[i].quota, SlotFor(RulesOf(env, s, id)[i].quota, s.requests[id].ctx);
                  slot.Some? && RulesOf(env, s, id)[i].Reserve? && s'.holds[HoldId(id, i)] == Hold(q, slot.value, AmountFor(q, s.requests[id].ctx)))
  {
  }

  lemma TakenIsKnown(env: Policies, s: State, id: nat, world: World, h: HoldId)
    requires Enabled(env, s, Evaluate(id, world)) && h in Apply(env, s, Evaluate(id, world)).holds
    requires h in s.holds ==> HoldKnown(env, s, h)
    ensures HoldKnown(env, Apply(env, s, Evaluate(id, world)), h)
  {
    EvaluateHolds(env, s, id, world, h);
  }

  lemma RefundedIsKnown(env: Policies, s: State, id: nat, i: nat, link: Link, h: HoldId)
    requires Enabled(env, s, Refund(id, i, link)) && h in Apply(env, s, Refund(id, i, link)).holds
    requires h in s.holds ==> HoldKnown(env, s, h)
    ensures HoldKnown(env, Apply(env, s, Refund(id, i, link)), h)
  {
  }

  lemma UntakenIsKnown(env: Policies, s: State, step: Step, h: HoldId)
    requires Enabled(env, s, step) && !step.Evaluate? && !step.Refund? && h in Apply(env, s, step).holds
    requires h in s.holds ==> HoldKnown(env, s, h)
    ensures HoldKnown(env, Apply(env, s, step), h)
  {
    assert h in s.holds && Apply(env, s, step).holds[h] == s.holds[h];
  }

  lemma StepKeepsHold(env: Policies, s: State, step: Step, h: HoldId)
    requires Enabled(env, s, step) && h in Apply(env, s, step).holds
    requires h in s.holds ==> HoldKnown(env, s, h)
    ensures HoldKnown(env, Apply(env, s, step), h)
  {
    if step.Evaluate? {
      TakenIsKnown(env, s, step.id, step.world, h);
    } else if step.Refund? {
      RefundedIsKnown(env, s, step.id, step.rule, step.link, h);
    } else {
      UntakenIsKnown(env, s, step, h);
    }
  }

  lemma StepKeepsRefund(env: Policies, s: State, step: Step, h: HoldId)
    requires Enabled(env, s, step) && h in Apply(env, s, step).refunds
    requires h in s.refunds ==> RefundKnown(env, s, h)
    requires h.request in s.rows ==> RequestTraced(env, s, h.request)
    ensures RefundKnown(env, Apply(env, s, step), h)
  {
  }

  lemma StepKeepsAccounts(env: Policies, s: State, step: Step)
    requires Inv(env, s) && Enabled(env, s, step)
    ensures Accounted(env, Apply(env, s, step))
  {
    var s' := Apply(env, s, step);
    StepCovers(env, s, step);
    forall id <- s'.rows ensures RowKnown(s', id) {
      StepKeepsRow(env, s, step, id);
    }
    forall h <- s'.holds ensures HoldKnown(env, s', h) {
      StepKeepsHold(env, s, step, h);
    }
    forall h <- s'.refunds ensures RefundKnown(env, s', h) {
      if h.request in s.rows {
        assert RowKnown(s, h.request);
        assert Covered(env, s, h.request);
        assert RequestTraced(env, s, h.request);
      }
      StepKeepsRefund(env, s, step, h);
    }
  }

  lemma StepKeepsLandedOne(env: Policies, s: State, step: Step, id: nat)
    requires Enabled(env, s, step) && id in Apply(env, s, step).landed
    requires id in s.landed ==> id in s.requests && s.requests[id].phase.Attested? && s.landed[id] <= s.requests[id].ctx.maxCost
    ensures id in s.requests && (id !in s.landed ==> step == Land(id, Apply(env, s, step).landed[id]))
    ensures var s' := Apply(env, s, step);
            && id in s'.requests && s'.requests[id].phase.Attested? && s'.landed[id] <= s'.requests[id].ctx.maxCost
            && OperationOf(s'.requests[id]) == OperationOf(s.requests[id])
  {
  }

  lemma StepKeepsLanded(env: Policies, s: State, step: Step)
    requires LandedSound(s) && Enabled(env, s, step)
    ensures LandedSound(Apply(env, s, step))
  {
    var s' := Apply(env, s, step);
    forall a <- s'.landed, b <- s'.landed
      ensures a in s'.requests && s'.requests[a].phase.Attested? && s'.landed[a] <= s'.requests[a].ctx.maxCost
      ensures b in s'.requests && (OperationOf(s'.requests[a]) == OperationOf(s'.requests[b]) ==> a == b)
    {
      StepKeepsLandedOne(env, s, step, a);
      StepKeepsLandedOne(env, s, step, b);
    }
  }

  lemma StepKeepsClaim(env: Policies, s: State, step: Step, id: nat, event: nat)
    requires Enabled(env, s, step) && ClaimedBy(s, id, event)
    requires id in s.rows && s.requests[id].phase.Attested?
    requires forall landed <- s.landed :: landed in s.requests
    ensures ClaimedBy(Apply(env, s, step), id, event)
  {
  }

  lemma StepKeepsClaims(env: Policies, s: State, step: Step)
    requires Traced(env, s) && Enabled(env, s, step)
    ensures ClaimsSound(Apply(env, s, step))
  {
    var s' := Apply(env, s, step);
    forall id <- s'.rows | s'.rows[id].claimed.Some?
      ensures exists event :: ClaimedBy(s', id, event)
    {
      if id in s.rows && s.rows[id].claimed.Some? {
        var event :| ClaimedBy(s, id, event);
        assert RowKnown(s, id) && RequestTraced(env, s, id);
        StepKeepsClaim(env, s, step, id, event);
      } else {
        assert step.Claim? && step.id == id;
        assert ClaimedBy(s', id, step.event);
      }
    }
  }

  lemma StepKeepsRequestTraced(env: Policies, s: State, step: Step, id: nat)
    requires Enabled(env, s, step) && id in Apply(env, s, step).requests
    requires id in s.requests ==> RequestTraced(env, s, id)
    requires id in s.rows ==> RowKnown(s, id)
    ensures RequestTraced(env, Apply(env, s, step), id)
  {
  }

  /** However rows are stamped, every step keeps requests, rows, landings and claims in step. */
  lemma StepKeepsTraced(env: Policies, s: State, step: Step)
    requires Traced(env, s) && Enabled(env, s, step)
    ensures Traced(env, Apply(env, s, step))
  {
    var s' := Apply(env, s, step);
    forall id <- s'.requests ensures RequestTraced(env, s', id) {
      StepKeepsRequestTraced(env, s, step, id);
    }
    forall id <- s'.rows ensures RowKnown(s', id) {
      StepKeepsRow(env, s, step, id);
    }
    forall h <- s'.refunds ensures RefundKnown(env, s', h) {
      if h.request in s.rows {
        assert RowKnown(s, h.request);
      }
      StepKeepsRefund(env, s, step, h);
    }
    StepKeepsLanded(env, s, step);
    StepKeepsClaims(env, s, step);
  }

  lemma InvIsTraced(env: Policies, s: State)
    requires Inv(env, s)
    ensures Traced(env, s)
  {
    forall id <- s.requests ensures RequestTraced(env, s, id) {
      assert Covered(env, s, id);
    }
  }

  /** Every step of every replica keeps the invariant, however rows are stamped. */
  lemma StepKeepsInv(env: Policies, s: State, step: Step)
    requires Inv(env, s) && Enabled(env, s, step)
    ensures Inv(env, Apply(env, s, step))
  {
    InvIsTraced(env, s);
    StepKeepsAccounts(env, s, step);
    StepKeepsLanded(env, s, step);
    StepKeepsClaims(env, s, step);
  }

  lemma {:induction false} RunKeepsInv(env: Policies, s: State, steps: seq<Step>)
    requires Inv(env, s) && ValidRun(env, s, steps)
    ensures Inv(env, After(env, s, steps))
    decreases steps
  {
    if steps == [] {
    } else {
      StepKeepsInv(env, s, steps[0]);
      RunKeepsInv(env, Apply(env, s, steps[0]), steps[1..]);
    }
  }

  /** Over a run each counter stays in step with its holds, but for what refunds took off it or gave back elsewhere. */
  lemma {:induction false} RunKeepsBooks(env: Policies, s: State, steps: seq<Step>, slot: string, stray: nat, missed: nat)
    requires Inv(env, s) && ValidRun(env, s, steps) && BooksAt(s.counters, s.holds, slot, stray, missed)
    ensures BooksAt(After(env, s, steps).counters, After(env, s, steps).holds, slot,
                    stray + Stray(env, s, steps, slot), missed + Missed(env, s, steps, slot))
    decreases steps
  {
    if steps == [] {
    } else {
      StepKeepsInv(env, s, steps[0]);
      StepKeepsBooks(env, s, steps[0], slot, stray, missed);
      RunKeepsBooks(env, Apply(env, s, steps[0]), steps[1..], slot, stray + StrayOf(env, s, steps[0], slot),
                    missed + MissedOf(env, s, steps[0], slot));
    }
  }
}
