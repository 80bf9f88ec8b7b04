/** Which rows can make a refund reach a counter that its request did not charge, and runs without such rows. */
module StrayRefunds {
  import opened Text
  import opened Windows
  import opened QuotaStores
  import opened QuotaRules
  import opened Engine
  import opened Budget
  import opened BudgetRuns
  import opened BudgetSafety
  import opened SpendCap

  ghost predicate RowSparesAt(env: Policies, s: State, id: nat, slot: string)
    requires id in s.rows
  {
    Known(env, s, id) && RowSpares(RulesOf(env, s, id), s.requests[id].ctx, s.rows[id].createdAt, slot)
  }

  /** No row makes a refund reach `slot` from elsewhere. */
  ghost predicate RowsSpare(env: Policies, s: State, slot: string) {
    forall id <- s.rows :: RowSparesAt(env, s, id, slot)
  }

  lemma StepSparesRow(env: Policies, s: State, step: Step, id: nat, slot: string)
    requires Enabled(env, s, step) && Spares(env, s, step, slot) && id in Apply(env, s, step).rows
    requires id in s.rows ==> RowSparesAt(env, s, id, slot)
    ensures RowSparesAt(env, Apply(env, s, step), id, slot)
  {
  }

  lemma StepSparesRows(env: Policies, s: State, step: Step, slot: string)
    requires Enabled(env, s, step) && Spares(env, s, step, slot) && RowsSpare(env, s, slot)
    ensures RowsSpare(env, Apply(env, s, step), slot)
  {
    forall id <- Apply(env, s, step).rows ensures RowSparesAt(env, Apply(env, s, step), id, slot) {
      StepSparesRow(env, s, step, id, slot);
    }
  }

  /** The counter a refund reaches depends on the row's stamp, not on the cost. */
  lemma ReachedBeforeCost(q: Quota, ctx: Context, createdAt: nat, actual: nat)
    ensures TrueUpSlot(q, TrueUpOf(ctx, createdAt, actual)) == TrueUpSlot(q, TrueUpOf(ctx, createdAt, 0))
  {
  }

  lemma SparedIsUntouched(q: Quota, ctx: Context, createdAt: nat, actual: nat, counters: Counters, link: Link, slot: string)
    requires !StrayedTo(q, ctx, createdAt, slot)
    ensures StrayIn(SlotFor(q, ctx), counters, AfterTrueUp(q, counters, TrueUpOf(ctx, createdAt, actual), link), slot) == 0
  {
    ReachedBeforeCost(q, ctx, createdAt, actual);
  }

  lemma SparedStepIsStrayFree(env: Policies, s: State, step: Step, slot: string)
    requires Enabled(env, s, step) && RowsSpare(env, s, slot)
    ensures StrayOf(env, s, step, slot) == 0
  {
    if step.Refund? {
      var q, ctx, row := RulesOf(env, s, step.id)[step.rule].quota, s.requests[step.id].ctx, s.rows[step.id];
      assert RowSparesAt(env, s, step.id, slot);
      RefundApplies(env, s, step.id, step.rule, step.link, q, ctx, TrueUpOf(ctx, row.createdAt, row.claimed.value), slot);
      SparedIsUntouched(q, ctx, row.createdAt, row.claimed.value, s.counters, step.link, slot);
    }
  }

  lemma {:induction false} SparingFrom(env: Policies, s: State, steps: seq<Step>, slot: string)
    requires ValidRun(env, s, steps) && SparingRun(env, s, steps, slot) && RowsSpare(env, s, slot)
    ensures Stray(env, s, steps, slot) == 0
    decreases steps
  {
    if steps == [] {
    } else {
      SparedStepIsStrayFree(env, s, steps[0], slot);
      StepSparesRows(env, s, steps[0], slot);
      SparingFrom(env, Apply(env, s, steps[0]), steps[1..], slot);
    }
  }

  /** A run whose rows all spare a counter takes no stray refund off it, whatever its other rows do elsewhere. */
  lemma SparingIsStrayFree(env: Policies, steps: seq<Step>, slot: string)
    requires ValidRun(env, INITIAL, steps) && SparingRun(env, INITIAL, steps, slot)
    ensures Stray(env, INITIAL, steps, slot) == 0
  {
    SparingFrom(env, INITIAL, steps, slot);
  }

  /** Where no row makes a refund stray to it, a counter's cap holds as configured. */
  lemma SparedCapHolds(env: Policies, steps: seq<Step>, q: Quota, key: string, start: nat)
    requires ValidRun(env, INITIAL, steps) && SparingRun(env, INITIAL, steps, SlotName(key, q.windowSeconds, start))
    ensures var s := After(env, INITIAL, steps);
            if q.unit == Wei then Total(env, s, s.landed, q, key, start) <= q.limit
            else Total(env, s, Ones(s.rows), q, key, start) <= q.limit
  {
    SparingIsStrayFree(env, steps, SlotName(key, q.windowSeconds, start));
    if q.unit == Wei {
      SpendNeverPassesCap(env, steps, q, key, start);
    } else {
      AttestationsNeverPassQuota(env, steps, q, key, start);
    }
  }

  // ---------------------------------------------------------------------------------------------
  // Longer runs

  lemma StrayFirst(env: Policies, s: State, step: Step, rest: seq<Step>, slot: string)
    requires ValidRun(env, s, [step] + rest)
    ensures Enabled(env, s, step) && ValidRun(env, Apply(env, s, step), rest)
    ensures Stray(env, s, [step] + rest, slot) == StrayOf(env, s, step, slot) + Stray(env, Apply(env, s, step), rest, slot)
  {
    assert ([step] + rest)[1..] == rest;
  }

  lemma {:induction false} StrayAppends(env: Policies, s: State, a: seq<Step>, b: seq<Step>, slot: string)
    requires ValidRun(env, s, a) && ValidRun(env, After(env, s, a), b)
    ensures ValidRun(env, s, a + b)
    ensures Stray(env, s, a + b, slot) == Stray(env, s, a, slot) + Stray(env, After(env, s, a), b, slot)
    decreases a
  {
    RunAppend(env, s, a, b);
    if a == [] {
      assert a + b == b;
    } else {
      var step, tail := a[0], a[1..];
      HeadThenTail(a, b);
      StrayFirst(env, s, step, tail, slot);
      RunHead(env, s, step, tail);
      StrayAppends(env, Apply(env, s, step), tail, b, slot);
      StrayFirst(env, s, step, tail + b, slot);
    }
  }

  lemma {:induction false} NothingStrays(env: Policies, s: State, steps: seq<Step>, slot: string)
    requires ValidRun(env, s, steps) && forall i | 0 <= i < |steps| :: !steps[i].Refund?
    ensures Stray(env, s, steps, slot) == 0
    decreases steps
  {
    if steps == [] {
    } else {
      NothingStrays(env, Apply(env, s, steps[0]), steps[1..], slot);
    }
  }

  // ---------------------------------------------------------------------------------------------
  // Faithful runs

  /** A row is faithful for a quota exactly when none of its refunds strays anywhere. */
  lemma FaithfulStraysNowhere(q: Quota, ctx: Context, createdAt: nat)
    ensures FaithfulFor(q, ctx, createdAt) <==> forall slot :: !StrayedTo(q, ctx, createdAt, slot)
  {
    var reached := TrueUpSlot(q, TrueUpOf(ctx, createdAt, 0));
    if reached.Some? && reached != SlotFor(q, ctx) {
      assert StrayedTo(q, ctx, createdAt, reached.value);
    }
  }

  lemma FaithfulSpares(env: Policies, s: State, step: Step, slot: string)
    requires Faithful(env, s, step)
    ensures Spares(env, s, step, slot)
  {
    if step.Record? && Known(env, s, step.id) {
      var rules, ctx := RulesOf(env, s, step.id), s.requests[step.id].ctx;
      forall i | 0 <= i < |rules| && rules[i].Reserve? ensures !StrayedTo(rules[i].quota, ctx, step.createdAt, slot) {
        FaithfulStraysNowhere(rules[i].quota, ctx, step.createdAt);
      }
    }
  }

  lemma {:induction false} FaithfulIsSparing(env: Policies, s: State, steps: seq<Step>, slot: string)
    requires ValidRun(env, s, steps) && FaithfulRun(env, s, steps)
    ensures SparingRun(env, s, steps, slot)
    decreases steps
  {
    if steps == [] {
    } else {
      FaithfulSpares(env, s, steps[0], slot);
      FaithfulIsSparing(env, Apply(env, s, steps[0]), steps[1..], slot);
    }
  }

  ghost predicate RowFaithfulAt(env: Policies, s: State, id: nat)
    requires id in s.rows
  {
    Known(env, s, id) && RowFaithful(RulesOf(env, s, id), s.requests[id].ctx, s.rows[id].createdAt)
  }

  ghost predicate RowsFaithful(env: Policies, s: State) {
    forall id <- s.rows :: RowFaithfulAt(env, s, id)
  }

  lemma StepKeepsFaithful(env: Policies, s: State, step: Step, id: nat)
    requires Enabled(env, s, step) && Faithful(env, s, step) && id in Apply(env, s, step).rows
    requires id in s.rows ==> RowFaithfulAt(env, s, id)
    ensures RowFaithfulAt(env, Apply(env, s, step), id)
  {
  }

  lemma FaithfulMissesNothing(s: State, h: HoldId, q: Quota, ctx: Context, createdAt: nat, actual: nat, link: Link, slot: string)
    requires FaithfulFor(q, ctx, createdAt) && (h in s.holds ==> SlotFor(q, ctx) == Some(s.holds[h].slot))
    ensures var r := TrueUpOf(ctx, createdAt, actual);
            MissedIn(TrueUpSlot(q, r), s.holds, HoldsAfterRefund(s, h, q, r, link), h, slot) == 0
  {
    ReachedBeforeCost(q, ctx, createdAt, actual);
  }

  lemma FaithfulStepMissesNothing(env: Policies, s: State, step: Step, slot: string)
    requires Inv(env, s) && Enabled(env, s, step) && RowsFaithful(env, s)
    ensures MissedOf(env, s, step, slot) == 0
  {
    if step.Refund? {
      var q, ctx, row := RulesOf(env, s, step.id)[step.rule].quota, s.requests[step.id].ctx, s.rows[step.id];
      var r := TrueUpOf(ctx, row.createdAt, row.claimed.value);
      assert RowFaithfulAt(env, s, step.id);
      RefundCharged(env, s, step.id, step.rule, step.link, q, ctx, r);
      RefundApplies(env, s, step.id, step.rule, step.link, q, ctx, r, slot);
      FaithfulMissesNothing(s, HoldId(step.id, step.rule), q, ctx, row.createdAt, row.claimed.value, step.link, slot);
    }
  }

  lemma {:induction false} FaithfulFrom(env: Policies, s: State, steps: seq<Step>, slot: string)
    requires Inv(env, s) && RowsFaithful(env, s) && ValidRun(env, s, steps) && FaithfulRun(env, s, steps)
    ensures Missed(env, s, steps, slot) == 0
    decreases steps
  {
    if steps == [] {
    } else {
      var s1 := Apply(env, s, steps[0]);
      FaithfulStepMissesNothing(env, s, steps[0], slot);
      StepKeepsInv(env, s, steps[0]);
      forall id <- s1.rows ensures RowFaithfulAt(env, s1, id) {
        StepKeepsFaithful(env, s, steps[0], id);
      }
      FaithfulFrom(env, s1, steps[1..], slot);
    }
  }

  /** With faithful rows alone every counter is exactly its holds, and each quota's holds fit its own limit. */
  lemma FaithfulCountersAreHolds(env: Policies, steps: seq<Step>, q: Quota, slot: string)
    requires ValidRun(env, INITIAL, steps) && FaithfulRun(env, INITIAL, steps)
    ensures var s := After(env, INITIAL, steps);
            && Usage(s.counters, slot) == Held(s.holds, OnSlot(slot))
            && Held(s.holds, OfQuota(q, slot)) <= CountedLimit(q)
    ensures Stray(env, INITIAL, steps, slot) == 0 == Missed(env, INITIAL, steps, slot)
  {
    FaithfulIsSparing(env, INITIAL, steps, slot);
    SparingIsStrayFree(env, steps, slot);
    InitialInv(env);
    FaithfulFrom(env, INITIAL, steps, slot);
    CountersAreHolds(env, steps, q, slot);
  }
}
