/** Runs in which no store call is lost: compensation and refunds are then exact, hold by hold. */
module CleanRuns {
  import opened Text
  import opened QuotaStores
  import opened QuotaRules
  import opened Engine
  import opened Budget
  import opened BudgetSafety
  import opened SpendCap

  predicate Clean(step: Step) {
    match step
    case Evaluate(_, world) => world.link == Up
    case Undo(_, _, link) => link == Up
    case Refund(_, _, link) => link == Up
    case _ => true
  }

  /** A hold belongs to a reserving rule; while unwinding it is still due; once refunded it is what is owed. */
  predicate Tidy(env: Policies, s: State, h: HoldId) {
    && Known(env, s, h.request) && h.rule < |RulesOf(env, s, h.request)| && RulesOf(env, s, h.request)[h.rule].Reserve?
    && Charges(RulesOf(env, s, h.request), s.requests[h.request].ctx, h.rule)
    && (s.requests[h.request].phase.Unwinding? ==> h.rule in s.requests[h.request].phase.pending)
    && (Refunded(env, s, h) && h in s.holds ==> s.holds[h].amount == OwedBy(env, s, h))
  }

  /** The row is claimed, its true-up was tried, and the quota's counter can be located from the row. */
  predicate Refunded(env: Policies, s: State, h: HoldId)
    requires Known(env, s, h.request) && h.rule < |RulesOf(env, s, h.request)| && RulesOf(env, s, h.request)[h.rule].Reserve?
  {
    && h.request in s.rows && s.rows[h.request].claimed.Some? && h !in s.refunds
    && TrueUpSlot(RulesOf(env, s, h.request)[h.rule].quota,
                  TrueUpOf(s.requests[h.request].ctx, s.rows[h.request].createdAt, 0)).Some?
  }

  function OwedBy(env: Policies, s: State, h: HoldId): nat
    requires Known(env, s, h.request) && h.rule < |RulesOf(env, s, h.request)| && RulesOf(env, s, h.request)[h.rule].Reserve?
    requires h.request in s.rows && s.rows[h.request].claimed.Some?
  {
    Owed(RulesOf(env, s, h.request)[h.rule].quota, s.requests[h.request].ctx, s.rows[h.request].claimed.value)
  }

  predicate AllTidy(env: Policies, s: State) {
    forall h <- s.holds :: Tidy(env, s, h)
  }

  lemma RefundIsExact(env: Policies, s: State, id: nat, i: nat)
    requires Inv(env, s) && Enabled(env, s, Refund(id, i, Up)) && HoldId(id, i) in s.holds
    requires TrueUpSlot(RulesOf(env, s, id)[i].quota, TrueUpOf(s.requests[id].ctx, s.rows[id].createdAt, 0)).Some?
    ensures Apply(env, s, Refund(id, i, Up)).holds[HoldId(id, i)].amount
            == Owed(RulesOf(env, s, id)[i].quota, s.requests[id].ctx, s.rows[id].claimed.value)
  {
    var q, ctx := RulesOf(env, s, id)[i].quota, s.requests[id].ctx;
    var r := TrueUpOf(ctx, s.rows[id].createdAt, s.rows[id].claimed.value);
    RefundFinds(env, s, id, i, Up);
    RefundApplies(env, s, id, i, Up, q, ctx, r, "");
    LessIsOwed(s, HoldId(id, i), q, ctx, r);
  }

  lemma LessIsOwed(s: State, h: HoldId, q: Quota, ctx: Context, r: SpendTrueUp)
    requires h in s.holds && s.holds[h].amount == AmountFor(q, ctx) && q.unit == Wei
    requires TrueUpSlot(q, r).Some? && r.reservedMaxCostWei == ctx.maxCost
    ensures h in HoldsAfterRefund(s, h, q, r, Up)
    ensures HoldsAfterRefund(s, h, q, r, Up)[h].amount == Owed(q, ctx, r.actualCostWei)
  {
  }

  lemma OtherHoldStaysTidy(env: Policies, s: State, step: Step, h: HoldId)
    requires Enabled(env, s, step) && h.request != step.id
    requires h in Apply(env, s, step).holds && (h in s.holds ==> Tidy(env, s, h))
    ensures h in s.holds && Tidy(env, Apply(env, s, step), h)
  {
    assert h in s.holds;
    StepFrame(env, s, step, h.request);
  }

  lemma EvaluatedTidy(env: Policies, s: State, id: nat, world: World, h: HoldId)
    requires Enabled(env, s, Evaluate(id, world)) && world.link == Up && h.request == id && id !in s.rows
    requires h in Apply(env, s, Evaluate(id, world)).holds && (h in s.holds ==> Tidy(env, s, h) && HoldKnown(env, s, h))
    ensures Tidy(env, Apply(env, s, Evaluate(id, world)), h)
  {
  }

  lemma UndoneTidy(env: Policies, s: State, id: nat, i: nat, h: HoldId)
    requires Enabled(env, s, Undo(id, i, Up)) && h.request == id && id !in s.rows
    requires h in Apply(env, s, Undo(id, i, Up)).holds && h in s.holds && Tidy(env, s, h)
    ensures Tidy(env, Apply(env, s, Undo(id, i, Up)), h)
  {
  }

  lemma OtherRuleTidy(env: Policies, s: State, id: nat, i: nat, h: HoldId)
    requires Enabled(env, s, Refund(id, i, Up)) && h.request == id && h.rule != i
    requires h in s.holds && Tidy(env, s, h)
    ensures Tidy(env, Apply(env, s, Refund(id, i, Up)), h)
  {
  }

  lemma OwnRuleTidy(env: Policies, s: State, id: nat, i: nat)
    requires Inv(env, s) && Enabled(env, s, Refund(id, i, Up))
    requires HoldId(id, i) in s.holds && Tidy(env, s, HoldId(id, i))
    ensures Tidy(env, Apply(env, s, Refund(id, i, Up)), HoldId(id, i))
  {
    if TrueUpSlot(RulesOf(env, s, id)[i].quota, TrueUpOf(s.requests[id].ctx, s.rows[id].createdAt, 0)).Some? {
      RefundIsExact(env, s, id, i);
    }
  }

  lemma RefundedTidy(env: Policies, s: State, id: nat, i: nat, h: HoldId)
    requires Inv(env, s) && Enabled(env, s, Refund(id, i, Up)) && h.request == id
    requires h in s.holds && Tidy(env, s, h)
    ensures Tidy(env, Apply(env, s, Refund(id, i, Up)), h)
  {
    if h.rule == i {
      OwnRuleTidy(env, s, id, i);
    } else {
      OtherRuleTidy(env, s, id, i, h);
    }
  }

  lemma FailedTidy(env: Policies, s: State, id: nat, h: HoldId)
    requires Enabled(env, s, Fail(id)) && h.request == id && id !in s.rows
    requires h in s.holds && Tidy(env, s, h)
    ensures Tidy(env, Apply(env, s, Fail(id)), h)
  {
  }

  lemma PassedTidy(env: Policies, s: State, step: Step, h: HoldId)
    requires Enabled(env, s, step) && h.request == step.id
    requires step.Record? || step.Land? || step.Claim?
    requires h in s.holds && Tidy(env, s, h)
    ensures Tidy(env, Apply(env, s, step), h)
  {
    if step.Claim? {
      assert h.rule in ReservingUpTo(RulesOf(env, s, step.id), |RulesOf(env, s, step.id)|);
    }
  }

  lemma NoRowYet(env: Policies, s: State, id: nat)
    requires Inv(env, s) && id in s.requests && !s.requests[id].phase.Attested?
    ensures id !in s.rows
  {
    assert Covered(env, s, id);
  }

  lemma OnlyEvaluationHolds(env: Policies, s: State, step: Step, h: HoldId)
    requires Enabled(env, s, step) && !step.Evaluate? && h in Apply(env, s, step).holds
    ensures h in s.holds
  {
  }

  lemma UnderwayTidy(env: Policies, s: State, step: Step, h: HoldId)
    requires Inv(env, s) && Enabled(env, s, step) && Clean(step) && h.request == step.id
    requires step.Evaluate? || step.Undo? || step.Fail?
    requires h in Apply(env, s, step).holds && (h in s.holds ==> Tidy(env, s, h) && HoldKnown(env, s, h))
    ensures Tidy(env, Apply(env, s, step), h)
  {
    NoRowYet(env, s, step.id);
    if step.Evaluate? {
      EvaluatedTidy(env, s, step.id, step.world, h);
    } else {
      OnlyEvaluationHolds(env, s, step, h);
      if step.Undo? {
        UndoneTidy(env, s, step.id, step.rule, h);
      } else {
        FailedTidy(env, s, step.id, h);
      }
    }
  }

  lemma OwnHoldStaysTidy(env: Policies, s: State, step: Step, h: HoldId)
    requires Inv(env, s) && Enabled(env, s, step) && Clean(step) && h.request == step.id
    requires h in Apply(env, s, step).holds && (h in s.holds ==> Tidy(env, s, h) && HoldKnown(env, s, h))
    ensures Tidy(env, Apply(env, s, step), h)
  {
    if step.Evaluate? || step.Undo? || step.Fail? {
      UnderwayTidy(env, s, step, h);
    } else {
      OnlyEvaluationHolds(env, s, step, h);
      if step.Refund? {
        RefundedTidy(env, s, step.id, step.rule, h);
      } else if !step.Arrive? {
        PassedTidy(env, s, step, h);
      }
    }
  }

  lemma StepKeepsTidy(env: Policies, s: State, step: Step)
    requires Inv(env, s) && AllTidy(env, s) && Enabled(env, s, step) && Clean(step)
    ensures AllTidy(env, Apply(env, s, step))
  {
    forall h <- Apply(env, s, step).holds ensures Tidy(env, Apply(env, s, step), h) {
      if h.request == step.id {
        OwnHoldStaysTidy(env, s, step, h);
      } else {
        OtherHoldStaysTidy(env, s, step, h);
      }
    }
  }

  lemma {:induction false} RunKeepsTidy(env: Policies, s: State, steps: seq<Step>)
    requires Inv(env, s) && AllTidy(env, s) && ValidRun(env, s, steps)
    requires forall i | 0 <= i < |steps| :: Clean(steps[i])
    ensures AllTidy(env, After(env, s, steps))
    decreases steps
  {
    if steps != [] {
      StepKeepsInv(env, s, steps[0]);
      StepKeepsTidy(env, s, steps[0]);
      RunKeepsTidy(env, Apply(env, s, steps[0]), steps[1..]);
    }
  }

  /**
   * With no call lost, a refused or failed request whose releases have run holds nothing, and a
   * reconciled, refunded reservation holds exactly the smaller of what was reserved and what was spent.
   */
  lemma CleanRunsAreExact(env: Policies, steps: seq<Step>, h: HoldId)
    requires ValidRun(env, INITIAL, steps) && forall i | 0 <= i < |steps| :: Clean(steps[i])
    ensures var s := After(env, INITIAL, steps);
            h in s.holds ==>
              && Tidy(env, s, h)
              && s.requests[h.request].phase != Unwinding({})
              && (Refunded(env, s, h) ==> s.holds[h].amount == OwedBy(env, s, h))
  {
    InitialInv(env);
    RunKeepsTidy(env, INITIAL, steps);
  }
}
