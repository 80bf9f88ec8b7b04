/**
 * What a policy decides, told from its rules in order, the request, and what the counters held before it
 * (engine.ts, quotaRules.ts).
 */
module Decisions {
  import opened Text
  import opened QuotaStores
  import opened QuotaRules
  import opened QuotaLaws
  import opened Engine

  /** What the first `n` rules charge one counter for the request. */
  function Earlier(rules: seq<Rule>, n: nat, ctx: Context, slot: string): nat
    requires n <= |rules|
  {
    if n == 0 then 0
    else
      var rule := rules[n - 1];
      Earlier(rules, n - 1, ctx, slot)
      + if rule.Reserve? && SlotFor(rule.quota, ctx) == Some(slot) then Charge(rule.quota, ctx) else 0
  }

  /** What a counter holds when it is the turn of rule `k`, every rule before it having passed. */
  function Held(rules: seq<Rule>, k: nat, counters: Counters, ctx: Context, slot: string): nat
    requires k <= |rules|
  {
    Usage(counters, slot) + Earlier(rules, k, ctx, slot)
  }

  /** Rule `k` passes at its turn: a check allows; a quota finds its answer and room, or no subject and skips those. */
  predicate Passes(rules: seq<Rule>, k: nat, counters: Counters, ctx: Context, world: World)
    requires k < |rules|
  {
    match rules[k]
    case Check(_, _) => world.verdict == Some(Allow)
    case Reserve(q) =>
      if !Carries(q, ctx.fields) then q.onMissing == SkipMissing
      else
        KeyMissingExactly(q, ctx.fields);
        world.link == Up && HasRoom(q, Held(rules, k, counters, ctx, SlotFor(q, ctx).value), ctx)
  }

  /** How a rule that does not pass answers: a check as it likes, a quota by its unit, and either by name if it throws. */
  function AnswerOf(rule: Rule, ctx: Context, world: World): Decision {
    match rule
    case Check(name, _) => if world.verdict.None? then Deny(name, RuleError) else world.verdict.value
    case Reserve(q) =>
      if !Carries(q, ctx.fields) then Deny(q.name, QuotaExceeded)
      else if world.link != Up then Deny(q.name, RuleError)
      else Deny(q.name, if q.unit == Wei then SpendCapExceeded else QuotaExceeded)
  }

  predicate AllPass(rules: seq<Rule>, n: nat, counters: Counters, ctx: Context, world: seq<World>)
    requires n <= |rules| <= |world|
  {
    forall k | 0 <= k < n :: Passes(rules, k, counters, ctx, world[k])
  }

  /** Rule `k` is the first that does not pass. */
  predicate FirstToFail(rules: seq<Rule>, k: nat, counters: Counters, ctx: Context, world: seq<World>)
    requires k < |rules| <= |world|
  {
    AllPass(rules, k, counters, ctx, world) && !Passes(rules, k, counters, ctx, world[k])
  }

  // ---------------------------------------------------------------------------------------------

  /** Each counter holds what it held before, and what the rules so far charge it. */
  ghost predicate Stands(rules: seq<Rule>, n: nat, before: Counters, ctx: Context, counters: Counters)
    requires n <= |rules|
  {
    forall slot: string :: Usage(counters, slot) == Held(rules, n, before, ctx, slot)
  }

  lemma PassesExactly(rules: seq<Rule>, k: nat, before: Counters, ctx: Context, world: World, counters: Counters)
    requires k < |rules| && Stands(rules, k, before, ctx, counters)
    ensures RuleVerdict(rules[k], counters, ctx, world)
            == if Passes(rules, k, before, ctx, world) then Allow else AnswerOf(rules[k], ctx, world)
  {
    if rules[k].Reserve? {
      VerdictExactly(rules[k].quota, counters, ctx, world.link);
    }
  }

  /** A quota that passes adds its charge on its own counter, and nothing on another. */
  lemma ReservationAdds(q: Quota, counters: Counters, ctx: Context, link: Link, slot: string)
    requires Carries(q, ctx.fields) ==> SlotFor(q, ctx).Some? && link == Up && HasRoom(q, Usage(counters, SlotFor(q, ctx).value), ctx)
    ensures Usage(AfterEvaluate(q, counters, ctx, link), slot)
            == Usage(counters, slot) + if SlotFor(q, ctx) == Some(slot) then Charge(q, ctx) else 0
  {
    KeyMissingExactly(q, ctx.fields);
    if Carries(q, ctx.fields) {
      CountedAsCharged(q, ctx, counters, SlotFor(q, ctx).value);
    }
  }

  lemma StillStands(rules: seq<Rule>, k: nat, before: Counters, ctx: Context, world: World, counters: Counters)
    requires k < |rules| && Stands(rules, k, before, ctx, counters) && Passes(rules, k, before, ctx, world)
    ensures Stands(rules, k + 1, before, ctx, AfterRule(rules[k], counters, ctx, world))
  {
    forall slot: string ensures Usage(AfterRule(rules[k], counters, ctx, world), slot) == Held(rules, k + 1, before, ctx, slot) {
      assert Usage(counters, slot) == Held(rules, k, before, ctx, slot);
      if rules[k].Reserve? {
        var q := rules[k].quota;
        KeyMissingExactly(q, ctx.fields);
        if Carries(q, ctx.fields) {
          assert Usage(counters, SlotFor(q, ctx).value) == Held(rules, k, before, ctx, SlotFor(q, ctx).value);
        }
        ReservationAdds(q, counters, ctx, world.link, slot);
      }
    }
  }

  lemma FailsWithDenial(rules: seq<Rule>, k: nat, before: Counters, ctx: Context, world: World)
    requires k < |rules| && !Passes(rules, k, before, ctx, world)
    ensures AnswerOf(rules[k], ctx, world).Deny?
  {
  }

  lemma {:induction false} WalkDecides(rules: seq<Rule>, from: nat, before: Counters, counters: Counters, ctx: Context, world: seq<World>, k: nat)
    requires from <= k <= |rules| <= |world| && Stands(rules, from, before, ctx, counters)
    requires AllPass(rules, k, before, ctx, world) && (k < |rules| ==> FirstToFail(rules, k, before, ctx, world))
    ensures var walk := WalkRules(rules, from, counters, ctx, world);
            if k == |rules| then walk.decision == Allow && Stands(rules, k, before, ctx, walk.counters)
            else walk.decision == AnswerOf(rules[k], ctx, world[k]) && walk.decision.Deny? && walk.evaluated == k + 1
    decreases k - from
  {
    if from == |rules| {
      assert k == |rules|;
    } else {
      PassesExactly(rules, from, before, ctx, world[from], counters);
      if from < k {
        assert Passes(rules, from, before, ctx, world[from]);
        StillStands(rules, from, before, ctx, world[from], counters);
        WalkDecides(rules, from + 1, before, AfterRule(rules[from], counters, ctx, world[from]), ctx, world, k);
      } else {
        FailsWithDenial(rules, k, before, ctx, world[k]);
      }
    }
  }

  /** The first rule that does not pass; the number of rules if all do. */
  lemma {:induction false} FirstFailure(rules: seq<Rule>, from: nat, counters: Counters, ctx: Context, world: seq<World>) returns (k: nat)
    requires from <= |rules| <= |world| && AllPass(rules, from, counters, ctx, world)
    ensures k <= |rules| && AllPass(rules, k, counters, ctx, world)
    ensures k < |rules| ==> FirstToFail(rules, k, counters, ctx, world)
    decreases |rules| - from
  {
    if from == |rules| || !Passes(rules, from, counters, ctx, world[from]) {
      k := from;
    } else {
      k := FirstFailure(rules, from + 1, counters, ctx, world);
    }
  }

  lemma OneFailsFirst(rules: seq<Rule>, j: nat, k: nat, counters: Counters, ctx: Context, world: seq<World>)
    requires j < |rules| <= |world| && k <= |rules| && FirstToFail(rules, j, counters, ctx, world)
    requires AllPass(rules, k, counters, ctx, world) && (k < |rules| ==> FirstToFail(rules, k, counters, ctx, world))
    ensures j == k
  {
  }

  /** A policy allows exactly when every rule passes at its turn, and otherwise answers as the first that does not. */
  lemma DecidedExactly(rules: seq<Rule>, counters: Counters, ctx: Context, world: seq<World>)
    requires |rules| <= |world|
    ensures var walk := WalkRules(rules, 0, counters, ctx, world);
            && (walk.decision == Allow <==> AllPass(rules, |rules|, counters, ctx, world))
            && (walk.decision.Deny? ==> FirstToFail(rules, walk.evaluated - 1, counters, ctx, world))
            && forall k | 0 <= k < |rules| && FirstToFail(rules, k, counters, ctx, world) ::
                 walk.decision == AnswerOf(rules[k], ctx, world[k]) && walk.evaluated == k + 1
  {
    var k := FirstFailure(rules, 0, counters, ctx, world);
    WalkDecides(rules, 0, counters, counters, ctx, world, k);
    forall j | 0 <= j < |rules| && FirstToFail(rules, j, counters, ctx, world) ensures j == k {
      OneFailsFirst(rules, j, k, counters, ctx, world);
    }
  }

  /** An allowed request is charged by every quota whose subject it carries, whichever calls are lost afterwards. */
  lemma AllowedIsCharged(rules: seq<Rule>, counters: Counters, ctx: Context, world: seq<World>, links: seq<Link>, slot: string)
    requires |rules| <= |world| && |rules| <= |links| && |OrderRules(rules)| == |rules|
    requires AllPass(OrderRules(rules), |rules|, counters, ctx, world)
    ensures Usage(AfterPolicy(rules, counters, ctx, world, links), slot)
            == Usage(counters, slot) + Earlier(OrderRules(rules), |rules|, ctx, slot)
  {
    WalkDecides(OrderRules(rules), 0, counters, counters, ctx, world, |rules|);
  }
}
