/** What an evaluation leaves behind on the counters: nothing before the free checks, nothing after a denial. */
module Compensation {
  import opened Text
  import opened QuotaStores
  import opened QuotaRules
  import opened Engine

  /** What `quotas` charge `slot` for one request. */
  function AmountOn(quotas: seq<Quota>, ctx: Context, slot: string): nat {
    if quotas == [] then 0
    else (if SlotFor(quotas[0], ctx) == Some(slot) then AmountFor(quotas[0], ctx) else 0) + AmountOn(quotas[1..], ctx, slot)
  }

  predicate AllUp(world: seq<World>) {
    forall i | 0 <= i < |world| :: world[i].link == Up
  }

  /** The rules whose reservations an evaluation of `rules[from..]` takes: those before a denial, or all. */
  function Passed(rules: seq<Rule>, from: nat, w: Walk): seq<Rule>
    requires from <= w.evaluated <= |rules|
    requires w.decision.Deny? ==> from < w.evaluated
  {
    rules[from..if w.decision.Allow? then w.evaluated else w.evaluated - 1]
  }

  lemma {:induction false} AmountOnAppend(a: seq<Quota>, b: seq<Quota>, ctx: Context, slot: string)
    ensures AmountOn(a + b, ctx, slot) == AmountOn(a, ctx, slot) + AmountOn(b, ctx, slot)
  {
    if a == [] {
      assert a + b == b;
    } else {
      AmountOnAppend(a[1..], b, ctx, slot);
      assert (a + b)[1..] == a[1..] + b;
    }
  }

  lemma StepCharges(rule: Rule, counters: Counters, ctx: Context, world: World, slot: string)
    requires world.link == Up && RuleVerdict(rule, counters, ctx, world).Allow?
    ensures Usage(AfterRule(rule, counters, ctx, world), slot) == Usage(counters, slot) + AmountOn(Reserving([rule]), ctx, slot)
  {
    assert Reserving([rule]) == if rule.Reserve? then [rule.quota] else [];
  }

  lemma {:induction false} WalkCharges(rules: seq<Rule>, from: nat, counters: Counters, ctx: Context,
                                       world: seq<World>, slot: string)
    requires from <= |rules| <= |world| && AllUp(world)
    ensures var w := WalkRules(rules, from, counters, ctx, world);
            Usage(w.counters, slot) == Usage(counters, slot) + AmountOn(Reserving(Passed(rules, from, w)), ctx, slot)
    decreases |rules| - from
  {
    if from < |rules| {
      var w := WalkRules(rules, from, counters, ctx, world);
      if RuleVerdict(rules[from], counters, ctx, world[from]).Allow? {
        var counters' := AfterRule(rules[from], counters, ctx, world[from]);
        WalkCharges(rules, from + 1, counters', ctx, world, slot);
        var passed := Passed(rules, from, w);
        assert passed == [rules[from]] + Passed(rules, from + 1, w);
        ReservingAppend([rules[from]], Passed(rules, from + 1, w));
        StepCharges(rules[from], counters, ctx, world[from], slot);
        AmountOnAppend(Reserving([rules[from]]), Reserving(Passed(rules, from + 1, w)), ctx, slot);
      } else {
        assert Passed(rules, from, w) == [];
      }
    }
  }

  /** Released exactly, counter by counter: a release never meets its clamp while its reservation stands. */
  lemma {:induction false} ReleaseAllUndoes(quotas: seq<Quota>, counters: Counters, ctx: Context,
                                            links: seq<Link>, slot: string)
    requires |quotas| <= |links| && forall i | 0 <= i < |links| :: links[i] == Up
    requires AmountOn(quotas, ctx, slot) <= Usage(counters, slot)
    ensures Usage(ReleaseAll(quotas, counters, ctx, links), slot) == Usage(counters, slot) - AmountOn(quotas, ctx, slot)
    decreases quotas
  {
    if quotas != [] {
      ReleaseAllUndoes(quotas[1..], QuotaRules.AfterRelease(quotas[0], counters, ctx, links[0]), ctx, links[1..], slot);
    }
  }

  /** While the store answers, a denied request charges nothing and an allowed one exactly its reservations. */
  lemma EvaluationIsExact(rules: seq<Rule>, counters: Counters, ctx: Context, world: seq<World>, links: seq<Link>, slot: string)
    requires |rules| <= |world| && |rules| <= |links|
    requires AllUp(world) && forall i | 0 <= i < |links| :: links[i] == Up
    ensures |OrderRules(rules)| == |rules|
    ensures Usage(AfterPolicy(rules, counters, ctx, world, links), slot)
            == Usage(counters, slot)
               + if WalkRules(OrderRules(rules), 0, counters, ctx, world).decision.Allow?
                 then AmountOn(Reserving(OrderRules(rules)), ctx, slot) else 0
  {
    OrderKeepsLength(rules);
    var ordered := OrderRules(rules);
    var w := WalkRules(ordered, 0, counters, ctx, world);
    WalkCharges(ordered, 0, counters, ctx, world, slot);
    if w.decision.Allow? {
      assert Passed(ordered, 0, w) == ordered;
    } else {
      var quotas := Reserving(ordered[..w.evaluated - 1]);
      assert Passed(ordered, 0, w) == ordered[..w.evaluated - 1];
      ReservingShorter(ordered[..w.evaluated - 1]);
      ReleaseAllUndoes(quotas, w.counters, ctx, links, slot);
    }
  }

  lemma {:induction false} ChecksTouchNothing(rules: seq<Rule>, from: nat, stop: nat, counters: Counters, ctx: Context, world: seq<World>)
    requires from <= stop < |rules| <= |world|
    requires forall i | from <= i <= stop :: rules[i].Check?
    requires world[stop].verdict != Some(Allow)
    ensures var w := WalkRules(rules, from, counters, ctx, world);
            w.decision.Deny? && w.evaluated <= stop + 1 && w.counters == counters
    decreases stop - from
  {
    if from < stop && RuleVerdict(rules[from], counters, ctx, world[from]).Allow? {
      ChecksTouchNothing(rules, from + 1, stop, counters, ctx, world);
    }
  }

  lemma {:induction false} NoReservations(rules: seq<Rule>)
    requires forall i | 0 <= i < |rules| :: rules[i].Check?
    ensures Reserving(rules) == []
  {
    if rules != [] {
      NoReservations(rules[1..]);
    }
  }

  /**
   * A free check that denies or throws leaves the quota store untouched, wherever the policy lists it:
   * no quota is reserved before every pure rule has passed.
   */
  lemma FreeChecksComeFirst(rules: seq<Rule>, i: nat, counters: Counters, ctx: Context, world: seq<World>, links: seq<Link>)
    requires |rules| <= |world| && |rules| <= |links|
    requires i < |OfTier(rules, Pure)| && i < |world| && world[i].verdict != Some(Allow)
    ensures AfterPolicy(rules, counters, ctx, world, links) == counters
  {
    OrderKeepsLength(rules);
    OrderIsByTier(rules);
    OfTierHolds(rules, Pure);
    var ordered, pure := OrderRules(rules), OfTier(rules, Pure);
    assert forall j | 0 <= j < |pure| :: ordered[j] == pure[j] && pure[j].Check?;
    ChecksTouchNothing(ordered, 0, i, counters, ctx, world);
    NoReservations(ordered[..WalkRules(ordered, 0, counters, ctx, world).evaluated - 1]);
  }
}
