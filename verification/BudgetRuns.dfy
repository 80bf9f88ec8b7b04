/** An engine evaluation, and a release of its reservations, are runs of the budget protocol. */
module BudgetRuns {
  import opened Text
  import opened QuotaStores
  import opened QuotaRules
  import opened Engine
  import opened Budget

  lemma RunCons(env: Policies, s: State, step: Step, rest: seq<Step>)
    requires Enabled(env, s, step) && ValidRun(env, Apply(env, s, step), rest)
    ensures ValidRun(env, s, [step] + rest) && After(env, s, [step] + rest) == After(env, Apply(env, s, step), rest)
  {
    assert ([step] + rest)[1..] == rest;
  }

  lemma RunHead(env: Policies, s: State, step: Step, rest: seq<Step>)
    requires ValidRun(env, s, [step] + rest)
    ensures Enabled(env, s, step) && ValidRun(env, Apply(env, s, step), rest)
    ensures After(env, s, [step] + rest) == After(env, Apply(env, s, step), rest)
  {
    assert ([step] + rest)[1..] == rest;
  }

  lemma HeadThenTail(a: seq<Step>, b: seq<Step>)
    requires a != []
    ensures a == [a[0]] + a[1..] && a + b == [a[0]] + (a[1..] + b)
  {
  }

  lemma FirstThenRest(env: Policies, s: State, step: Step, tail: seq<Step>, b: seq<Step>)
    requires Enabled(env, s, step)
    requires var s1 := Apply(env, s, step);
             && ValidRun(env, s1, tail) && ValidRun(env, After(env, s1, tail), b) && ValidRun(env, s1, tail + b)
             && After(env, s1, tail + b) == After(env, After(env, s1, tail), b)
    ensures ValidRun(env, s, [step] + tail) && ValidRun(env, s, [step] + (tail + b))
    ensures After(env, s, [step] + (tail + b)) == After(env, After(env, s, [step] + tail), b)
  {
    RunCons(env, s, step, tail);
    RunCons(env, s, step, tail + b);
  }

  lemma {:induction false} RunAppend(env: Policies, s: State, a: seq<Step>, b: seq<Step>)
    requires ValidRun(env, s, a) && ValidRun(env, After(env, s, a), b)
    ensures ValidRun(env, s, a + b) && After(env, s, a + b) == After(env, After(env, s, a), b)
    decreases a
  {
    if a == [] {
      assert a + b == b;
    } else {
      var step, tail := a[0], a[1..];
      HeadThenTail(a, b);
      RunHead(env, s, step, tail);
      RunAppend(env, Apply(env, s, step), tail, b);
      FirstThenRest(env, s, step, tail, b);
    }
  }

  lemma FaithfulCons(env: Policies, s: State, step: Step, rest: seq<Step>)
    requires ValidRun(env, s, [step] + rest)
    ensures FaithfulRun(env, s, [step] + rest) <==> Faithful(env, s, step) && FaithfulRun(env, Apply(env, s, step), rest)
  {
    assert ([step] + rest)[1..] == rest;
  }

  lemma FaithfulHead(env: Policies, s: State, step: Step, tail: seq<Step>, b: seq<Step>)
    requires ValidRun(env, s, [step] + tail) && FaithfulRun(env, s, [step] + tail)
    requires Enabled(env, s, step) && ValidRun(env, Apply(env, s, step), tail + b) && FaithfulRun(env, Apply(env, s, step), tail + b)
    ensures ValidRun(env, s, [step] + (tail + b)) && FaithfulRun(env, s, [step] + (tail + b))
  {
    RunCons(env, s, step, tail + b);
    FaithfulCons(env, s, step, tail);
    FaithfulCons(env, s, step, tail + b);
  }

  lemma {:induction false} FaithfulAppend(env: Policies, s: State, a: seq<Step>, b: seq<Step>)
    requires ValidRun(env, s, a) && ValidRun(env, After(env, s, a), b)
    requires FaithfulRun(env, s, a) && FaithfulRun(env, After(env, s, a), b)
    ensures ValidRun(env, s, a + b) && FaithfulRun(env, s, a + b)
    decreases a
  {
    if a == [] {
      assert a + b == b;
    } else {
      var step, tail := a[0], a[1..];
      HeadThenTail(a, b);
      RunHead(env, s, step, tail);
      FaithfulCons(env, s, step, tail);
      FaithfulAppend(env, Apply(env, s, step), tail, b);
      FaithfulHead(env, s, step, tail, b);
    }
  }

  predicate NoRecords(steps: seq<Step>) {
    forall i | 0 <= i < |steps| :: !steps[i].Record?
  }

  /** A run that writes no row stamps none wrongly. */
  lemma {:induction false} NoRecordsFaithful(env: Policies, s: State, steps: seq<Step>)
    requires ValidRun(env, s, steps) && NoRecords(steps)
    ensures FaithfulRun(env, s, steps)
    decreases steps
  {
    if steps != [] {
      NoRecordsFaithful(env, Apply(env, s, steps[0]), steps[1..]);
    }
  }

  /** Nothing but the counters, the holds and the phase of request `id` differs. */
  ghost predicate OnlyMoved(s: State, s': State, id: nat) {
    && id in s.requests && id in s'.requests
    && s' == s.(counters := s'.counters, holds := s'.holds,
                requests := s.requests[id := s.requests[id].(phase := s'.requests[id].phase)])
  }

  function EvaluateSteps(id: nat, world: seq<World>, from: nat, upTo: nat): (steps: seq<Step>)
    requires from <= upTo <= |world|
    ensures NoRecords(steps)
    decreases upTo - from
  {
    if from == upTo then [] else [Evaluate(id, world[from])] + EvaluateSteps(id, world, from + 1, upTo)
  }

  /** Where an evaluation leaves the request. */
  function PhaseAfter(rules: seq<Rule>, w: Walk): Phase
    requires w.evaluated <= |rules| && (w.decision.Deny? ==> w.evaluated > 0)
  {
    if w.decision.Allow? then Evaluating(|rules|) else Unwinding(ReservingUpTo(rules, w.evaluated - 1))
  }

  lemma OnlyMovedTransitive(s: State, s1: State, s2: State, id: nat)
    requires OnlyMoved(s, s1, id) && OnlyMoved(s1, s2, id)
    ensures OnlyMoved(s, s2, id)
  {
    assert s2.requests == s.requests[id := s.requests[id].(phase := s2.requests[id].phase)];
  }

  lemma UnmovedInPlace(s: State, id: nat)
    requires id in s.requests
    ensures OnlyMoved(s, s, id)
  {
    assert s.requests[id := s.requests[id].(phase := s.requests[id].phase)] == s.requests;
  }

  lemma EvaluateMoves(env: Policies, s: State, id: nat, world: World)
    requires Enabled(env, s, Evaluate(id, world))
    ensures var s1, i := Apply(env, s, Evaluate(id, world)), s.requests[id].phase.next;
            var rule := RulesOf(env, s, id)[i];
            && OnlyMoved(s, s1, id)
            && s1.counters == AfterRule(rule, s.counters, s.requests[id].ctx, world)
            && s1.requests[id].phase
               == if RuleVerdict(rule, s.counters, s.requests[id].ctx, world).Allow? then Evaluating(i + 1)
                  else Unwinding(ReservingUpTo(RulesOf(env, s, id), i))
  {
  }

  /** From `s`, the steps take one request through this walk. */
  ghost predicate Walks(env: Policies, s: State, id: nat, steps: seq<Step>, w: Walk)
    requires Known(env, s, id) && w.evaluated <= |RulesOf(env, s, id)| && (w.decision.Deny? ==> w.evaluated > 0)
  {
    && ValidRun(env, s, steps) && OnlyMoved(s, After(env, s, steps), id)
    && After(env, s, steps).counters == w.counters
    && After(env, s, steps).requests[id].phase == PhaseAfter(RulesOf(env, s, id), w)
  }

  lemma EvaluateThen(env: Policies, s: State, id: nat, world: World, rest: seq<Step>, w: Walk)
    requires Enabled(env, s, Evaluate(id, world)) && w.evaluated <= |RulesOf(env, s, id)| && (w.decision.Deny? ==> w.evaluated > 0)
    requires OnlyMoved(s, Apply(env, s, Evaluate(id, world)), id) && Walks(env, Apply(env, s, Evaluate(id, world)), id, rest, w)
    ensures Walks(env, s, id, [Evaluate(id, world)] + rest, w)
  {
    var s1 := Apply(env, s, Evaluate(id, world));
    OnlyMovedTransitive(s, s1, After(env, s1, rest), id);
    RunCons(env, s, Evaluate(id, world), rest);
  }

  lemma {:induction false} WalkIsRun(env: Policies, s: State, id: nat, world: seq<World>)
    requires Known(env, s, id) && s.requests[id].phase.Evaluating?
    requires s.requests[id].phase.next <= |RulesOf(env, s, id)| <= |world|
    ensures var rules, from := RulesOf(env, s, id), s.requests[id].phase.next;
            var w := WalkRules(rules, from, s.counters, s.requests[id].ctx, world);
            Walks(env, s, id, EvaluateSteps(id, world, from, w.evaluated), w)
    decreases |RulesOf(env, s, id)| - s.requests[id].phase.next
  {
    var rules, from, ctx := RulesOf(env, s, id), s.requests[id].phase.next, s.requests[id].ctx;
    if from == |rules| {
      UnmovedInPlace(s, id);
    } else {
      var s1 := Apply(env, s, Evaluate(id, world[from]));
      EvaluateMoves(env, s, id, world[from]);
      var w := WalkRules(rules, from, s.counters, ctx, world);
      var rest: seq<Step> := EvaluateSteps(id, world, from + 1, w.evaluated);
      if RuleVerdict(rules[from], s.counters, ctx, world[from]).Allow? {
        WalkIsRun(env, s1, id, world);
      } else {
        UnmovedInPlace(s1, id);
        assert rest == [];
      }
      EvaluateThen(env, s, id, world[from], rest, w);
    }
  }

  /** One undo per reserving rule of `rules[from..upTo]`, in order. */
  function UndoSteps(id: nat, rules: seq<Rule>, from: nat, upTo: nat, links: seq<Link>): (steps: seq<Step>)
    requires from <= upTo <= |rules| && |Reserving(rules[from..upTo])| <= |links|
    ensures NoRecords(steps)
    decreases upTo - from
  {
    if from == upTo then []
    else
      assert rules[from..upTo][1..] == rules[from + 1..upTo];
      if rules[from].Reserve? then [Undo(id, from, links[0])] + UndoSteps(id, rules, from + 1, upTo, links[1..])
      else UndoSteps(id, rules, from + 1, upTo, links)
  }

  function ReservingBetween(rules: seq<Rule>, from: nat, upTo: nat): set<nat>
    requires from <= upTo <= |rules|
  {
    set j: nat | from <= j < upTo && rules[j].Reserve?
  }

  /** From `s`, the steps release these quotas of one request, and nothing is left pending. */
  ghost predicate Releases(env: Policies, s: State, id: nat, steps: seq<Step>, quotas: seq<Quota>, links: seq<Link>)
    requires id in s.requests && |quotas| <= |links|
  {
    && ValidRun(env, s, steps) && OnlyMoved(s, After(env, s, steps), id)
    && After(env, s, steps).counters == ReleaseAll(quotas, s.counters, s.requests[id].ctx, links)
    && After(env, s, steps).requests[id].phase == Unwinding({})
  }

  lemma UndoThen(env: Policies, s: State, id: nat, i: nat, links: seq<Link>, rest: seq<Step>, quotas: seq<Quota>)
    requires links != [] && Enabled(env, s, Undo(id, i, links[0])) && |quotas| < |links|
    requires Releases(env, Apply(env, s, Undo(id, i, links[0])), id, rest, quotas, links[1..])
    ensures Releases(env, s, id, [Undo(id, i, links[0])] + rest, [RulesOf(env, s, id)[i].quota] + quotas, links)
  {
    var step, all := Undo(id, i, links[0]), [RulesOf(env, s, id)[i].quota] + quotas;
    var s1 := Apply(env, s, step);
    UndoMoves(env, s, id, i, links[0]);
    RunCons(env, s, step, rest);
    OnlyMovedTransitive(s, s1, After(env, s1, rest), id);
    assert all[1..] == quotas;
  }

  lemma {:induction false} ReleaseIsRun(env: Policies, s: State, id: nat, from: nat, upTo: nat, links: seq<Link>)
    requires Known(env, s, id) && from <= upTo <= |RulesOf(env, s, id)|
    requires s.requests[id].phase == Unwinding(ReservingBetween(RulesOf(env, s, id), from, upTo))
    requires |Reserving(RulesOf(env, s, id)[from..upTo])| <= |links|
    ensures var rules := RulesOf(env, s, id);
            Releases(env, s, id, UndoSteps(id, rules, from, upTo, links), Reserving(rules[from..upTo]), links)
    decreases upTo - from
  {
    var rules := RulesOf(env, s, id);
    if from == upTo {
      UnmovedInPlace(s, id);
      assert ReservingBetween(rules, from, upTo) == {};
    } else {
      var tail := rules[from + 1..upTo];
      assert rules[from..upTo] == [rules[from]] + tail;
      ReservingFirst(rules[from], tail);
      if rules[from].Reserve? {
        var step := Undo(id, from, links[0]);
        assert from in ReservingBetween(rules, from, upTo);
        UndoMoves(env, s, id, from, links[0]);
        assert ReservingBetween(rules, from, upTo) - {from} == ReservingBetween(rules, from + 1, upTo);
        ReleaseIsRun(env, Apply(env, s, step), id, from + 1, upTo, links[1..]);
        UndoThen(env, s, id, from, links, UndoSteps(id, rules, from + 1, upTo, links[1..]), Reserving(tail));
      } else {
        assert ReservingBetween(rules, from, upTo) == ReservingBetween(rules, from + 1, upTo);
        ReleaseIsRun(env, s, id, from + 1, upTo, links);
        assert [] + Reserving(tail) == Reserving(tail);
      }
    }
  }

  lemma UndoMoves(env: Policies, s: State, id: nat, i: nat, link: Link)
    requires Enabled(env, s, Undo(id, i, link))
    ensures var s1 := Apply(env, s, Undo(id, i, link));
            && OnlyMoved(s, s1, id)
            && s1.counters == QuotaRules.AfterRelease(RulesOf(env, s, id)[i].quota, s.counters, s.requests[id].ctx, link)
            && s1.requests[id].phase == Unwinding(s.requests[id].phase.pending - {i})
  {
  }

  /** The steps of one whole evaluation: the walk, and after a denial the releases. */
  function PolicySteps(id: nat, rules: seq<Rule>, w: Walk, world: seq<World>, links: seq<Link>): (steps: seq<Step>)
    requires w.evaluated <= |rules| <= |world| && |rules| <= |links| && (w.decision.Deny? ==> w.evaluated > 0)
    ensures NoRecords(steps)
  {
    EvaluateSteps(id, world, 0, w.evaluated)
    + if w.decision.Allow? then []
      else (ReservingShorter(rules[0..w.evaluated - 1]); UndoSteps(id, rules, 0, w.evaluated - 1, links))
  }

  /** The engine's evaluation of a policy is a run of the protocol: same counters, same outcome. */
  lemma EvaluationIsRun(env: Policies, s: State, id: nat, policy: seq<Rule>, world: seq<World>, links: seq<Link>)
    requires Known(env, s, id) && s.requests[id].phase == Evaluating(0)
    requires RulesOf(env, s, id) == OrderRules(policy) && |OrderRules(policy)| == |policy|
    requires |policy| <= |world| && |policy| <= |links|
    ensures var w := WalkRules(OrderRules(policy), 0, s.counters, s.requests[id].ctx, world);
            var steps := PolicySteps(id, OrderRules(policy), w, world, links);
            && ValidRun(env, s, steps)
            && var s' := After(env, s, steps);
               && OnlyMoved(s, s', id)
               && s'.counters == AfterPolicy(policy, s.counters, s.requests[id].ctx, world, links)
               && s'.requests[id].phase == (if w.decision.Allow? then Evaluating(|policy|) else Unwinding({}))
  {
    var rules, ctx := OrderRules(policy), s.requests[id].ctx;
    var w := WalkRules(rules, 0, s.counters, ctx, world);
    WalkIsRun(env, s, id, world);
    var walked := EvaluateSteps(id, world, 0, w.evaluated);
    var s1 := After(env, s, walked);
    if w.decision.Allow? {
      assert walked + [] == walked;
    } else {
      var n := w.evaluated - 1;
      assert rules[0..n] == rules[..n];
      ReservingShorter(rules[..n]);
      assert ReservingUpTo(rules, n) == ReservingBetween(rules, 0, n);
      ReleaseIsRun(env, s1, id, 0, n, links);
      RunAppend(env, s, walked, UndoSteps(id, rules, 0, n, links));
      OnlyMovedTransitive(s, s1, After(env, s1, UndoSteps(id, rules, 0, n, links)), id);
    }
  }
}
