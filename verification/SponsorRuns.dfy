/** A sponsorship request, however it ends, is a run of the budget protocol. */
module SponsorRuns {
  import opened Text
  import opened QuotaStores
  import opened QuotaRules
  import opened Engine
  import opened Budget
  import opened BudgetRuns
  import opened Sponsorships
  import opened SponsorService

  lemma ArrivalMoves(env: Policies, s: State, rows: Rows, id: nat, key: PolicyKey, nonce: nat, ctx: Context)
    requires id !in s.requests && key in env && Agrees(s, rows)
    ensures Enabled(env, s, Arrive(id, key, nonce, ctx))
    ensures var s1 := Apply(env, s, Arrive(id, key, nonce, ctx));
            && Known(env, s1, id) && s1.requests[id] == Request(key, nonce, ctx, Evaluating(0))
            && s1.counters == s.counters && Agrees(s1, rows)
  {
    var s1 := Apply(env, s, Arrive(id, key, nonce, ctx));
    assert forall other <- rows :: RowOf(s1, other) == RowOf(s, other);
  }

  lemma MovesAgree(s: State, s': State, id: nat, rows: Rows)
    requires OnlyMoved(s, s', id) && Agrees(s, rows)
    ensures Agrees(s', rows)
  {
    assert forall other <- rows :: RowOf(s', other) == RowOf(s, other);
  }

  lemma RecordAgrees(env: Policies, s: State, rows: Rows, id: nat, createdAt: nat)
    requires Enabled(env, s, Record(id, createdAt)) && Agrees(s, rows) && id !in rows
    ensures var s1 := Apply(env, s, Record(id, createdAt));
            s1.counters == s.counters && Agrees(s1, rows[id := RowOf(s1, id)])
  {
    var s1 := Apply(env, s, Record(id, createdAt));
    assert forall other <- rows :: RowOf(s1, other) == RowOf(s, other);
  }

  /** Approved, then given back because signing or recording failed. */
  lemma FailureIsRun(env: Policies, s: State, rows: Rows, id: nat, links: seq<Link>) returns (steps: seq<Step>)
    requires Known(env, s, id) && Agrees(s, rows)
    requires s.requests[id].phase == Evaluating(|RulesOf(env, s, id)|)
    requires |Reserving(RulesOf(env, s, id))| <= |links|
    ensures ValidRun(env, s, steps) && NoRecords(steps)
    ensures var s' := After(env, s, steps);
            && Agrees(s', rows)
            && s'.counters == ReleaseAll(Reserving(RulesOf(env, s, id)), s.counters, s.requests[id].ctx, links)
  {
    var rules := RulesOf(env, s, id);
    var s1 := Apply(env, s, Fail(id));
    assert OnlyMoved(s, s1, id);
    assert rules[0..|rules|] == rules;
    assert ReservingUpTo(rules, |rules|) == ReservingBetween(rules, 0, |rules|);
    ReleaseIsRun(env, s1, id, 0, |rules|, links);
    var undo := UndoSteps(id, rules, 0, |rules|, links);
    steps := [Fail(id)] + undo;
    RunCons(env, s, Fail(id), undo);
    OnlyMovedTransitive(s, s1, After(env, s1, undo), id);
    MovesAgree(s, After(env, s1, undo), id, rows);
  }

  /** The rows one request leaves. */
  function RowsAfter(rows: Rows, response: Response, request: SponsorRequest, caller: Caller, around: Surroundings): Rows {
    if !response.Issued? then rows
    else rows[response.id := SponsorshipRow(
           caller.tenant, request.policyId, request.chainId, Lower(request.sender), request.nonce,
           if caller.apiKeyId.Some? then caller.apiKeyId.value else "anonymous", request.maxCost, around.createdAt, None)]
  }

  lemma ArrivalAndEvaluationIsRun(env: Policies, s: State, rows: Rows, rules: seq<Rule>, key: PolicyKey, nonce: nat, ctx: Context,
                                  world: seq<World>, links: seq<Link>, id: nat) returns (steps: seq<Step>)
    requires Agrees(s, rows) && id !in s.requests
    requires key in env && env[key] == OrderRules(rules) && |OrderRules(rules)| == |rules|
    requires |rules| <= |world| && |rules| <= |links|
    ensures ValidRun(env, s, steps) && NoRecords(steps)
    ensures var s' := After(env, s, steps);
            var allowed := WalkRules(OrderRules(rules), 0, s.counters, ctx, world).decision.Allow?;
            && Known(env, s', id) && Agrees(s', rows)
            && s'.counters == AfterPolicy(rules, s.counters, ctx, world, links)
            && s'.requests[id] == Request(key, nonce, ctx, if allowed then Evaluating(|rules|) else Unwinding({}))
  {
    ArrivalMoves(env, s, rows, id, key, nonce, ctx);
    var arrive := Arrive(id, key, nonce, ctx);
    var s1 := Apply(env, s, arrive);
    var evaluate := PolicySteps(id, OrderRules(rules), WalkRules(OrderRules(rules), 0, s.counters, ctx, world), world, links);
    EvaluationIsRun(env, s1, id, rules, world, links);
    MovesAgree(s1, After(env, s1, evaluate), id, rows);
    RunCons(env, s, arrive, evaluate);
    steps := [arrive] + evaluate;
  }

  /** An approved request: recorded and handed out, or given back. */
  lemma ApprovalIsRun(env: Policies, s: State, rows: Rows, rules: seq<Rule>, request: SponsorRequest,
                      caller: Caller, around: Surroundings, id: nat) returns (steps: seq<Step>)
    requires Agrees(s, rows) && id !in rows && Known(env, s, id) && RulesOf(env, s, id) == OrderRules(rules)
    requires s.requests[id] == Request(PolicyKey(caller.tenant, request.policyId), request.nonce,
                                       ContextOf(request, caller, around.now), Evaluating(|OrderRules(rules)|))
    requires |Reserving(rules)| <= |around.failureLinks|
    ensures ValidRun(env, s, steps)
    ensures (around.signs && around.records ==> RowFaithful(OrderRules(rules), s.requests[id].ctx, around.createdAt))
            ==> FaithfulRun(env, s, steps)
    ensures var s' := After(env, s, steps);
            if around.signs && around.records
            then s'.counters == s.counters && Agrees(s', RowsAfter(rows, Issued(id), request, caller, around))
            else s'.counters == ReleaseAll(Reserving(rules), s.counters, s.requests[id].ctx, around.failureLinks) && Agrees(s', rows)
  {
    if around.signs && around.records {
      RecordAgrees(env, s, rows, id, around.createdAt);
      steps := [Record(id, around.createdAt)];
      RunCons(env, s, Record(id, around.createdAt), []);
    } else {
      ReservingInWrittenOrder(rules);
      steps := FailureIsRun(env, s, rows, id, around.failureLinks);
      NoRecordsFaithful(env, s, steps);
    }
  }

  /** A row that is issued is stamped so that its refunds reach the counters it charged. */
  predicate StampedFaithfully(policy: Option<seq<Rule>>, response: Response, request: SponsorRequest, caller: Caller, around: Surroundings) {
    response.Issued? && policy.Some? ==> RowFaithful(OrderRules(policy.value), ContextOf(request, caller, around.now), around.createdAt)
  }

  /**
   * What `SponsorService.Sponsor` answers, charges and records is a run of the protocol on the same counters and
   * rows, whatever the outcome; and a faithful one if the row it may issue is stamped faithfully.
   */
  lemma SponsorIsRun(env: Policies, s: State, rows: Rows, policy: Option<seq<Rule>>, request: SponsorRequest,
                     caller: Caller, around: Surroundings, id: nat) returns (steps: seq<Step>)
    requires Agrees(s, rows) && id !in s.requests && id !in rows
    requires policy.Some? ==>
               && PolicyKey(caller.tenant, request.policyId) in env
               && env[PolicyKey(caller.tenant, request.policyId)] == OrderRules(policy.value)
               && |OrderRules(policy.value)| == |policy.value| <= |around.world|
               && |policy.value| <= |around.denialLinks| && |policy.value| <= |around.failureLinks|
    ensures ValidRun(env, s, steps)
    ensures var s' := After(env, s, steps);
            var response := ResponseTo(policy, s.counters, request, caller, around, id);
            && s'.counters == CountersAfter(policy, s.counters, request, caller, around)
            && Agrees(s', RowsAfter(rows, response, request, caller, around))
            && (StampedFaithfully(policy, response, request, caller, around) ==> FaithfulRun(env, s, steps))
  {
    if policy.None? || !around.allowsSponsorship || Underfunded(request, around) {
      return [];
    }
    var key, ctx := PolicyKey(caller.tenant, request.policyId), ContextOf(request, caller, around.now);
    var first := ArrivalAndEvaluationIsRun(env, s, rows, policy.value, key, request.nonce, ctx, around.world, around.denialLinks, id);
    var s1 := After(env, s, first);
    NoRecordsFaithful(env, s, first);
    var last: seq<Step> := [];
    if WalkRules(OrderRules(policy.value), 0, s.counters, ctx, around.world).decision.Allow? {
      ReservingShorter(policy.value);
      last := ApprovalIsRun(env, s1, rows, policy.value, request, caller, around, id);
    }
    RunAppend(env, s, first, last);
    if StampedFaithfully(policy, ResponseTo(policy, s.counters, request, caller, around, id), request, caller, around) {
      FaithfulAppend(env, s, first, last);
    }
    steps := first + last;
  }
}
