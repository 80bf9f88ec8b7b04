/** A run in which one row is stamped in the wrong window: its spend cap is passed by exactly the gwei that strays. */
module MisstampedRun {
  import opened Text
  import opened Windows
  import opened QuotaStores
  import opened QuotaRules
  import opened Engine
  import opened Budget
  import opened BudgetRuns
  import opened SpendCap
  import opened StrayRefunds

  const WINDOW: nat := 10
  const COST: nat := WEI_PER_GWEI

  /** One gwei per ten seconds, over the whole tenant. */
  const CAP: Quota := QuotaOptions("cap", Global, Wei, COST, WINDOW, DenyMissing, "")

  const POLICY := PolicyKey("tenant", "policy")

  const LOADED: Policies := map[POLICY := [Reserve(CAP)]]

  /** A request whose worst case is the whole cap. */
  function At(now: nat): Context {
    Context(SubjectFields(0, "", None, None, None), COST, now)
  }

  function Slot(now: nat): string {
    WindowedKey("quota:cap", WINDOW, now)
  }

  lemma CapCharges(now: nat)
    ensures SlotFor(CAP, At(now)) == Some(Slot(now)) && AmountFor(CAP, At(now)) == 1 == CountedLimit(CAP)
  {
    assert "quota:" + "cap" == "quota:cap";
  }

  function AttestSteps(id: nat, now: nat, createdAt: nat): seq<Step> {
    [Arrive(id, POLICY, id, At(now)), Evaluate(id, World(None, Up)), Record(id, createdAt)]
  }

  function Attest(s: State, id: nat, now: nat, createdAt: nat): State {
    State(s.counters[Slot(now) := 1], s.holds[HoldId(id, 0) := Hold(CAP, Slot(now), 1)],
          s.requests[id := Request(POLICY, id, At(now), Attested)], s.rows[id := Row(createdAt, None)], s.landed, s.refunds)
  }

  lemma AttestRuns(s: State, id: nat, now: nat, createdAt: nat)
    requires id !in s.requests && Usage(s.counters, Slot(now)) == 0
    ensures ValidRun(LOADED, s, AttestSteps(id, now, createdAt))
    ensures After(LOADED, s, AttestSteps(id, now, createdAt)) == Attest(s, id, now, createdAt)
  {
    var arrive, evaluate, record := Arrive(id, POLICY, id, At(now)), Evaluate(id, World(None, Up)), Record(id, createdAt);
    var s1 := Arrived(s, id, now);
    ArriveRuns(s, id, now);
    EvaluateThenRecord(s1, id, now, createdAt);
    RunCons(LOADED, Apply(LOADED, s1, evaluate), record, []);
    RunCons(LOADED, s1, evaluate, [record]);
    RunCons(LOADED, s, arrive, [evaluate, record]);
    assert [arrive] + [evaluate, record] == AttestSteps(id, now, createdAt);
    assert [evaluate] + [record] == [evaluate, record] && [record] + [] == [record];
    ArrivedAttest(s, id, now, createdAt);
  }

  function Arrived(s: State, id: nat, now: nat): State {
    s.(requests := s.requests[id := Request(POLICY, id, At(now), Evaluating(0))])
  }

  lemma ArriveRuns(s: State, id: nat, now: nat)
    requires id !in s.requests
    ensures Enabled(LOADED, s, Arrive(id, POLICY, id, At(now)))
    ensures Apply(LOADED, s, Arrive(id, POLICY, id, At(now))) == Arrived(s, id, now)
  {
  }

  lemma ArrivedAttest(s: State, id: nat, now: nat, createdAt: nat)
    ensures Attest(Arrived(s, id, now), id, now, createdAt) == Attest(s, id, now, createdAt)
  {
    assert Arrived(s, id, now).requests[id := Request(POLICY, id, At(now), Attested)] == s.requests[id := Request(POLICY, id, At(now), Attested)];
  }

  lemma EvaluateThenRecord(s: State, id: nat, now: nat, createdAt: nat)
    requires id in s.requests && s.requests[id] == Request(POLICY, id, At(now), Evaluating(0)) && Usage(s.counters, Slot(now)) == 0
    ensures Enabled(LOADED, s, Evaluate(id, World(None, Up)))
    ensures Enabled(LOADED, Apply(LOADED, s, Evaluate(id, World(None, Up))), Record(id, createdAt))
    ensures Apply(LOADED, Apply(LOADED, s, Evaluate(id, World(None, Up))), Record(id, createdAt)) == Attest(s, id, now, createdAt)
  {
    EvaluateRuns(s, id, now);
    var s2 := Apply(LOADED, s, Evaluate(id, World(None, Up)));
    assert s2.requests[id := Request(POLICY, id, At(now), Attested)] == s.requests[id := Request(POLICY, id, At(now), Attested)];
  }

  lemma EvaluateRuns(s: State, id: nat, now: nat)
    requires id in s.requests && s.requests[id] == Request(POLICY, id, At(now), Evaluating(0)) && Usage(s.counters, Slot(now)) == 0
    ensures Enabled(LOADED, s, Evaluate(id, World(None, Up)))
    ensures Apply(LOADED, s, Evaluate(id, World(None, Up)))
            == s.(counters := s.counters[Slot(now) := 1], holds := s.holds[HoldId(id, 0) := Hold(CAP, Slot(now), 1)],
                  requests := s.requests[id := Request(POLICY, id, At(now), Evaluating(1))])
  {
    CapCharges(now);
  }

  /** The first attestation, charged at second 0 and stamped at second 10, lands for free and is claimed. */
  function Claimed(s: State): State
    requires 0 in s.rows
  {
    s.(landed := s.landed[0 := 0], rows := s.rows[0 := s.rows[0].(claimed := Some(0))], refunds := s.refunds + {HoldId(0, 0)})
  }

  lemma ClaimRuns(s: State)
    requires s.landed == map[] && 0 in s.requests && s.requests[0] == Request(POLICY, 0, At(0), Attested)
    requires 0 in s.rows && s.rows[0].claimed.None?
    ensures ValidRun(LOADED, s, [Land(0, 0), Claim(0, 0)]) && After(LOADED, s, [Land(0, 0), Claim(0, 0)]) == Claimed(s)
  {
    var s1 := Apply(LOADED, s, Land(0, 0));
    assert ReservingUpTo(LOADED[POLICY], 1) == {0};
    assert (set i | i in ReservingUpTo(LOADED[POLICY], 1) :: HoldId(0, i)) == {HoldId(0, 0)};
    RunCons(LOADED, s1, Claim(0, 0), []);
    RunCons(LOADED, s, Land(0, 0), [Claim(0, 0)]);
    assert [Land(0, 0)] + [Claim(0, 0)] == [Land(0, 0), Claim(0, 0)] && [Claim(0, 0)] + [] == [Claim(0, 0)];
  }

  /** Its refund comes off the counter of the second window. */
  lemma RefundRuns(s: State)
    requires 0 in s.requests && s.requests[0] == Request(POLICY, 0, At(0), Attested)
    requires 0 in s.rows && s.rows[0] == Row(10, Some(0)) && HoldId(0, 0) in s.refunds
    requires Slot(10) in s.counters && s.counters[Slot(10)] == 1
    ensures ValidRun(LOADED, s, [Refund(0, 0, Up)])
    ensures var s' := After(LOADED, s, [Refund(0, 0, Up)]);
            s' == s.(counters := s.counters - {Slot(10)}, holds := s'.holds, refunds := s'.refunds)
    ensures Stray(LOADED, s, [Refund(0, 0, Up)], Slot(10)) == 1
  {
    SlotsDiffer();
    CapCharges(0);
    CapCharges(10);
    var r := TrueUpOf(At(0), 10, 0);
    assert TrueUpSlot(CAP, r) == Some(Slot(10)) by {
      assert KeyFor(CAP, SubjectFields(0, "", None, Some("anonymous"), None)) == KeyFor(CAP, At(10).fields);
    }
    assert OverReserved(r) == 1;
    RunCons(LOADED, s, Refund(0, 0, Up), []);
    assert StrayOf(LOADED, s, Refund(0, 0, Up), Slot(10)) == 1;
    StrayFirst(LOADED, s, Refund(0, 0, Up), [], Slot(10));
    assert [Refund(0, 0, Up)] + [] == [Refund(0, 0, Up)];
  }

  lemma LandRuns(s: State)
    requires s.landed == map[0 := 0] && {0, 1, 2} <= s.requests.Keys
    requires s.requests[0].nonce == 0
    requires s.requests[1] == Request(POLICY, 1, At(10), Attested) && s.requests[2] == Request(POLICY, 2, At(10), Attested)
    ensures ValidRun(LOADED, s, [Land(1, COST), Land(2, COST)])
    ensures After(LOADED, s, [Land(1, COST), Land(2, COST)]) == s.(landed := map[0 := 0, 1 := COST, 2 := COST])
  {
    var s1 := Apply(LOADED, s, Land(1, COST));
    assert s1.landed == map[0 := 0, 1 := COST];
    RunCons(LOADED, s1, Land(2, COST), []);
    RunCons(LOADED, s, Land(1, COST), [Land(2, COST)]);
    assert [Land(1, COST)] + [Land(2, COST)] == [Land(1, COST), Land(2, COST)] && [Land(2, COST)] + [] == [Land(2, COST)];
  }

  /** A run from the start to `s`, with `stray` gwei taken off the second window's counter. */
  ghost predicate Reaches(steps: seq<Step>, s: State, stray: nat) {
    ValidRun(LOADED, INITIAL, steps) && After(LOADED, INITIAL, steps) == s && Stray(LOADED, INITIAL, steps, Slot(10)) == stray
  }

  lemma Then(a: seq<Step>, s: State, stray: nat, b: seq<Step>) returns (steps: seq<Step>)
    requires Reaches(a, s, stray) && ValidRun(LOADED, s, b)
    ensures Reaches(steps, After(LOADED, s, b), stray + Stray(LOADED, s, b, Slot(10)))
  {
    RunAppend(LOADED, INITIAL, a, b);
    StrayAppends(LOADED, INITIAL, a, b, Slot(10));
    steps := a + b;
  }

  lemma ThenAttest(a: seq<Step>, s: State, stray: nat, id: nat, now: nat, createdAt: nat) returns (steps: seq<Step>)
    requires Reaches(a, s, stray) && id !in s.requests && Usage(s.counters, Slot(now)) == 0
    ensures Reaches(steps, Attest(s, id, now, createdAt), stray)
  {
    AttestRuns(s, id, now, createdAt);
    NothingStrays(LOADED, s, AttestSteps(id, now, createdAt), Slot(10));
    steps := Then(a, s, stray, AttestSteps(id, now, createdAt));
  }

  lemma ThenClaim(a: seq<Step>, s: State, stray: nat) returns (steps: seq<Step>)
    requires Reaches(a, s, stray) && s.landed == map[] && 0 in s.requests && s.requests[0] == Request(POLICY, 0, At(0), Attested)
    requires 0 in s.rows && s.rows[0].claimed.None?
    ensures Reaches(steps, Claimed(s), stray)
  {
    ClaimRuns(s);
    NothingStrays(LOADED, s, [Land(0, 0), Claim(0, 0)], Slot(10));
    steps := Then(a, s, stray, [Land(0, 0), Claim(0, 0)]);
  }

  /** Two attestations, one charged in each window, and the first claimed. */
  lemma TwoAttested() returns (steps: seq<Step>, s: State)
    ensures Reaches(steps, s, 0) && s.landed == map[0 := 0] && s.requests.Keys == {0, 1}
    ensures s.requests[0] == Request(POLICY, 0, At(0), Attested) && s.requests[1] == Request(POLICY, 1, At(10), Attested)
    ensures 0 in s.rows && s.rows[0] == Row(10, Some(0)) && HoldId(0, 0) in s.refunds
    ensures Slot(10) in s.counters && s.counters[Slot(10)] == 1
  {
    SlotsDiffer();
    NothingStrays(LOADED, INITIAL, [], Slot(10));
    steps := ThenAttest([], INITIAL, 0, 0, 0, 10);
    var s1 := Attest(INITIAL, 0, 0, 10);
    steps := ThenClaim(steps, s1, 0);
    steps := ThenAttest(steps, Claimed(s1), 0, 1, 10, 10);
    s := Attest(Claimed(s1), 1, 10, 10);
  }

  /** The run: a third request is granted on the budget the misstamped refund freed. */
  lemma Run() returns (steps: seq<Step>)
    ensures ValidRun(LOADED, INITIAL, steps) && Stray(LOADED, INITIAL, steps, Slot(10)) == 1
    ensures var s := After(LOADED, INITIAL, steps);
            && s.landed == map[0 := 0, 1 := COST, 2 := COST] && s.requests.Keys == {0, 1, 2}
            && s.requests[0] == Request(POLICY, 0, At(0), Attested)
            && s.requests[1] == Request(POLICY, 1, At(10), Attested)
            && s.requests[2] == Request(POLICY, 2, At(10), Attested)
  {
    var s3;
    steps, s3 := TwoAttested();
    RefundRuns(s3);
    var s4 := After(LOADED, s3, [Refund(0, 0, Up)]);
    steps := Then(steps, s3, 0, [Refund(0, 0, Up)]);
    steps := ThenAttest(steps, s4, 1, 2, 10, 10);
    var s5 := Attest(s4, 2, 10, 10);
    LandRuns(s5);
    NothingStrays(LOADED, s5, [Land(1, COST), Land(2, COST)], Slot(10));
    steps := Then(steps, s5, 1, [Land(1, COST), Land(2, COST)]);
  }

  lemma SlotsDiffer()
    ensures Slot(0) != Slot(10)
  {
    assert WindowStart(0, WINDOW) == 0 && WindowStart(10, WINDOW) == 10;
    if Slot(0) == Slot(10) {
      SlotNameInjective("quota:cap", WINDOW, 0, "quota:cap", WINDOW, 10);
    }
  }

  /**
   * The bound of the spend cap is reached: in a run whose first row is stamped one window late, operations attested
   * in the second window cost the limit and the one gwei that the misstamped refund took off their counter.
   */
  lemma CapIsPassed() returns (steps: seq<Step>)
    ensures ValidRun(LOADED, INITIAL, steps) && !FaithfulRun(LOADED, INITIAL, steps)
    ensures var s := After(LOADED, INITIAL, steps);
            && Total(LOADED, s, s.landed, CAP, "quota:cap", 10)
               == CAP.limit + WEI_PER_GWEI * Stray(LOADED, INITIAL, steps, SlotName("quota:cap", WINDOW, 10))
               == 2 * CAP.limit
  {
    steps := Run();
    var s := After(LOADED, INITIAL, steps);
    TwiceTheLimit(s);
    if FaithfulRun(LOADED, INITIAL, steps) {
      FaithfulCountersAreHolds(LOADED, steps, CAP, Slot(10));
    }
  }

  lemma TwiceTheLimit(s: State)
    requires s.landed == map[0 := 0, 1 := COST, 2 := COST] && s.requests.Keys == {0, 1, 2}
    requires s.requests[0] == Request(POLICY, 0, At(0), Attested)
    requires s.requests[1] == Request(POLICY, 1, At(10), Attested)
    requires s.requests[2] == Request(POLICY, 2, At(10), Attested)
    ensures Total(LOADED, s, s.landed, CAP, "quota:cap", 10) == 2 * CAP.limit
    ensures SlotName("quota:cap", WINDOW, 10) == Slot(10)
  {
    assert "quota:" + "cap" == "quota:cap";
    assert WindowStart(0, WINDOW) == 0 && WindowStart(10, WINDOW) == 10;
    var charged := Charged(LOADED, s, s.landed, CAP, "quota:cap", 10);
    assert charged == map[1 := COST, 2 := COST];
    SumRemove(charged, 1);
    SumRemove(charged - {1}, 2);
    assert charged - {1} - {2} == map[];
  }
}
