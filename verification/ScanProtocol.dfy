/**
 * Racing and crashing reconcilers over one chain: the block checkpoint, the windows in flight, and the
 * budget protocol underneath (spendReconciler.ts, postgresSpendReconciliationStore.ts).
 */
module ScanProtocol {
  import opened Text
  import opened QuotaStores
  import opened ScanWindow
  import B = Budget
  import S = BudgetSafety

  datatype ScanConfig = ScanConfig(chainId: nat, options: ScanOptions)

  /** A range of at least one block, as the environment schema demands. */
  type Config = c: ScanConfig | c.options.maxBlockRange >= 1
    witness ScanConfig(0, ScanOptions(0, 1, 0))

  /** One replica's window: events still to be offered, by the attestation they landed with. */
  datatype Scan = Scan(from: nat, to: nat, todo: seq<nat>)

  datatype State = State(
    budget: B.State,
    head: nat,
    minedAt: map<nat, nat>,      // landed attestation of this chain -> block of its event
    start: nat,                  // the checkpoint the run starts from
    checkpoint: nat,
    scans: map<nat, Scan>)       // by replica

  datatype Step =
    | Elsewhere(step: B.Step)                          // any budget step that is not this chain's landing or claim
    | Grow(head: nat)
    | Mine(id: nat, cost: nat, block: nat)
    | Begin(replica: nat, latest: nat, todo: seq<nat>) // `latest` may be stale by the time the checkpoint is read
    | Offer(replica: nat, claimed: Option<nat>)
    | Finish(replica: nat)
    | Crash(replica: nat)

  predicate OnThisChain(c: Config, s: B.State, id: nat) {
    id in s.requests && s.requests[id].ctx.fields.chainId == c.chainId
  }

  predicate SameOperation(s: B.State, a: nat, b: nat) {
    a in s.requests && b in s.requests && B.OperationOf(s.requests[a]) == B.OperationOf(s.requests[b])
  }

  predicate Enabled(env: B.Policies, c: Config, s: State, step: Step) {
    match step
    case Elsewhere(b) => B.Enabled(env, s.budget, b) && (b.Land? || b.Claim? ==> !OnThisChain(c, s.budget, b.id))
    case Grow(head) => s.head <= head
    case Mine(id, cost, block) =>
      OnThisChain(c, s.budget, id) && B.Enabled(env, s.budget, B.Land(id, cost)) && s.head < block + c.options.confirmations
    case Begin(replica, latest, todo) =>
      && replica !in s.scans && latest <= s.head
      && (match NextWindow(latest, Some(s.checkpoint), c.options)
          case None => false
          case Some((from, to)) =>
            && (forall id <- todo :: id in s.minedAt && from <= s.minedAt[id] <= to)
            && (forall id <- s.minedAt :: from <= s.minedAt[id] <= to ==> id in todo))
    case Offer(replica, claimed) =>
      && replica in s.scans && s.scans[replica].todo != []
      && (match claimed
          case Some(row) => B.Enabled(env, s.budget, B.Claim(row, s.scans[replica].todo[0]))
          case None => forall row <- s.budget.rows ::
                         SameOperation(s.budget, row, s.scans[replica].todo[0]) ==> s.budget.rows[row].claimed.Some?)
    case Finish(replica) => replica in s.scans && s.scans[replica].todo == []
    case Crash(replica) => replica in s.scans
  }

  function Apply(env: B.Policies, c: Config, s: State, step: Step): State
    requires Enabled(env, c, s, step)
  {
    match step
    case Elsewhere(b) => s.(budget := B.Apply(env, s.budget, b))
    case Grow(head) => s.(head := head)
    case Mine(id, cost, block) => s.(budget := B.Apply(env, s.budget, B.Land(id, cost)), minedAt := s.minedAt[id := block])
    case Begin(replica, latest, todo) =>
      var (from, to) := NextWindow(latest, Some(s.checkpoint), c.options).value;
      s.(scans := s.scans[replica := Scan(from, to, todo)])
    case Offer(replica, claimed) =>
      var scan := s.scans[replica];
      s.(budget := if claimed.Some? then B.Apply(env, s.budget, B.Claim(claimed.value, scan.todo[0])) else s.budget,
         scans := s.scans[replica := scan.(todo := scan.todo[1..])])
    case Finish(replica) =>
      var to := s.scans[replica].to;
      s.(checkpoint := if s.checkpoint < to then to else s.checkpoint, scans := s.scans - {replica})
    case Crash(replica) => s.(scans := s.scans - {replica})
  }

  /** Some attestation of the operation that landed with `id` has been reconciled. */
  ghost predicate OperationReconciled(s: B.State, id: nat) {
    exists row :: row in s.rows && s.rows[row].claimed.Some? && SameOperation(s, row, id)
  }

  ghost predicate ScanSound(c: Config, s: State, scan: Scan) {
    && scan.from <= s.checkpoint + 1 && scan.from <= scan.to && scan.to + c.options.confirmations <= s.head
    && scan.to - scan.from + 1 <= c.options.maxBlockRange
    && (forall id <- scan.todo :: id in s.minedAt)
    && (forall id <- s.minedAt | scan.from <= s.minedAt[id] <= scan.to :: id in scan.todo || OperationReconciled(s.budget, id))
  }

  ghost predicate Inv(env: B.Policies, c: Config, s: State) {
    && B.Traced(env, s.budget)
    && s.start <= s.checkpoint && s.checkpoint + c.options.confirmations <= s.head
    && (forall id <- s.minedAt :: id in s.budget.landed)
    && (forall id <- s.minedAt | s.start < s.minedAt[id] <= s.checkpoint :: OperationReconciled(s.budget, id))
    && (forall replica <- s.scans :: ScanSound(c, s, s.scans[replica]))
  }

  // ---------------------------------------------------------------------------------------------
  // Every step keeps it

  lemma BudgetStepKeepsReconciled(env: B.Policies, s: B.State, step: B.Step, id: nat)
    requires B.Traced(env, s) && B.Enabled(env, s, step) && OperationReconciled(s, id)
    ensures OperationReconciled(B.Apply(env, s, step), id)
  {
    var row :| row in s.rows && s.rows[row].claimed.Some? && SameOperation(s, row, id);
    var s' := B.Apply(env, s, step);
    assert B.RowKnown(s, row) && B.RequestTraced(env, s, row);
    S.ClaimedRowStays(env, s, step, row);
    S.OperationStays(env, s, step, row);
    S.OperationStays(env, s, step, id);
    assert row in s'.rows && s'.rows[row].claimed.Some? && SameOperation(s', row, id);
  }

  lemma BudgetStepKeepsLandings(env: B.Policies, s: B.State, step: B.Step)
    requires B.Enabled(env, s, step)
    ensures s.landed.Keys <= B.Apply(env, s, step).landed.Keys
  {
  }

  /** Replacing the budget by a later one, nothing else, keeps every scan and the checkpoint's promise. */
  lemma BudgetMoveKeepsInv(env: B.Policies, c: Config, s: State, step: B.Step)
    requires Inv(env, c, s) && B.Enabled(env, s.budget, step)
    ensures Inv(env, c, s.(budget := B.Apply(env, s.budget, step)))
  {
    var s' := s.(budget := B.Apply(env, s.budget, step));
    S.StepKeepsTraced(env, s.budget, step);
    BudgetStepKeepsLandings(env, s.budget, step);
    forall id | OperationReconciled(s.budget, id) ensures OperationReconciled(s'.budget, id) {
      BudgetStepKeepsReconciled(env, s.budget, step, id);
    }
    forall replica <- s'.scans ensures ScanSound(c, s', s'.scans[replica]) {
      assert ScanSound(c, s, s.scans[replica]);
    }
  }

  /** A block that can still change is beyond the checkpoint and beyond every window in flight. */
  lemma MinedBeyondScans(env: B.Policies, c: Config, s: State, id: nat, block: nat)
    requires Inv(env, c, s) && id in s.budget.landed && id !in s.minedAt && s.head < block + c.options.confirmations
    ensures Inv(env, c, s.(minedAt := s.minedAt[id := block]))
  {
    var s' := s.(minedAt := s.minedAt[id := block]);
    forall replica <- s'.scans ensures ScanSound(c, s', s'.scans[replica]) {
      assert ScanSound(c, s, s.scans[replica]);
    }
  }

  lemma MineKeepsInv(env: B.Policies, c: Config, s: State, id: nat, cost: nat, block: nat)
    requires Inv(env, c, s) && Enabled(env, c, s, Mine(id, cost, block))
    ensures Inv(env, c, Apply(env, c, s, Mine(id, cost, block)))
  {
    BudgetMoveKeepsInv(env, c, s, B.Land(id, cost));
    MinedBeyondScans(env, c, s.(budget := B.Apply(env, s.budget, B.Land(id, cost))), id, block);
  }

  /** After an offer the operation of the event is reconciled: its own attestation is a row. */
  lemma OfferReconciles(env: B.Policies, c: Config, s: State, replica: nat, claimed: Option<nat>)
    requires Inv(env, c, s) && Enabled(env, c, s, Offer(replica, claimed))
    ensures OperationReconciled(Apply(env, c, s, Offer(replica, claimed)).budget, s.scans[replica].todo[0])
  {
    var event := s.scans[replica].todo[0];
    var s' := Apply(env, c, s, Offer(replica, claimed)).budget;
    assert ScanSound(c, s, s.scans[replica]);
    assert B.RequestTraced(env, s.budget, event);
    var row := if claimed.Some? then claimed.value else event;
    assert row in s'.rows && s'.rows[row].claimed.Some? && SameOperation(s', row, event);
  }

  lemma DroppedKeepsSound(c: Config, s: State, scan: Scan)
    requires ScanSound(c, s, scan) && scan.todo != [] && OperationReconciled(s.budget, scan.todo[0])
    ensures ScanSound(c, s, scan.(todo := scan.todo[1..]))
  {
    assert scan.todo == [scan.todo[0]] + scan.todo[1..];
  }

  /** Only the replicas' windows differ. */
  lemma SoundElsewhere(c: Config, s: State, scans: map<nat, Scan>, scan: Scan)
    requires ScanSound(c, s, scan)
    ensures ScanSound(c, s.(scans := scans), scan)
  {
  }

  /** Dropping an event whose operation is reconciled keeps the window sound. */
  lemma OfferedEventDropped(env: B.Policies, c: Config, s: State, replica: nat)
    requires Inv(env, c, s) && replica in s.scans && s.scans[replica].todo != []
    requires OperationReconciled(s.budget, s.scans[replica].todo[0])
    ensures Inv(env, c, s.(scans := s.scans[replica := s.scans[replica].(todo := s.scans[replica].todo[1..])]))
  {
    var dropped := s.scans[replica].(todo := s.scans[replica].todo[1..]);
    var scans := s.scans[replica := dropped];
    DroppedKeepsSound(c, s, s.scans[replica]);
    forall r <- scans ensures ScanSound(c, s.(scans := scans), scans[r]) {
      SoundElsewhere(c, s, scans, scans[r]);
    }
  }

  lemma OfferKeepsInv(env: B.Policies, c: Config, s: State, replica: nat, claimed: Option<nat>)
    requires Inv(env, c, s) && Enabled(env, c, s, Offer(replica, claimed))
    ensures Inv(env, c, Apply(env, c, s, Offer(replica, claimed)))
  {
    OfferReconciles(env, c, s, replica, claimed);
    if claimed.Some? {
      BudgetMoveKeepsInv(env, c, s, B.Claim(claimed.value, s.scans[replica].todo[0]));
    }
    OfferedEventDropped(env, c, s.(budget := Apply(env, c, s, Offer(replica, claimed)).budget), replica);
  }

  lemma FinishKeepsInv(env: B.Policies, c: Config, s: State, replica: nat)
    requires Inv(env, c, s) && Enabled(env, c, s, Finish(replica))
    ensures Inv(env, c, Apply(env, c, s, Finish(replica)))
  {
    var s' := Apply(env, c, s, Finish(replica));
    assert ScanSound(c, s, s.scans[replica]);
    forall r <- s'.scans ensures ScanSound(c, s', s'.scans[r]) {
      assert ScanSound(c, s, s.scans[r]);
    }
  }

  lemma ViewKeepsInv(env: B.Policies, c: Config, s: State, step: Step)
    requires Inv(env, c, s) && Enabled(env, c, s, step) && (step.Grow? || step.Begin? || step.Crash?)
    ensures Inv(env, c, Apply(env, c, s, step))
  {
    var s' := Apply(env, c, s, step);
    if step.Begin? {
      WindowsAreContiguous(step.latest, Some(s.checkpoint), c.options);
    }
    forall r <- s'.scans ensures ScanSound(c, s', s'.scans[r]) {
      assert r in s.scans ==> ScanSound(c, s, s.scans[r]);
    }
  }

  lemma StepKeepsInv(env: B.Policies, c: Config, s: State, step: Step)
    requires Inv(env, c, s) && Enabled(env, c, s, step)
    ensures Inv(env, c, Apply(env, c, s, step))
    ensures s.checkpoint <= Apply(env, c, s, step).checkpoint && Apply(env, c, s, step).start == s.start
  {
    match step
    case Elsewhere(b) => BudgetMoveKeepsInv(env, c, s, b);
    case Mine(id, cost, block) => MineKeepsInv(env, c, s, id, cost, block);
    case Offer(replica, claimed) => OfferKeepsInv(env, c, s, replica, claimed);
    case Finish(replica) => FinishKeepsInv(env, c, s, replica);
    case _ => ViewKeepsInv(env, c, s, step);
  }

  ghost predicate ValidRun(env: B.Policies, c: Config, s: State, steps: seq<Step>)
    decreases steps
  {
    steps == [] || (Enabled(env, c, s, steps[0]) && ValidRun(env, c, Apply(env, c, s, steps[0]), steps[1..]))
  }

  ghost function After(env: B.Policies, c: Config, s: State, steps: seq<Step>): State
    requires ValidRun(env, c, s, steps)
    decreases steps
  {
    if steps == [] then s else After(env, c, Apply(env, c, s, steps[0]), steps[1..])
  }

  lemma {:induction false} RunKeepsInv(env: B.Policies, c: Config, s: State, steps: seq<Step>)
    requires Inv(env, c, s) && ValidRun(env, c, s, steps)
    ensures Inv(env, c, After(env, c, s, steps))
    ensures s.checkpoint <= After(env, c, s, steps).checkpoint && After(env, c, s, steps).start == s.start
    decreases steps
  {
    if steps != [] {
      StepKeepsInv(env, c, s, steps[0]);
      RunKeepsInv(env, c, Apply(env, c, s, steps[0]), steps[1..]);
    }
  }

  /** A deployment that starts scanning from `checkpoint`, before anything is mined beyond it. */
  ghost predicate Fresh(env: B.Policies, c: Config, s: State) {
    && s == State(B.INITIAL, s.head, map[], s.checkpoint, s.checkpoint, map[])
    && s.checkpoint + c.options.confirmations <= s.head
  }

  /**
   * Whatever replicas race or crash: the checkpoint only advances, stays behind the confirmed head, no
   * window is wider than the cap, and every operation that landed in a block the checkpoint has passed
   * has an attestation reconciled.
   */
  lemma ReconcilersMissNothing(env: B.Policies, c: Config, s: State, steps: seq<Step>)
    requires Fresh(env, c, s) && ValidRun(env, c, s, steps)
    ensures var s' := After(env, c, s, steps);
            && s.checkpoint <= s'.checkpoint && s'.checkpoint + c.options.confirmations <= s'.head
            && (forall replica <- s'.scans :: 1 <= s'.scans[replica].to - s'.scans[replica].from + 1 <= c.options.maxBlockRange)
            && (forall id <- s'.minedAt | s.checkpoint < s'.minedAt[id] <= s'.checkpoint :: OperationReconciled(s'.budget, id))
  {
    RunKeepsInv(env, c, s, steps);
    var s' := After(env, c, s, steps);
    forall replica <- s'.scans ensures 1 <= s'.scans[replica].to - s'.scans[replica].from + 1 <= c.options.maxBlockRange {
      assert ScanSound(c, s', s'.scans[replica]);
    }
  }

  // ---------------------------------------------------------------------------------------------
  // Once per row, once per rule

  function Claims(steps: seq<B.Step>, id: nat): nat {
    if steps == [] then 0
    else (if steps[0].Claim? && steps[0].id == id then 1 else 0) + Claims(steps[1..], id)
  }

  function Refunds(steps: seq<B.Step>, h: B.HoldId): nat {
    if steps == [] then 0
    else (if steps[0].Refund? && steps[0].id == h.request && steps[0].rule == h.rule then 1 else 0) + Refunds(steps[1..], h)
  }

  predicate IsClaimed(s: B.State, id: nat) {
    id in s.rows && s.rows[id].claimed.Some?
  }

  lemma StepKeepsClaimed(env: B.Policies, s: B.State, step: B.Step, h: B.HoldId)
    requires B.Traced(env, s) && B.Enabled(env, s, step)
    ensures var s' := B.Apply(env, s, step);
            && (IsClaimed(s, h.request) ==> IsClaimed(s', h.request) && !(step.Claim? && step.id == h.request))
            && (step.Claim? && step.id == h.request ==> IsClaimed(s', h.request))
            && (IsClaimed(s, h.request) && h !in s.refunds ==> h !in s'.refunds)
            && (step.Refund? && B.HoldId(step.id, step.rule) == h ==> IsClaimed(s, h.request) && h in s.refunds && h !in s'.refunds)
  {
    if IsClaimed(s, h.request) {
      assert B.RowKnown(s, h.request) && B.RequestTraced(env, s, h.request);
      S.ClaimedRowStays(env, s, step, h.request);
    }
  }

  lemma {:induction false} AtMostOnce(env: B.Policies, s: B.State, steps: seq<B.Step>, h: B.HoldId)
    requires B.Traced(env, s) && B.ValidRun(env, s, steps)
    ensures Claims(steps, h.request) <= (if IsClaimed(s, h.request) then 0 else 1)
    ensures Refunds(steps, h) <= (if IsClaimed(s, h.request) && h !in s.refunds then 0 else 1)
    decreases steps
  {
    if steps != [] {
      StepKeepsClaimed(env, s, steps[0], h);
      S.StepKeepsTraced(env, s, steps[0]);
      AtMostOnce(env, B.Apply(env, s, steps[0]), steps[1..], h);
    }
  }

  /** In every run each sponsorship is claimed at most once, and each of its quotas refunded at most once. */
  lemma ClaimedAndRefundedOnce(env: B.Policies, steps: seq<B.Step>, h: B.HoldId)
    requires B.ValidRun(env, B.INITIAL, steps)
    ensures Claims(steps, h.request) <= 1 && Refunds(steps, h) <= 1
  {
    AtMostOnce(env, B.INITIAL, steps, h);
  }
}
