/** Runs of claims: what is credited was paid, to the tenant the transfer names, once. */
module ClaimRuns {
  import opened Text
  import opened Subscriptions
  import opened PaymentClaims

  /** The transfers behind each transaction hash, on every chain. */
  type World = map<TxRef, Transfer>

  /** The reference a tenant's payments carry: a hash of its id. */
  type Reference = string -> string

  ghost predicate Injective(reference: Reference) {
    forall a, b | Lower(reference(a)) == Lower(reference(b)) :: a == b
  }

  datatype Step = SelfClaim(q: ClaimRequest, mined: Option<Mined>, head: nat) | OperatorPayment(request: PaymentRequest)

  /** A claim that bought time. */
  datatype Credit = Credit(tenant: string, tx: TxRef, price: nat, periods: nat)

  datatype Books = Books(billing: Billing, credits: seq<Credit>)

  /** A chain may not know a hash yet, but what it reports under a hash is that hash's transfer. */
  ghost predicate Truthful(world: World, step: Step) {
    step.SelfClaim? ==>
      && InSchema(step.q.plan)
      && (step.mined.Some? ==>
            var tx := TxRef(step.q.chainId, Lower(step.q.txHash));
            tx in world && world[tx] == step.mined.value.transfer)
  }

  ghost function Next(s: Books, step: Step, world: World, reference: Reference, o: VerifierOptions): Books
    requires Truthful(world, step)
  {
    match step
    case OperatorPayment(request) => s.(billing := Record(s.billing, request).0)
    case SelfClaim(q, mined, head) =>
      var (after, outcome) := Claim(s.billing, q, mined, head, reference(q.tenant), o);
      if outcome.Err? then Books(after, s.credits)
      else
        var v := Verify(q.chainId, mined, head, reference(q.tenant), q.plan, o).value;
        Books(after, s.credits + [Credit(q.tenant, TxRef(q.chainId, Lower(q.txHash)), q.plan.priceWei[q.chainId], Credited(v, q.plan))])
  }

  ghost predicate AllTruthful(world: World, steps: seq<Step>) {
    forall i | 0 <= i < |steps| :: Truthful(world, steps[i])
  }

  ghost function After(steps: seq<Step>, world: World, reference: Reference, o: VerifierOptions): Books
    requires AllTruthful(world, steps)
  {
    if steps == [] then Books(Billing([], map[]), [])
    else Next(After(steps[..|steps| - 1], world, reference, o), steps[|steps| - 1], world, reference, o)
  }

  predicate Names(t: Transfer, tenant: string, reference: Reference, o: VerifierOptions) {
    && t.to.Some? && Lower(t.to.value) == Lower(o.treasury)
    && Lower(t.input) == Lower(reference(tenant))
  }

  ghost predicate Earned(c: Credit, world: World, reference: Reference, o: VerifierOptions) {
    && c.tx in world && Names(world[c.tx], c.tenant, reference, o)
    && c.periods >= 1 && c.periods * c.price <= world[c.tx].valueWei
  }

  ghost predicate Honest(s: Books, world: World, reference: Reference, o: VerifierOptions) {
    && (forall i | 0 <= i < |s.credits| :: Earned(s.credits[i], world, reference, o) && IsRecorded(s.billing.payments, s.credits[i].tx))
    && (forall i, j | 0 <= i < j < |s.credits| :: s.credits[i].tx != s.credits[j].tx)
  }

  lemma RecordedStays(b: Billing, q: PaymentRequest, tx: TxRef)
    requires IsRecorded(b.payments, tx)
    ensures IsRecorded(Record(b, q).0.payments, tx)
  {
    var i :| 0 <= i < |b.payments| && b.payments[i].tx == Some(tx);
    assert Record(b, q).0.payments[i] == b.payments[i];
  }

  lemma ClaimIsNew(s: Books, q: ClaimRequest, mined: Option<Mined>, head: nat, reference: string, o: VerifierOptions)
    requires InSchema(q.plan) && Claim(s.billing, q, mined, head, reference, o).1.Ok?
    ensures var tx := TxRef(q.chainId, Lower(q.txHash));
            && !IsRecorded(s.billing.payments, tx)
            && IsRecorded(Claim(s.billing, q, mined, head, reference, o).0.payments, tx)
  {
    var (after, outcome) := Claim(s.billing, q, mined, head, reference, o);
    assert after.payments[|s.billing.payments|] == outcome.value;
  }

  lemma StepKeepsHonest(s: Books, step: Step, world: World, reference: Reference, o: VerifierOptions)
    requires Truthful(world, step) && Honest(s, world, reference, o)
    ensures Honest(Next(s, step, world, reference, o), world, reference, o)
  {
    var after := Next(s, step, world, reference, o);
    forall i | 0 <= i < |s.credits| ensures IsRecorded(after.billing.payments, s.credits[i].tx) {
      if after.billing != s.billing {
        match step
        case OperatorPayment(request) => RecordedStays(s.billing, request, s.credits[i].tx);
        case SelfClaim(q, mined, head) =>
          var v := Verify(q.chainId, mined, head, reference(q.tenant), q.plan, o).value;
          RecordedStays(s.billing, RecordedAs(q, v), s.credits[i].tx);
      }
    }
    if step.SelfClaim? && |after.credits| > |s.credits| {
      ClaimIsNew(s, step.q, step.mined, step.head, reference(step.q.tenant), o);
      ClaimIsBounded(s.billing, step.q, step.mined, step.head, reference(step.q.tenant), o);
    }
  }

  /** In every run each transaction is credited at most once, to the tenant it names, for no more than it paid. */
  lemma {:induction false} EveryCreditWasEarned(steps: seq<Step>, world: World, reference: Reference, o: VerifierOptions)
    requires AllTruthful(world, steps)
    ensures Honest(After(steps, world, reference, o), world, reference, o)
  {
    if steps != [] {
      EveryCreditWasEarned(steps[..|steps| - 1], world, reference, o);
      StepKeepsHonest(After(steps[..|steps| - 1], world, reference, o), steps[|steps| - 1], world, reference, o);
    }
  }

  /** No transaction buys time for one tenant while another tenant's claim of it could be accepted. */
  lemma NeverAnotherTenants(steps: seq<Step>, world: World, reference: Reference, o: VerifierOptions, i: nat,
                            q: ClaimRequest, mined: Option<Mined>, head: nat)
    requires AllTruthful(world, steps) && Injective(reference) && i < |After(steps, world, reference, o).credits|
    requires Truthful(world, SelfClaim(q, mined, head))
    requires TxRef(q.chainId, Lower(q.txHash)) == After(steps, world, reference, o).credits[i].tx
    ensures Claim(After(steps, world, reference, o).billing, q, mined, head, reference(q.tenant), o).1.Err?
    ensures q.tenant != After(steps, world, reference, o).credits[i].tenant ==>
              Verify(q.chainId, mined, head, reference(q.tenant), q.plan, o).Err?
  {
    var s := After(steps, world, reference, o);
    EveryCreditWasEarned(steps, world, reference, o);
    assert Earned(s.credits[i], world, reference, o);
    if Claim(s.billing, q, mined, head, reference(q.tenant), o).1.Ok? {
      ClaimIsNew(s, q, mined, head, reference(q.tenant), o);
    }
  }

  // ---------------------------------------------------------------------------------------------
  // Conservation over all transfers

  ghost function Value(world: World, txs: set<TxRef>): nat
    requires txs <= world.Keys
  {
    if txs == {} then 0
    else
      var tx :| tx in txs;
      world[tx].valueWei + Value(world, txs - {tx})
  }

  lemma {:induction false} ValueSplits(world: World, txs: set<TxRef>, tx: TxRef)
    requires txs <= world.Keys && tx in txs
    ensures Value(world, txs) == world[tx].valueWei + Value(world, txs - {tx})
    decreases txs
  {
    var first :| first in txs && Value(world, txs) == world[first].valueWei + Value(world, txs - {first});
    if first != tx {
      ValueSplits(world, txs - {first}, tx);
      ValueSplits(world, txs - {tx}, first);
      assert txs - {first} - {tx} == txs - {tx} - {first};
    }
  }

  /** The transfers to the treasury that name a tenant. */
  ghost function PaidBy(world: World, tenant: string, reference: Reference, o: VerifierOptions): set<TxRef> {
    set tx | tx in world && Names(world[tx], tenant, reference, o)
  }

  function Spent(credits: seq<Credit>, tenant: string): nat {
    if credits == [] then 0
    else
      var c := credits[|credits| - 1];
      Spent(credits[..|credits| - 1], tenant) + if c.tenant == tenant then c.periods * c.price else 0
  }

  ghost predicate EarnedFrom(credits: seq<Credit>, world: World, tenant: string, txs: set<TxRef>, reference: Reference, o: VerifierOptions) {
    && (forall i | 0 <= i < |credits| :: Earned(credits[i], world, reference, o))
    && (forall i | 0 <= i < |credits| && credits[i].tenant == tenant :: credits[i].tx in txs)
    && (forall i, j | 0 <= i < j < |credits| :: credits[i].tx != credits[j].tx)
  }

  lemma {:induction false} SpentWithinValue(credits: seq<Credit>, world: World, tenant: string, txs: set<TxRef>,
                                            reference: Reference, o: VerifierOptions)
    requires txs <= world.Keys && EarnedFrom(credits, world, tenant, txs, reference, o)
    ensures Spent(credits, tenant) <= Value(world, txs)
    decreases credits
  {
    if credits != [] {
      var front, c := credits[..|credits| - 1], credits[|credits| - 1];
      assert Earned(c, world, reference, o);
      if c.tenant == tenant {
        ValueSplits(world, txs, c.tx);
        SpentWithinValue(front, world, tenant, txs - {c.tx}, reference, o);
      } else {
        SpentWithinValue(front, world, tenant, txs, reference, o);
      }
    }
  }

  /** Conservation: over any run, the price of a tenant's credited periods never exceeds its transfers to the treasury. */
  lemma ClaimsConserve(steps: seq<Step>, world: World, reference: Reference, o: VerifierOptions, tenant: string)
    requires AllTruthful(world, steps)
    ensures Spent(After(steps, world, reference, o).credits, tenant) <= Value(world, PaidBy(world, tenant, reference, o))
  {
    var s := After(steps, world, reference, o);
    EveryCreditWasEarned(steps, world, reference, o);
    forall i | 0 <= i < |s.credits| && s.credits[i].tenant == tenant
      ensures s.credits[i].tx in PaidBy(world, tenant, reference, o)
    {
      assert Earned(s.credits[i], world, reference, o);
    }
    SpentWithinValue(s.credits, world, tenant, PaidBy(world, tenant, reference, o), reference, o);
  }

  /** A verified claim is refused if and only if its lower-cased hash is already recorded. */
  lemma ClaimedTwiceExactly(b: Billing, q: ClaimRequest, mined: Option<Mined>, head: nat, reference: string, o: VerifierOptions)
    requires InSchema(q.plan) && Verify(q.chainId, mined, head, reference, q.plan, o).Ok?
    ensures Claim(b, q, mined, head, reference, o).1.Err? <==> IsRecorded(b.payments, TxRef(q.chainId, Lower(q.txHash)))
  {
    var v := Verify(q.chainId, mined, head, reference, q.plan, o).value;
    assert q.plan.periodSeconds * Credited(v, q.plan) > 0;
  }

  /** An operator's entry is kept as written, so one in upper case does not stop the claim of the same transaction. */
  lemma OperatorEntryKeepsItsCase(q: ClaimRequest, mined: Option<Mined>, head: nat, reference: string, o: VerifierOptions)
    requires InSchema(q.plan) && Verify(q.chainId, mined, head, reference, q.plan, o).Ok?
    requires q.txHash != Lower(q.txHash)
    ensures var entered := Record(Billing([], map[]), PaymentRequest(q.tenant, q.plan.id, q.plan.periodSeconds, None,
                                                                     Some(q.chainId), Some(q.txHash), q.now));
            && entered.1.Ok? && entered.1.value.tx == Some(TxRef(q.chainId, q.txHash))
            && Claim(entered.0, q, mined, head, reference, o).1.Ok?
  {
    var entered := Record(Billing([], map[]), PaymentRequest(q.tenant, q.plan.id, q.plan.periodSeconds, None,
                                                             Some(q.chainId), Some(q.txHash), q.now)).0;
    ClaimedTwiceExactly(entered, q, mined, head, reference, o);
  }
}
