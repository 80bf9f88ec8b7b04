/** The events of a block range as signed movements, in chain order (chainAdapter.ts, getTenantLedgerEvents). */
module ChainEvents {
  import opened Permutations

  datatype Kind = Deposit | Withdrawal | Charge

  datatype Log = TenantDeposited(tenant: string, amount: nat, balance: int, block: nat, index: nat, tx: string)
               | TenantWithdrawn(tenant: string, amount: nat, balance: int, block: nat, index: nat, tx: string)
               | TenantCharged(tenant: string, charged: nat, balance: int, block: nat, index: nat, tx: string)

  /** What the adapter returns for a log: the signed delta and the balance the contract reported. */
  datatype LedgerEvent = LedgerEvent(
    kind: Kind, tenant: string, deltaWei: int, balanceAfterWei: int, blockNumber: nat, logIndex: nat, transactionHash: string)

  function Signed(log: Log): LedgerEvent {
    match log
    case TenantDeposited(tenant, amount, balance, block, index, tx) =>
      LedgerEvent(Deposit, tenant, amount, balance, block, index, tx)
    case TenantWithdrawn(tenant, amount, balance, block, index, tx) =>
      LedgerEvent(Withdrawal, tenant, -(amount as int), balance, block, index, tx)
    case TenantCharged(tenant, charged, balance, block, index, tx) =>
      LedgerEvent(Charge, tenant, -(charged as int), balance, block, index, tx)
  }

  /** The sign of the comparison function: by block, then by log index. */
  function Compare(a: LedgerEvent, b: LedgerEvent): int {
    if a.blockNumber == b.blockNumber then a.logIndex - b.logIndex else if a.blockNumber < b.blockNumber then -1 else 1
  }

  /** Inserts before the first strictly greater entry, so equal entries keep their order: a stable sort. */
  function Insert(sorted: seq<LedgerEvent>, e: LedgerEvent): seq<LedgerEvent> {
    if sorted == [] then [e]
    else if Compare(sorted[|sorted| - 1], e) <= 0 then sorted + [e]
    else Insert(sorted[..|sorted| - 1], e) + [sorted[|sorted| - 1]]
  }

  function Sorted(entries: seq<LedgerEvent>): seq<LedgerEvent> {
    if entries == [] then [] else Insert(Sorted(entries[..|entries| - 1]), entries[|entries| - 1])
  }

  function SignedEach(logs: seq<Log>): seq<LedgerEvent> {
    seq(|logs|, i requires 0 <= i < |logs| => Signed(logs[i]))
  }

  /** What the adapter returns for the logs of a block range, in whatever order the node returns them. */
  function LedgerEvents(logs: seq<Log>): seq<LedgerEvent> {
    Sorted(SignedEach(logs))
  }

  // ---------------------------------------------------------------------------------------------
  // Permutations

  lemma SignedWithout(logs: seq<Log>, k: nat)
    requires k < |logs|
    ensures SignedEach(Without(logs, k)) == Without(SignedEach(logs), k)
  {
  }

  /** The same logs in another order are the same events in another order. */
  lemma {:induction false} SignedEachPermutes(a: seq<Log>, b: seq<Log>)
    requires multiset(a) == multiset(b)
    ensures multiset(SignedEach(a)) == multiset(SignedEach(b))
    decreases |a|
  {
    SameSize(a, b);
    if a == [] {
    } else {
      var l := IndexIn(a, b, 0);
      WithoutBoth(a, b, 0, l);
      SignedEachPermutes(Without(a, 0), Without(b, l));
      SignedWithout(a, 0);
      SignedWithout(b, l);
      WithoutOne(SignedEach(a), 0);
      WithoutOne(SignedEach(b), l);
    }
  }

  // ---------------------------------------------------------------------------------------------
  // One chain order

  function ByPosition(): Relation<LedgerEvent> {
    (a, b) => Compare(a, b) <= 0
  }

  /** The same place on chain. */
  function AtOnePlace(): Relation<LedgerEvent> {
    (a: LedgerEvent, b: LedgerEvent) => a.blockNumber == b.blockNumber && a.logIndex == b.logIndex
  }

  ghost predicate Ordered(s: seq<LedgerEvent>) {
    forall i, j | 0 <= i < j < |s| :: Compare(s[i], s[j]) <= 0
  }

  ghost predicate Distinct(s: seq<LedgerEvent>) {
    forall i, j | 0 <= i < j < |s| :: s[i].blockNumber != s[j].blockNumber || s[i].logIndex != s[j].logIndex
  }

  lemma {:induction false} InsertPermutes(s: seq<LedgerEvent>, e: LedgerEvent)
    ensures multiset(Insert(s, e)) == multiset(s) + multiset{e}
  {
    if s != [] && Compare(s[|s| - 1], e) > 0 {
      InsertPermutes(s[..|s| - 1], e);
      assert s == s[..|s| - 1] + [s[|s| - 1]];
    }
  }

  lemma MembersAgree(a: seq<LedgerEvent>, b: seq<LedgerEvent>, e: LedgerEvent, x: LedgerEvent)
    requires multiset(a) == multiset(b) + multiset{e} && x in a
    ensures x in b || x == e
  {
    assert x in multiset(a);
  }

  lemma {:induction false} InsertOrdered(s: seq<LedgerEvent>, e: LedgerEvent)
    requires Ordered(s)
    ensures Ordered(Insert(s, e))
  {
    if s != [] {
      var front, last := s[..|s| - 1], s[|s| - 1];
      if Compare(last, e) > 0 {
        var r := Insert(front, e);
        InsertOrdered(front, e);
        InsertPermutes(front, e);
        forall i | 0 <= i < |r| ensures Compare(r[i], last) <= 0 {
          MembersAgree(r, front, e, r[i]);
        }
      }
    }
  }

  /** The events come out in chain order, none lost and none added. */
  lemma {:induction false} SortedIsChainOrder(entries: seq<LedgerEvent>)
    ensures Ordered(Sorted(entries)) && multiset(Sorted(entries)) == multiset(entries)
  {
    if entries != [] {
      var front := entries[..|entries| - 1];
      SortedIsChainOrder(front);
      assert entries == front + [entries[|entries| - 1]];
      InsertOrdered(Sorted(front), entries[|entries| - 1]);
      InsertPermutes(Sorted(front), entries[|entries| - 1]);
    }
  }

  lemma PlacesAreApart(s: seq<LedgerEvent>)
    ensures Distinct(s) <==> Apart(s, AtOnePlace())
    ensures Symmetric(AtOnePlace())
  {
    var alike := AtOnePlace();
    assert forall i, j | 0 <= i < j < |s| :: alike(s[i], s[j]) <==> s[i].blockNumber == s[j].blockNumber && s[i].logIndex == s[j].logIndex;
  }

  lemma DistinctTransfers(a: seq<LedgerEvent>, b: seq<LedgerEvent>)
    requires multiset(a) == multiset(b) && Distinct(a)
    ensures Distinct(b)
  {
    PlacesAreApart(a);
    PlacesAreApart(b);
    ApartTransfers(a, b, AtOnePlace());
  }

  lemma OneChainOrder(a: seq<LedgerEvent>, b: seq<LedgerEvent>)
    requires Ordered(a) && Ordered(b) && Distinct(a) && multiset(a) == multiset(b)
    ensures a == b
  {
    PlacesAreApart(a);
    OneOrder(a, b, ByPosition(), AtOnePlace());
  }

  /** The ledger the adapter reads does not depend on the order in which the node returns its logs. */
  lemma LogOrderIsIrrelevant(a: seq<LedgerEvent>, b: seq<LedgerEvent>)
    requires Distinct(a) && multiset(a) == multiset(b)
    ensures Sorted(a) == Sorted(b)
  {
    SortedIsChainOrder(a);
    SortedIsChainOrder(b);
    DistinctTransfers(a, Sorted(a));
    OneChainOrder(Sorted(a), Sorted(b));
  }
}
