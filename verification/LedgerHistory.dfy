/** Tenant balances on chain: every movement in order, those announced by an event and those that are not. */
module LedgerHistory {
  import opened Text
  import opened ChainEvents

  /** What an event says happened to the tenant's balance. */
  datatype Announcement = Deposited(amount: nat) | Withdrawn(amount: nat) | Charged(charged: nat)

  /**
   * One change of a tenant's stored balance, and the event that announces it, if any. The announced delta
   * need not be this movement (a charge announces its net, after the reservation left the balance earlier).
   */
  datatype Move = Move(block: nat, index: nat, tx: string, tenant: string, amount: int, announced: Option<Announcement>)

  type History = seq<Move>

  function Delta(m: Move): int {
    match m.announced
    case None => 0
    case Some(Deposited(amount)) => amount
    case Some(Withdrawn(amount)) => -(amount as int)
    case Some(Charged(charged)) => -(charged as int)
  }

  ghost predicate InBlockOrder(h: History) {
    forall i, j | 0 <= i < j < |h| :: h[i].block <= h[j].block
  }

  predicate Announces(h: History, i: nat) {
    i < |h| && h[i].announced.Some?
  }

  /** Blocks in order, the events of a block in log order, and every transaction in one block. */
  ghost predicate InChainOrder(h: History) {
    && InBlockOrder(h)
    && (forall i: nat, j: nat | i < j && Announces(h, i) && Announces(h, j) :: h[i].block < h[j].block || h[i].index < h[j].index)
    && (forall i: nat, j: nat | Announces(h, i) && Announces(h, j) && Lower(h[i].tx) == Lower(h[j].tx) :: h[i].block == h[j].block)
  }

  predicate Touches(m: Move, key: string) {
    Lower(m.tenant) == key
  }

  /** The stored balance of `key` after the first `n` movements. */
  function Balance(h: History, key: string, n: nat): int
    requires n <= |h|
  {
    if n == 0 then 0 else Balance(h, key, n - 1) + if Touches(h[n - 1], key) then h[n - 1].amount else 0
  }

  /** What the events of `key` between two points announce. */
  function Announced(h: History, key: string, a: nat, b: nat): int
    requires a <= b <= |h|
    decreases b
  {
    if a == b then 0
    else Announced(h, key, a, b - 1)
         + if Touches(h[b - 1], key) then Delta(h[b - 1]) else 0
  }

  /** Movement of `key` between two points that no event announces. */
  function Silent(h: History, key: string, a: nat, b: nat): int
    requires a <= b <= |h|
    decreases b
  {
    if a == b then 0
    else
      Silent(h, key, a, b - 1)
      + if Touches(h[b - 1], key) then h[b - 1].amount - Delta(h[b - 1]) else 0
  }

  predicate EventAt(h: History, key: string, i: nat) {
    i < |h| && Touches(h[i], key) && h[i].announced.Some?
  }

  ghost predicate NoEvents(h: History, key: string, a: nat, b: nat) {
    forall i | a <= i < b :: !EventAt(h, key, i)
  }

  /** Conservation: a balance moves by what was announced and what was not. */
  lemma {:induction false} BalanceSplits(h: History, key: string, a: nat, b: nat)
    requires a <= b <= |h|
    ensures Balance(h, key, b) == Balance(h, key, a) + Announced(h, key, a, b) + Silent(h, key, a, b)
    decreases b
  {
    if a < b {
      BalanceSplits(h, key, a, b - 1);
    }
  }

  lemma {:induction false} AnnouncedSplits(h: History, key: string, a: nat, b: nat, c: nat)
    requires a <= b <= c <= |h|
    ensures Announced(h, key, a, c) == Announced(h, key, a, b) + Announced(h, key, b, c)
    decreases c
  {
    if b < c {
      AnnouncedSplits(h, key, a, b, c - 1);
    }
  }

  lemma {:induction false} NothingAnnounced(h: History, key: string, a: nat, b: nat)
    requires a <= b <= |h| && NoEvents(h, key, a, b)
    ensures Announced(h, key, a, b) == 0
    decreases b
  {
    if a < b {
      NothingAnnounced(h, key, a, b - 1);
      assert !EventAt(h, key, b - 1);
    }
  }

  // ---------------------------------------------------------------------------------------------
  // Blocks and windows

  function LastUpTo(h: History, n: nat, block: int): (k: nat)
    requires n <= |h|
    ensures k <= n
  {
    if n == 0 || h[n - 1].block <= block then n else LastUpTo(h, n - 1, block)
  }

  /** How many movements lie in blocks up to `block`. */
  function End(h: History, block: int): (n: nat)
    ensures n <= |h|
  {
    LastUpTo(h, |h|, block)
  }

  lemma {:induction false} LastUpToSeparates(h: History, n: nat, block: int)
    requires n <= |h|
    ensures var k := LastUpTo(h, n, block);
            (k > 0 ==> h[k - 1].block <= block) && forall i | k <= i < n :: block < h[i].block
  {
    if n > 0 && block < h[n - 1].block {
      LastUpToSeparates(h, n - 1, block);
    }
  }

  /** Blocks up to `block` hold exactly the first `End` movements. */
  lemma EndSeparates(h: History, block: int)
    requires InBlockOrder(h)
    ensures forall i | 0 <= i < End(h, block) :: h[i].block <= block
    ensures forall i | End(h, block) <= i < |h| :: block < h[i].block
  {
    LastUpToSeparates(h, |h|, block);
  }

  lemma EndMonotone(h: History, a: int, b: int)
    requires InBlockOrder(h) && a <= b
    ensures End(h, a) <= End(h, b)
  {
    EndSeparates(h, a);
    EndSeparates(h, b);
    if End(h, a) > 0 {
      assert h[End(h, a) - 1].block <= a;
    }
  }

  /** The log of a movement that is announced: it reports the balance the movement leaves. */
  function LogOf(h: History, i: nat): Log
    requires Announces(h, i)
  {
    var m, balance := h[i], Balance(h, Lower(h[i].tenant), i + 1);
    match m.announced.value
    case Deposited(amount) => TenantDeposited(m.tenant, amount, balance, m.block, m.index, m.tx)
    case Withdrawn(amount) => TenantWithdrawn(m.tenant, amount, balance, m.block, m.index, m.tx)
    case Charged(charged) => TenantCharged(m.tenant, charged, balance, m.block, m.index, m.tx)
  }

  function EventOf(h: History, i: nat): (e: LedgerEvent)
    requires Announces(h, i)
    ensures e.tenant == h[i].tenant && e.deltaWei == Delta(h[i]) && e.balanceAfterWei == Balance(h, Lower(h[i].tenant), i + 1)
    ensures e.blockNumber == h[i].block && e.logIndex == h[i].index && e.transactionHash == h[i].tx
  {
    Signed(LogOf(h, i))
  }

  /** The events of the movements `a..b`, in chain order. */
  function EventsBetween(h: History, a: nat, b: nat): seq<LedgerEvent>
    requires a <= b <= |h|
    decreases b
  {
    if a == b then [] else EventsBetween(h, a, b - 1) + if Announces(h, b - 1) then [EventOf(h, b - 1)] else []
  }

  /** The point just after the last event of `key` in `a..b`, if it has one. */
  function LastEvent(h: History, key: string, a: nat, b: nat): (p: Option<nat>)
    requires a <= b <= |h|
    ensures p.Some? ==> a < p.value <= b && EventAt(h, key, p.value - 1) && NoEvents(h, key, p.value, b)
    ensures p.None? ==> NoEvents(h, key, a, b)
    decreases b
  {
    if a == b then None
    else if EventAt(h, key, b - 1) then Some(b)
    else LastEvent(h, key, a, b - 1)
  }
}
