/**
 * What the adapter reads of a block range is what happened there: for the logs of the range in any order, its
 * events are those of the range's movements in chain order (chainAdapter.ts, getTenantLedgerEvents).
 */
module LedgerReads {
  import opened Text
  import opened ChainEvents
  import opened LedgerHistory

  /** The logs that the first `n` movements leave in the blocks `from..to`. */
  function LogsIn(h: History, n: nat, from: nat, to: nat): seq<Log>
    requires n <= |h|
  {
    if n == 0 then [] else LogsIn(h, n - 1, from, to) + LogAt(h, n - 1, from, to)
  }

  function LogAt(h: History, i: nat, from: nat, to: nat): seq<Log>
    requires i < |h|
  {
    if Announces(h, i) && from <= h[i].block <= to then [LogOf(h, i)] else []
  }

  /** A node that answers a block range with exactly its logs, in an order of its own. */
  ghost predicate Serves(node: (nat, nat) -> seq<Log>, h: History) {
    forall from: nat, to: nat :: multiset(node(from, to)) == multiset(LogsIn(h, |h|, from, to))
  }

  lemma SignedAppends(logs: seq<Log>, log: Log)
    ensures SignedEach(logs + [log]) == SignedEach(logs) + [Signed(log)]
  {
  }

  /** Movements before `a` and from `b` on lie outside the blocks, those between inside. */
  ghost predicate Holds(h: History, a: nat, b: nat, from: nat, to: nat) {
    && a <= b <= |h|
    && (forall i | 0 <= i < a :: h[i].block < from)
    && (forall i | a <= i < b :: from <= h[i].block <= to)
    && (forall i | b <= i < |h| :: to < h[i].block)
  }

  function Clamp(n: nat, a: nat, b: nat): (k: nat)
    requires a <= b
    ensures a <= k <= b
  {
    if n <= a then a else if b <= n then b else n
  }

  /** The event of one movement, if it is announced and lies in `a..b`. */
  function EventWithin(h: History, i: nat, a: nat, b: nat): seq<LedgerEvent> {
    if a <= i < b && Announces(h, i) then [EventOf(h, i)] else []
  }

  lemma LogsStep(h: History, n: nat, a: nat, b: nat, from: nat, to: nat)
    requires 0 < n <= |h| && Holds(h, a, b, from, to)
    ensures SignedEach(LogsIn(h, n, from, to)) == SignedEach(LogsIn(h, n - 1, from, to)) + EventWithin(h, n - 1, a, b)
  {
    var before := LogsIn(h, n - 1, from, to);
    if a < n <= b && Announces(h, n - 1) {
      SignedAppends(before, LogOf(h, n - 1));
      assert LogsIn(h, n, from, to) == before + [LogOf(h, n - 1)];
    } else {
      assert LogsIn(h, n, from, to) == before;
    }
  }

  lemma EventsStep(h: History, n: nat, a: nat, b: nat)
    requires 0 < n <= |h| && a <= b <= |h|
    ensures EventsBetween(h, a, Clamp(n, a, b)) == EventsBetween(h, a, Clamp(n - 1, a, b)) + EventWithin(h, n - 1, a, b)
  {
    if a < n <= b {
      assert Clamp(n, a, b) == n && Clamp(n - 1, a, b) == n - 1;
    } else {
      assert Clamp(n, a, b) == Clamp(n - 1, a, b);
    }
  }

  lemma {:induction false} LogsAreEvents(h: History, n: nat, a: nat, b: nat, from: nat, to: nat)
    requires n <= |h| && Holds(h, a, b, from, to)
    ensures SignedEach(LogsIn(h, n, from, to)) == EventsBetween(h, a, Clamp(n, a, b))
  {
    if n == 0 {
      assert SignedEach([]) == [];
    } else {
      LogsAreEvents(h, n - 1, a, b, from, to);
      LogsStep(h, n, a, b, from, to);
      EventsStep(h, n, a, b);
    }
  }

  lemma BlocksHold(h: History, from: nat, to: nat)
    requires InBlockOrder(h) && from <= to
    ensures Holds(h, End(h, from as int - 1), End(h, to), from, to)
  {
    EndSeparates(h, from as int - 1);
    EndSeparates(h, to);
    EndMonotone(h, from as int - 1, to);
  }

  /** Every event of `a..b` is that of one of its movements. */
  lemma {:induction false} EventFrom(h: History, a: nat, b: nat, k: nat) returns (i: nat)
    requires a <= b <= |h| && k < |EventsBetween(h, a, b)|
    ensures a <= i < b && Announces(h, i) && EventsBetween(h, a, b)[k] == EventOf(h, i)
    decreases b
  {
    if k < |EventsBetween(h, a, b - 1)| {
      i := EventFrom(h, a, b - 1, k);
    } else {
      i := b - 1;
    }
  }

  lemma LaterEvent(h: History, i: nat, j: nat)
    requires InChainOrder(h) && i < j && Announces(h, i) && Announces(h, j)
    ensures Compare(EventOf(h, i), EventOf(h, j)) < 0
  {
    assert h[i].block <= h[j].block;
  }

  lemma AppendOrdered(s: seq<LedgerEvent>, e: LedgerEvent)
    requires Ordered(s) && Distinct(s) && forall k | 0 <= k < |s| :: Compare(s[k], e) < 0
    ensures Ordered(s + [e]) && Distinct(s + [e])
  {
  }

  lemma {:induction false} EventsAreOrdered(h: History, a: nat, b: nat)
    requires a <= b <= |h| && InChainOrder(h)
    ensures Ordered(EventsBetween(h, a, b)) && Distinct(EventsBetween(h, a, b))
    decreases b
  {
    if a == b {
    } else {
      var before := EventsBetween(h, a, b - 1);
      EventsAreOrdered(h, a, b - 1);
      if Announces(h, b - 1) {
        forall k | 0 <= k < |before| ensures Compare(before[k], EventOf(h, b - 1)) < 0 {
          var i := EventFrom(h, a, b - 1, k);
          LaterEvent(h, i, b - 1);
        }
        AppendOrdered(before, EventOf(h, b - 1));
      }
    }
  }

  lemma SortedStays(s: seq<LedgerEvent>)
    requires Ordered(s) && Distinct(s)
    ensures Sorted(s) == s
  {
    SortedIsChainOrder(s);
    DistinctTransfers(s, Sorted(s));
    OneChainOrder(s, Sorted(s));
  }

  /** The events the adapter returns are those of the range's movements, whatever order the node returns the logs in. */
  lemma EventsAreHistory(h: History, logs: seq<Log>, from: nat, to: nat)
    requires InChainOrder(h) && from <= to && multiset(logs) == multiset(LogsIn(h, |h|, from, to))
    ensures End(h, from as int - 1) <= End(h, to)
    ensures LedgerEvents(logs) == EventsBetween(h, End(h, from as int - 1), End(h, to))
  {
    var a, b := End(h, from as int - 1), End(h, to);
    BlocksHold(h, from, to);
    var events := EventsBetween(h, a, b);
    LogsAreEvents(h, |h|, a, b, from, to);
    SignedEachPermutes(logs, LogsIn(h, |h|, from, to));
    EventsAreOrdered(h, a, b);
    LogOrderIsIrrelevant(events, SignedEach(logs));
    SortedStays(events);
  }
}
