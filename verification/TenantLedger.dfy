/** Replays the tenant ledger window by window and reports what moved without an event (tenantLedgerReconciler.ts). */
module TenantLedger {
  import opened Text
  import opened ScanWindow
  import opened ChainEvents
  import opened LedgerHistory
  import opened LedgerReads

  datatype Movement = Movement(delta: int, lastReported: int)

  datatype Drift = Drift(expectedWei: int, actualWei: int)

  datatype LedgerStats = LedgerStats(
    fromBlock: nat, toBlock: nat, events: nat, tenantsChecked: nat, drifted: map<string, Drift>, seeded: nat)

  datatype Findings = Findings(reconciled: map<string, int>, drifted: map<string, Drift>, seeded: nat)

  /** A stored balance and the block it is correct at. */
  datatype Stored = Stored(balance: int, asOf: nat)

  /** What makes an entry unique: its transaction, in lower case, and its log index. */
  type EntryId = (string, nat)

  function Id(e: LedgerEvent): EntryId {
    (Lower(e.transactionHash), e.logIndex)
  }

  function Entered(e: LedgerEvent): LedgerEvent {
    e.(tenant := Lower(e.tenant), transactionHash := Lower(e.transactionHash))
  }

  /** ON CONFLICT DO NOTHING. */
  function WithEntry(entries: map<EntryId, LedgerEvent>, e: LedgerEvent): map<EntryId, LedgerEvent> {
    if Id(e) in entries then entries else entries[Id(e) := Entered(e)]
  }

  function WithEntries(entries: map<EntryId, LedgerEvent>, events: seq<LedgerEvent>): map<EntryId, LedgerEvent> {
    if events == [] then entries else WithEntry(WithEntries(entries, events[..|events| - 1]), events[|events| - 1])
  }

  lemma {:induction false} NotInserted(entries: map<EntryId, LedgerEvent>, events: seq<LedgerEvent>, id: EntryId)
    requires id !in entries && forall k | 0 <= k < |events| :: Id(events[k]) != id
    ensures id !in WithEntries(entries, events)
  {
    if events == [] {
    } else {
      NotInserted(entries, events[..|events| - 1], id);
    }
  }

  /** The first event of a new transaction and log index is stored as it came, its tenant and transaction in lower case. */
  lemma {:induction false} InsertedExactly(entries: map<EntryId, LedgerEvent>, events: seq<LedgerEvent>, i: nat)
    requires i < |events| && Id(events[i]) !in entries && forall k | 0 <= k < i :: Id(events[k]) != Id(events[i])
    ensures var id, after := (Lower(events[i].transactionHash), events[i].logIndex), WithEntries(entries, events);
            id in after && after[id] == LedgerEvent(events[i].kind, Lower(events[i].tenant), events[i].deltaWei, events[i].balanceAfterWei,
                                                    events[i].blockNumber, events[i].logIndex, Lower(events[i].transactionHash))
  {
    var front := events[..|events| - 1];
    if i < |front| {
      InsertedExactly(entries, front, i);
    } else {
      NotInserted(entries, front, Id(events[i]));
    }
  }

  /** What is stored already stays as it is. */
  lemma {:induction false} StoredStays(entries: map<EntryId, LedgerEvent>, events: seq<LedgerEvent>, id: EntryId)
    requires id in entries
    ensures id in WithEntries(entries, events) && WithEntries(entries, events)[id] == entries[id]
  {
    if events == [] {
    } else {
      StoredStays(entries, events[..|events| - 1], id);
    }
  }

  /** A stored balance is only replaced by one that is not older. */
  function Upsert(rows: map<string, Stored>, key: string, balance: int, block: nat): map<string, Stored> {
    if key in rows && rows[key].asOf > block then rows else rows[key := Stored(balance, block)]
  }

  function Upserted(rows: map<string, Stored>, reconciled: map<string, int>, block: nat): map<string, Stored> {
    rows + map key | key in reconciled && !(key in rows && rows[key].asOf > block) :: Stored(reconciled[key], block)
  }

  lemma UpsertedOne(rows: map<string, Stored>, done: map<string, int>, key: string, balance: int, block: nat)
    requires key !in done
    ensures Upserted(rows, done[key := balance], block) == Upsert(Upserted(rows, done, block), key, balance, block)
  {
  }

  function Greatest(checkpoint: Option<nat>, block: nat): nat {
    if checkpoint.Some? && checkpoint.value > block then checkpoint.value else block
  }

  /** The stored ledger: entries once each, a balance and its block per tenant, and the checkpoint. */
  class LedgerStore {
    var checkpoint: Option<nat>
    var rows: map<string, Stored>
    var entries: map<EntryId, LedgerEvent>

    constructor ()
      ensures checkpoint == None && rows == map[] && entries == map[]
    {
      checkpoint, rows, entries := None, map[], map[];
    }

    function Contents(): Book
      reads this
    {
      Book(checkpoint, rows, entries)
    }

    method InsertEntries(events: seq<LedgerEvent>)
      modifies `entries
      ensures entries == WithEntries(old(entries), events)
    {
      for i := 0 to |events|
        invariant entries == WithEntries(old(entries), events[..i])
      {
        if Id(events[i]) !in entries {
          entries := entries[Id(events[i]) := Entered(events[i])];
        }
        assert events[..i + 1][..i] == events[..i];
      }
      assert events[..|events|] == events;
    }

    method UpsertBalances(reconciled: map<string, int>, block: nat)
      modifies `rows
      ensures rows == Upserted(old(rows), reconciled, block)
    {
      var todo := reconciled.Keys;
      ghost var done: map<string, int> := map[];
      assert rows == Upserted(rows, done, block);
      while todo != {}
        invariant todo <= reconciled.Keys && done.Keys == reconciled.Keys - todo
        invariant forall key <- done :: done[key] == reconciled[key]
        invariant rows == Upserted(old(rows), done, block)
        decreases todo
      {
        var key :| key in todo;
        UpsertedOne(old(rows), done, key, reconciled[key], block);
        todo := todo - {key};
        rows := Upsert(rows, key, reconciled[key], block);
        done := done[key := reconciled[key]];
      }
      assert done == reconciled;
    }

    /** One transaction: entries (idempotently), balances, and the checkpoint, never rewound. */
    method CommitWindow(block: nat, events: seq<LedgerEvent>, reconciled: map<string, int>)
      modifies this
      ensures checkpoint == Some(Greatest(old(checkpoint), block))
      ensures rows == Upserted(old(rows), reconciled, block)
      ensures entries == WithEntries(old(entries), events)
    {
      InsertEntries(events);
      UpsertBalances(reconciled, block);
      checkpoint := Some(Greatest(checkpoint, block));
    }
  }

  function Balances(rows: map<string, Stored>): map<string, int> {
    map key | key in rows :: rows[key].balance
  }

  // ---------------------------------------------------------------------------------------------
  // What one window should find

  /** The tenants with an event in `a..b`. */
  function EventKeys(h: History, a: nat, b: nat): set<string>
    requires a <= b <= |h|
    decreases b
  {
    if a == b then {} else EventKeys(h, a, b - 1) + if Announces(h, b - 1) then {Lower(h[b - 1].tenant)} else {}
  }

  lemma {:induction false} EventKeysHaveLast(h: History, a: nat, b: nat, key: string)
    requires a <= b <= |h|
    ensures key in EventKeys(h, a, b) <==> LastEvent(h, key, a, b).Some?
    decreases b
  {
    if a < b {
      EventKeysHaveLast(h, a, b - 1, key);
    }
  }

  /** Up to where `key` can be reconciled: the window's end, or its last event when the balance is unreadable. */
  function PointOf(h: History, key: string, a: nat, b: nat, readable: set<string>): Option<nat>
    requires a <= b <= |h|
  {
    if key in readable then Some(b) else LastEvent(h, key, a, b)
  }

  /** The tenants a window looks at: those with events, and once caught up every known one. */
  function Checked(h: History, a: nat, b: nat, known: set<string>, caughtUp: bool): set<string>
    requires a <= b <= |h|
  {
    EventKeys(h, a, b) + if caughtUp then known else {}
  }

  /** The balances a window establishes. */
  function Established(h: History, a: nat, b: nat, keys: set<string>, readable: set<string>): map<string, int>
    requires a <= b <= |h|
  {
    map key | key in keys && PointOf(h, key, a, b, readable).Some? :: Balance(h, key, PointOf(h, key, a, b, readable).value)
  }

  /** What the stored balances and the window's events lead to expect. */
  function Expected(h: History, a: nat, b: nat, known: map<string, int>): map<string, int>
    requires a <= b <= |h|
  {
    map key | key in known :: known[key] + Announced(h, key, a, b)
  }

  /** The tenants of `actual` whose expected balance is another. */
  function Drifts(actual: map<string, int>, expected: map<string, int>): map<string, Drift> {
    map key | key in actual && key in expected && expected[key] != actual[key] :: Drift(expected[key], actual[key])
  }

  function Compared(reconciled: map<string, int>, expected: map<string, int>): Findings {
    Findings(reconciled, Drifts(reconciled, expected), |reconciled.Keys - expected.Keys|)
  }

  /** What a window finds for one tenant. */
  function Finding(h: History, key: string, a: nat, b: nat, known: map<string, int>, readable: set<string>)
    : (Option<int>, Option<Drift>)
    requires a <= b <= |h|
  {
    match PointOf(h, key, a, b, readable)
    case None => (None, None)
    case Some(p) =>
      var actual := Balance(h, key, p);
      (Some(actual),
       if key in known && known[key] + Announced(h, key, a, b) != actual
       then Some(Drift(known[key] + Announced(h, key, a, b), actual)) else None)
  }

  /** What a window finds for the tenants `keys`: their balances, the drifts, and how many are new. */
  function Found(h: History, a: nat, b: nat, keys: set<string>, known: map<string, int>, readable: set<string>): Findings
    requires a <= b <= |h|
  {
    Compared(Established(h, a, b, keys, readable), Expected(h, a, b, known))
  }

  function With(f: Findings, key: string, known: set<string>, finding: (Option<int>, Option<Drift>)): Findings {
    var (actual, drift) := finding;
    Findings(if actual.Some? then f.reconciled[key := actual.value] else f.reconciled,
             if drift.Some? then f.drifted[key := drift.value] else f.drifted,
             f.seeded + if actual.Some? && key !in known then 1 else 0)
  }

  datatype Book = Book(checkpoint: Option<nat>, rows: map<string, Stored>, entries: map<EntryId, LedgerEvent>)

  /** A window of blocks `from..to`, holding the movements `a..b`. */
  datatype Window = Window(from: nat, to: nat, a: nat, b: nat, caughtUp: bool)

  predicate WindowOf(h: History, w: Window) {
    w.a <= w.b <= |h|
  }

  /** The window's movements are those of its blocks. */
  predicate Spans(h: History, w: Window) {
    w.from <= w.to && w.a == End(h, w.from as int - 1) && w.b == End(h, w.to)
  }

  function Upcoming(latest: nat, checkpoint: Option<nat>, h: History, o: ScanOptions): (window: Option<Window>)
    requires o.maxBlockRange >= 1 && InBlockOrder(h)
    ensures window.Some? ==> WindowOf(h, window.value) && Spans(h, window.value)
  {
    match NextWindow(latest, checkpoint, o)
    case None => None
    case Some((from, to)) =>
      WindowsAreContiguous(latest, checkpoint, o);
      var before := from as int - 1;
      EndMonotone(h, before, to);
      Some(Window(from, to, End(h, before), End(h, to), to == latest - o.confirmations))
  }

  /** What reconciling a window leaves and reports. */
  function Settled(book: Book, h: History, w: Window, readable: set<string>): (Book, LedgerStats)
    requires WindowOf(h, w)
  {
    var keys := Checked(h, w.a, w.b, book.rows.Keys, w.caughtUp);
    var found := Found(h, w.a, w.b, keys, Balances(book.rows), readable);
    (Book(Some(Greatest(book.checkpoint, w.to)), Upserted(book.rows, found.reconciled, w.to),
          WithEntries(book.entries, EventsBetween(h, w.a, w.b))),
     LedgerStats(w.from, w.to, |EventsBetween(h, w.a, w.b)|, |keys|, found.drifted, found.seeded))
  }

  /** One successful tick over the stored ledger. */
  function Tick(book: Book, latest: nat, h: History, readable: set<string>, o: ScanOptions): (Book, Option<LedgerStats>)
    requires o.maxBlockRange >= 1 && InBlockOrder(h)
  {
    match Upcoming(latest, book.checkpoint, h, o)
    case None => (book, None)
    case Some(window) =>
      var settled := Settled(book, h, window, readable);
      (settled.0, Some(settled.1))
  }

  /** What the events of a window come to for one tenant: net delta, and the balance reported last. */
  ghost predicate FoldedFor(h: History, key: string, a: nat, b: nat, movement: map<string, Movement>)
    requires a <= b <= |h|
  {
    var last := LastEvent(h, key, a, b);
    && (key in movement <==> last.Some?)
    && (last.Some? ==> movement[key] == Movement(Announced(h, key, a, b), Balance(h, key, last.value)))
  }

  ghost predicate Folded(h: History, a: nat, b: nat, movement: map<string, Movement>)
    requires a <= b <= |h|
  {
    forall key: string :: FoldedFor(h, key, a, b, movement)
  }

  function Fold(movement: map<string, Movement>, event: LedgerEvent): map<string, Movement> {
    var key := Lower(event.tenant);
    var delta := if key in movement then movement[key].delta else 0;
    movement[key := Movement(delta + event.deltaWei, event.balanceAfterWei)]
  }

  function FoldAll(events: seq<LedgerEvent>): map<string, Movement> {
    if events == [] then map[] else Fold(FoldAll(events[..|events| - 1]), events[|events| - 1])
  }

  lemma LastEventGrows(h: History, key: string, a: nat, b: nat)
    requires a < b <= |h|
    ensures LastEvent(h, key, a, b) == if EventAt(h, key, b - 1) then Some(b) else LastEvent(h, key, a, b - 1)
    ensures Announced(h, key, a, b) == Announced(h, key, a, b - 1) + if EventAt(h, key, b - 1) then Delta(h[b - 1]) else 0
  {
  }

  lemma FoldOther(h: History, key: string, a: nat, b: nat, movement: map<string, Movement>, e: LedgerEvent)
    requires a < b <= |h| && !EventAt(h, key, b - 1) && FoldedFor(h, key, a, b - 1, movement)
    requires Lower(e.tenant) != key
    ensures FoldedFor(h, key, a, b, movement) && FoldedFor(h, key, a, b, Fold(movement, e))
  {
    LastEventGrows(h, key, a, b);
  }

  lemma FoldOwn(h: History, key: string, a: nat, b: nat, movement: map<string, Movement>)
    requires a < b <= |h| && EventAt(h, key, b - 1) && FoldedFor(h, key, a, b - 1, movement)
    ensures FoldedFor(h, key, a, b, Fold(movement, EventOf(h, b - 1)))
  {
    LastEventGrows(h, key, a, b);
    if key !in movement {
      NothingAnnounced(h, key, a, b - 1);
    }
  }

  lemma FoldStep(h: History, a: nat, b: nat, movement: map<string, Movement>)
    requires a < b <= |h| && Announces(h, b - 1) && Folded(h, a, b - 1, movement)
    ensures Folded(h, a, b, Fold(movement, EventOf(h, b - 1)))
  {
    var after := Fold(movement, EventOf(h, b - 1));
    forall key: string ensures FoldedFor(h, key, a, b, after) {
      assert FoldedFor(h, key, a, b - 1, movement);
      if EventAt(h, key, b - 1) {
        FoldOwn(h, key, a, b, movement);
      } else {
        FoldOther(h, key, a, b, movement, EventOf(h, b - 1));
      }
    }
  }

  lemma NoFold(h: History, a: nat, b: nat, movement: map<string, Movement>)
    requires a < b <= |h| && !Announces(h, b - 1) && Folded(h, a, b - 1, movement)
    ensures Folded(h, a, b, movement)
  {
    forall key: string ensures FoldedFor(h, key, a, b, movement) {
      assert FoldedFor(h, key, a, b - 1, movement);
      LastEventGrows(h, key, a, b);
    }
  }

  lemma FoldAllLast(events: seq<LedgerEvent>, e: LedgerEvent)
    ensures FoldAll(events + [e]) == Fold(FoldAll(events), e)
  {
    assert (events + [e])[..|events|] == events;
  }

  lemma {:induction false} FoldIsExact(h: History, a: nat, b: nat)
    requires a <= b <= |h|
    ensures Folded(h, a, b, FoldAll(EventsBetween(h, a, b)))
    decreases b
  {
    if a == b {
      forall key: string ensures FoldedFor(h, key, a, b, map[]) {
      }
    } else {
      var before := EventsBetween(h, a, b - 1);
      FoldIsExact(h, a, b - 1);
      if Announces(h, b - 1) {
        FoldStep(h, a, b, FoldAll(before));
        FoldAllLast(before, EventOf(h, b - 1));
      } else {
        NoFold(h, a, b, FoldAll(before));
        assert EventsBetween(h, a, b) == before;
      }
    }
  }

  class TenantLedgerReconciler {
    const store: LedgerStore
    const options: ScanOptions

    constructor (store: LedgerStore, options: ScanOptions)
      ensures this.store == store && this.options == options
    {
      this.store, this.options := store, options;
    }

    /** Per tenant: the net movement in the window, and the balance the contract last reported. */
    method FoldEvents(events: seq<LedgerEvent>) returns (movement: map<string, Movement>)
      ensures movement == FoldAll(events)
    {
      movement := map[];
      for i := 0 to |events|
        invariant movement == FoldAll(events[..i])
      {
        movement := Fold(movement, events[i]);
        assert events[..i + 1][..i] == events[..i];
      }
      assert events[..|events|] == events;
    }

    /** The balance at the window's end, or the last one the contract reported, or nothing. */
    method ActualBalance(h: History, key: string, a: nat, b: nat, readable: set<string>, movement: map<string, Movement>)
      returns (actual: Option<int>)
      requires a <= b <= |h| && movement == FoldAll(EventsBetween(h, a, b))
      ensures var p := PointOf(h, key, a, b, readable);
              actual == if p.Some? then Some(Balance(h, key, p.value)) else None
    {
      FoldIsExact(h, a, b);
      assert FoldedFor(h, key, a, b, movement);
      if key in readable {
        return Some(Balance(h, key, b));
      }
      actual := if key in movement then Some(movement[key].lastReported) else None;
    }

    /** One tenant of a window: its actual balance, and the drift from what was expected, if any. */
    method CheckTenant(h: History, key: string, a: nat, b: nat, known: map<string, int>, readable: set<string>,
                       movement: map<string, Movement>)
      returns (finding: (Option<int>, Option<Drift>))
      requires a <= b <= |h| && movement == FoldAll(EventsBetween(h, a, b))
      ensures finding == Finding(h, key, a, b, known, readable)
    {
      var actual := ActualBalance(h, key, a, b, readable, movement);
      var drift := None;
      if actual.Some? && key in known {
        ExpectedDelta(h, a, b, movement, key);
        var expected := known[key] + if key in movement then movement[key].delta else 0;
        if expected != actual.value {
          drift := Some(Drift(expected, actual.value));
        }
      }
      return (actual, drift);
    }

    /** The tenants of a window, in whatever order the set gives them. */
    method CheckTenants(h: History, keys: set<string>, a: nat, b: nat, known: map<string, int>, readable: set<string>,
                        movement: map<string, Movement>)
      returns (found: Findings)
      requires a <= b <= |h| && movement == FoldAll(EventsBetween(h, a, b))
      ensures found == Found(h, a, b, keys, known, readable)
    {
      found := Findings(map[], map[], 0);
      var todo := keys;
      ghost var done: set<string> := {};
      FoundNone(h, a, b, known, readable);
      while todo != {}
        invariant Splits(keys, todo, done)
        invariant found == Found(h, a, b, done, known, readable)
        decreases todo
      {
        var key :| key in todo;
        var finding := CheckTenant(h, key, a, b, known, readable, movement);
        SplitsNext(keys, todo, done, key);
        FoundNext(h, a, b, done, key, known, readable);
        found := With(found, key, known.Keys, finding);
        todo, done := todo - {key}, done + {key};
      }
      SplitsAll(keys, done);
    }

    /**
     * `h` is the chain's history; `events` what the adapter returned; `readable` the tenants whose balance the
     * node serves at the window's end.
     */
    method ReconcileWindow(h: History, a: nat, b: nat, events: seq<LedgerEvent>, known: map<string, int>, caughtUp: bool,
                           readable: set<string>)
      returns (found: Findings, checked: nat)
      requires a <= b <= |h| && events == EventsBetween(h, a, b)
      ensures found == Found(h, a, b, Checked(h, a, b, known.Keys, caughtUp), known, readable)
      ensures checked == |Checked(h, a, b, known.Keys, caughtUp)|
    {
      var movement := FoldEvents(events);
      var keys := movement.Keys + if caughtUp then known.Keys else {};
      FoldedKeys(h, a, b, movement);
      checked := |keys|;
      found := CheckTenants(h, keys, a, b, known, readable, movement);
    }

    method SettleWindow(h: History, w: Window, events: seq<LedgerEvent>, readable: set<string>) returns (stats: LedgerStats)
      requires WindowOf(h, w) && events == EventsBetween(h, w.a, w.b)
      modifies store
      ensures (store.Contents(), stats) == Settled(old(store.Contents()), h, w, readable)
    {
      var known := Balances(store.rows);
      assert known.Keys == store.rows.Keys;
      var found, checked := ReconcileWindow(h, w.a, w.b, events, known, w.caughtUp, readable);
      store.CommitWindow(w.to, events, found.reconciled);
      stats := LedgerStats(w.from, w.to, |events|, checked, found.drifted, found.seeded);
    }

    method FetchEvents(node: (nat, nat) -> seq<Log>, h: History, w: Window) returns (events: seq<LedgerEvent>)
      requires InChainOrder(h) && Serves(node, h) && WindowOf(h, w) && Spans(h, w)
      ensures events == EventsBetween(h, w.a, w.b)
    {
      var logs := node(w.from, w.to);
      EventsAreHistory(h, logs, w.from, w.to);
      events := LedgerEvents(logs);
    }

    /** `node` answers a block range with its logs; the balances it can serve are those of `readable`. */
    method ReconcileChain(latest: nat, node: (nat, nat) -> seq<Log>, h: History, readable: set<string>)
      returns (stats: Option<LedgerStats>)
      requires options.maxBlockRange >= 1 && InChainOrder(h) && Serves(node, h)
      modifies store
      ensures (store.Contents(), stats) == Tick(old(store.Contents()), latest, h, readable, options)
    {
      var window := Upcoming(latest, store.checkpoint, h, options);
      if window.None? {
        return None;
      }
      var w := window.value;
      var events := FetchEvents(node, h, w);
      var settled := SettleWindow(h, w, events, readable);
      stats := Some(settled);
    }
  }

  lemma FoldedKeys(h: History, a: nat, b: nat, movement: map<string, Movement>)
    requires a <= b <= |h| && movement == FoldAll(EventsBetween(h, a, b))
    ensures movement.Keys == EventKeys(h, a, b)
  {
    FoldIsExact(h, a, b);
    forall key ensures key in movement <==> key in EventKeys(h, a, b) {
      assert FoldedFor(h, key, a, b, movement);
      EventKeysHaveLast(h, a, b, key);
    }
  }

  lemma ExpectedDelta(h: History, a: nat, b: nat, movement: map<string, Movement>, key: string)
    requires a <= b <= |h| && movement == FoldAll(EventsBetween(h, a, b))
    ensures Announced(h, key, a, b) == if key in movement then movement[key].delta else 0
  {
    FoldIsExact(h, a, b);
    assert FoldedFor(h, key, a, b, movement);
    if key !in movement {
      NothingAnnounced(h, key, a, b);
    }
  }

  predicate Splits(keys: set<string>, todo: set<string>, done: set<string>) {
    todo !! done && todo + done == keys
  }

  lemma SplitsNext(keys: set<string>, todo: set<string>, done: set<string>, key: string)
    requires Splits(keys, todo, done) && key in todo
    ensures key !in done && Splits(keys, todo - {key}, done + {key})
  {
  }

  lemma SplitsAll(keys: set<string>, done: set<string>)
    requires Splits(keys, {}, done)
    ensures done == keys
  {
  }

  lemma FoundNone(h: History, a: nat, b: nat, known: map<string, int>, readable: set<string>)
    requires a <= b <= |h|
    ensures Found(h, a, b, {}, known, readable) == Findings(map[], map[], 0)
  {
    var reconciled, expected := Established(h, a, b, {}, readable), Expected(h, a, b, known);
    assert reconciled == map[];
    assert Drifts(reconciled, expected) == map[];
    assert reconciled.Keys - expected.Keys == {};
  }

  lemma EstablishedOne(h: History, a: nat, b: nat, done: set<string>, key: string, readable: set<string>)
    requires a <= b <= |h|
    ensures var p := PointOf(h, key, a, b, readable);
            Established(h, a, b, done + {key}, readable)
            == if p.Some? then Established(h, a, b, done, readable)[key := Balance(h, key, p.value)]
               else Established(h, a, b, done, readable)
  {
  }

  function FindingFor(key: string, actual: Option<int>, expected: map<string, int>): (Option<int>, Option<Drift>) {
    (actual,
     if actual.Some? && key in expected && expected[key] != actual.value then Some(Drift(expected[key], actual.value)) else None)
  }

  lemma SeededOne(reconciled: map<string, int>, known: set<string>, key: string, actual: int)
    requires key !in reconciled
    ensures |reconciled[key := actual].Keys - known| == |reconciled.Keys - known| + if key in known then 0 else 1
  {
    var added: set<string> := if key in known then {} else {key};
    assert reconciled[key := actual].Keys - known == (reconciled.Keys - known) + added;
  }

  lemma ComparedOne(reconciled: map<string, int>, expected: map<string, int>, key: string, actual: int)
    requires key !in reconciled
    ensures Compared(reconciled[key := actual], expected)
            == With(Compared(reconciled, expected), key, expected.Keys, FindingFor(key, Some(actual), expected))
  {
    SeededOne(reconciled, expected.Keys, key, actual);
    DriftsOne(reconciled, expected, key, actual);
  }

  lemma FindingIsFor(h: History, key: string, a: nat, b: nat, known: map<string, int>, readable: set<string>)
    requires a <= b <= |h|
    ensures var p := PointOf(h, key, a, b, readable);
            Finding(h, key, a, b, known, readable)
            == FindingFor(key, if p.Some? then Some(Balance(h, key, p.value)) else None, Expected(h, a, b, known))
  {
  }

  /** Findings grow one tenant at a time. */
  lemma FoundOne(h: History, a: nat, b: nat, done: set<string>, key: string, known: map<string, int>, readable: set<string>)
    requires a <= b <= |h| && key !in done
    ensures Found(h, a, b, done + {key}, known, readable)
            == With(Found(h, a, b, done, known, readable), key, Expected(h, a, b, known).Keys, Finding(h, key, a, b, known, readable))
  {
    var p, before := PointOf(h, key, a, b, readable), Established(h, a, b, done, readable);
    var expected := Expected(h, a, b, known);
    EstablishedOne(h, a, b, done, key, readable);
    FindingIsFor(h, key, a, b, known, readable);
    if p.Some? {
      ComparedOne(before, expected, key, Balance(h, key, p.value));
    }
  }

  lemma FoundNext(h: History, a: nat, b: nat, done: set<string>, key: string, known: map<string, int>, readable: set<string>)
    requires a <= b <= |h| && key !in done
    ensures Found(h, a, b, done + {key}, known, readable)
            == With(Found(h, a, b, done, known, readable), key, known.Keys, Finding(h, key, a, b, known, readable))
  {
    FoundOne(h, a, b, done, key, known, readable);
    assert Expected(h, a, b, known).Keys == known.Keys;
  }

  lemma DriftsOne(reconciled: map<string, int>, expected: map<string, int>, key: string, actual: int)
    requires key !in reconciled
    ensures Drifts(reconciled[key := actual], expected)
            == if key in expected && expected[key] != actual then Drifts(reconciled, expected)[key := Drift(expected[key], actual)]
               else Drifts(reconciled, expected)
  {
  }
}
