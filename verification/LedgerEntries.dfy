/**
 * What the stored ledger says of a tenant (postgresTenantLedgerStore.ts): one entry for each announced movement since
 * the first window, holding that movement's values, and adding up to what was announced.
 */
module LedgerEntries {
  import opened Text
  import opened ScanWindow
  import opened ChainEvents
  import opened LedgerHistory
  import opened LedgerReads
  import opened TenantLedger
  import opened LedgerRuns

  /** The entry of a movement: whose it was, what it announced, the balance it left, and where it happened. */
  ghost predicate Describes(e: LedgerEvent, h: History, i: nat)
    requires Announces(h, i)
  {
    && e.tenant == Lower(h[i].tenant)
    && e.balanceAfterWei == Balance(h, Lower(h[i].tenant), i + 1)
    && e.blockNumber == h[i].block && e.logIndex == h[i].index && e.transactionHash == Lower(h[i].tx)
    && match h[i].announced.value
       case Deposited(amount) => e.kind == Deposit && e.deltaWei == amount
       case Withdrawn(amount) => e.kind == Withdrawal && e.deltaWei + amount == 0
       case Charged(charged) => e.kind == Charge && e.deltaWei + charged == 0
  }

  /** After any run each announced movement of the scanned blocks has its entry, under its transaction and log index. */
  lemma EntriesAreHistory(steps: seq<Step>, h: History, o: ScanOptions, i: nat)
    requires o.maxBlockRange >= 1 && InChainOrder(h)
    requires var audit := After(steps, h, o);
             audit.start <= i < Scanned(audit.book, h) && h[i].announced.Some?
    ensures var entries := After(steps, h, o).book.entries;
            (Lower(h[i].tx), h[i].index) in entries && Describes(entries[(Lower(h[i].tx), h[i].index)], h, i)
  {
    var audit := After(steps, h, o);
    LedgerTelescopes(steps, h, o);
    EachEventOnce(h, audit.start, Scanned(audit.book, h));
    assert Announces(h, i) && Id(EventOf(h, i)) == (Lower(h[i].tx), h[i].index);
  }

  /** And there is no other entry. */
  lemma EntryOf(steps: seq<Step>, h: History, o: ScanOptions, id: EntryId) returns (i: nat)
    requires o.maxBlockRange >= 1 && InChainOrder(h) && id in After(steps, h, o).book.entries
    ensures After(steps, h, o).start <= i < Scanned(After(steps, h, o).book, h) && Announces(h, i)
    ensures id == (Lower(h[i].tx), h[i].index)
  {
    var audit := After(steps, h, o);
    LedgerTelescopes(steps, h, o);
    i := RecordedFrom(h, audit.start, Scanned(audit.book, h), id);
  }

  lemma FirstWindow(h: History, o: ScanOptions, latest: nat)
    requires o.maxBlockRange >= 1 && InBlockOrder(h)
    ensures var w := Upcoming(latest, None, h, o);
            var first: int := latest - o.confirmations - o.initialLookbackBlocks;
            if latest < o.confirmations then w == None
            else w.Some? && w.value.a == End(h, if first > 0 then first - 1 else -1)
  {
    WindowsAreContiguous(latest, None, o);
  }

  lemma CommitStarts(audit: Audit, h: History, w: Window, readable: set<string>)
    requires WindowOf(h, w)
    ensures Commit(audit, h, w, readable).start == if audit.book.checkpoint.None? then w.a else audit.start
  {
  }

  lemma NextStarts(audit: Audit, h: History, o: ScanOptions, latest: nat, readable: set<string>)
    requires o.maxBlockRange >= 1 && InBlockOrder(h)
    ensures var w := Upcoming(latest, audit.book.checkpoint, h, o);
            Next(audit, Attempt(latest, readable), h, o).start
            == if w.Some? && audit.book.checkpoint.None? then w.value.a else audit.start
  {
    match Upcoming(latest, audit.book.checkpoint, h, o)
    case None =>
    case Some(w) => CommitStarts(audit, h, w, readable);
  }

  /** The scanned blocks begin where the first window does: the look-back behind the confirmed head of that tick. */
  lemma ScanBegins(audit: Audit, h: History, o: ScanOptions, latest: nat, readable: set<string>)
    requires o.maxBlockRange >= 1 && InBlockOrder(h)
    ensures var after := Next(audit, Attempt(latest, readable), h, o);
            if audit.book.checkpoint.Some? || latest < o.confirmations then after.start == audit.start
            else
              var first: int := latest - o.confirmations - o.initialLookbackBlocks;
              after.start == End(h, if first > 0 then first - 1 else -1)
  {
    NextStarts(audit, h, o, latest, readable);
    if audit.book.checkpoint.None? {
      FirstWindow(h, o, latest);
    }
  }

  // ---------------------------------------------------------------------------------------------
  // Sums

  function Share(e: LedgerEvent, key: string): int {
    if e.tenant == key then e.deltaWei else 0
  }

  /** The deltas of a tenant's entries, added up. */
  ghost function Total(entries: map<EntryId, LedgerEvent>, key: string): int
    decreases |entries|
  {
    if entries == map[] then 0
    else
      var id := AnyOf(entries);
      Fewer(entries, id);
      Share(entries[id], key) + Total(entries - {id}, key)
  }

  ghost function AnyOf(entries: map<EntryId, LedgerEvent>): (id: EntryId)
    requires entries != map[]
    ensures id in entries
  {
    var id :| id in entries;
    id
  }

  lemma Fewer(entries: map<EntryId, LedgerEvent>, id: EntryId)
    requires id in entries
    ensures |entries - {id}| < |entries|
  {
    assert (entries - {id}).Keys == entries.Keys - {id};
    assert |entries.Keys - {id}| < |entries.Keys|;
  }

  lemma {:induction false} TotalRemoves(entries: map<EntryId, LedgerEvent>, id: EntryId, key: string)
    requires id in entries
    ensures Total(entries, key) == Share(entries[id], key) + Total(entries - {id}, key)
    decreases |entries|
  {
    var first := AnyOf(entries);
    if first != id {
      Fewer(entries, first);
      Fewer(entries, id);
      TotalRemoves(entries - {first}, id, key);
      TotalRemoves(entries - {id}, first, key);
      assert entries - {first} - {id} == entries - {id} - {first};
    }
  }

  lemma TotalAdds(entries: map<EntryId, LedgerEvent>, id: EntryId, e: LedgerEvent, key: string)
    requires id !in entries
    ensures Total(entries[id := e], key) == Total(entries, key) + Share(e, key)
  {
    TotalRemoves(entries[id := e], id, key);
    assert entries[id := e] - {id} == entries;
  }

  lemma {:induction false} RecordedTotal(h: History, a: nat, b: nat, key: string)
    requires a <= b <= |h| && InChainOrder(h)
    ensures Total(Recorded(h, a, b), key) == Announced(h, key, a, b)
    decreases b
  {
    if a == b {
    } else {
      RecordedTotal(h, a, b - 1, key);
      if Announces(h, b - 1) {
        NextIdIsNew(h, a, b);
        TotalAdds(Recorded(h, a, b - 1), Id(EventOf(h, b - 1)), Entered(EventOf(h, b - 1)), key);
      }
    }
  }

  /** After any run a tenant's entries add up to what the scanned blocks announce of it. */
  lemma EntriesAddUp(steps: seq<Step>, h: History, o: ScanOptions, key: string)
    requires o.maxBlockRange >= 1 && InChainOrder(h)
    ensures var audit := After(steps, h, o);
            audit.start <= Scanned(audit.book, h)
            && Total(audit.book.entries, key) == Announced(h, key, audit.start, Scanned(audit.book, h))
  {
    var audit := After(steps, h, o);
    LedgerTelescopes(steps, h, o);
    RecordedTotal(h, audit.start, Scanned(audit.book, h), key);
  }

  // ---------------------------------------------------------------------------------------------
  // What a tick reports

  /** A window checks the tenants that have an event in it, and once it reaches the confirmed head every known one. */
  lemma CheckedExactly(h: History, w: Window, known: set<string>, key: string)
    requires WindowOf(h, w)
    ensures key in Checked(h, w.a, w.b, known, w.caughtUp)
            <==> (exists i | w.a <= i < w.b :: EventAt(h, key, i)) || (w.caughtUp && key in known)
  {
    EventKeysHaveLast(h, w.a, w.b, key);
    var last := LastEvent(h, key, w.a, w.b);
    if last.Some? {
      assert EventAt(h, key, last.value - 1);
    }
  }

  lemma {:induction false} EventsSplit(h: History, a: nat, b: nat, c: nat)
    requires a <= b <= c <= |h|
    ensures |EventsBetween(h, a, c)| == |EventsBetween(h, a, b)| + |EventsBetween(h, b, c)|
    decreases c
  {
    if b < c {
      EventsSplit(h, a, b, c - 1);
    }
  }

  lemma SettledRows(book: Book, h: History, w: Window, readable: set<string>)
    requires WindowOf(h, w)
    ensures var (after, stats) := Settled(book, h, w, readable);
            book.rows.Keys <= after.rows.Keys && stats.seeded == |after.rows.Keys - book.rows.Keys|
  {
    var keys := Checked(h, w.a, w.b, book.rows.Keys, w.caughtUp);
    var reconciled := Established(h, w.a, w.b, keys, readable);
    UpsertedKeys(book.rows, reconciled, w.to);
    assert Expected(h, w.a, w.b, Balances(book.rows)).Keys == book.rows.Keys;
    assert book.rows.Keys + reconciled.Keys - book.rows.Keys == reconciled.Keys - book.rows.Keys;
  }

  lemma UpsertedKeys(rows: map<string, Stored>, reconciled: map<string, int>, block: nat)
    ensures Upserted(rows, reconciled, block).Keys == rows.Keys + reconciled.Keys
  {
  }

  lemma SettledEntries(audit: Audit, h: History, w: Window, readable: set<string>)
    requires InChainOrder(h) && Sound(audit, h) && Follows(audit.book, h, w)
    ensures var (after, stats) := Settled(audit.book, h, w, readable);
            |after.entries| == |audit.book.entries| + stats.events
  {
    var start := if audit.book.checkpoint.None? then w.a else audit.start;
    assert audit.book.entries == Recorded(h, start, w.a);
    EntriesExtend(h, audit.book.entries, start, w.a, w.b);
    EachEventOnce(h, start, w.a);
    EachEventOnce(h, start, w.b);
    EventsSplit(h, start, w.a, w.b);
  }

  /** A tick reports its window's blocks, as many events as it adds entries, and as many seeds as it adds tenants. */
  lemma TickCounts(steps: seq<Step>, h: History, o: ScanOptions, latest: nat, readable: set<string>)
    requires o.maxBlockRange >= 1 && InChainOrder(h)
    ensures var before := After(steps, h, o).book;
            var (after, stats) := Tick(before, latest, h, readable, o);
            stats.Some? ==>
              && after.checkpoint == Some(stats.value.toBlock)
              && (before.checkpoint.Some? ==> stats.value.fromBlock == before.checkpoint.value + 1)
              && |after.entries| == |before.entries| + stats.value.events
              && before.rows.Keys <= after.rows.Keys && stats.value.seeded == |after.rows.Keys - before.rows.Keys|
  {
    var audit := After(steps, h, o);
    LedgerTelescopes(steps, h, o);
    UpcomingFollows(latest, audit.book, h, o);
    WindowsAreContiguous(latest, audit.book.checkpoint, o);
    var w := Upcoming(latest, audit.book.checkpoint, h, o);
    if w.Some? {
      SettledRows(audit.book, h, w.value, readable);
      SettledEntries(audit, h, w.value, readable);
    }
  }
}
