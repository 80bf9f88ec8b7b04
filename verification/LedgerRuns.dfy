/**
 * Runs of the tenant ledger reconciler: one reconciler, any ticks, any unreadable balances, and crashes
 * before a window is committed. The chain's history is the one that is final behind the confirmations.
 */
module LedgerRuns {
  import opened Text
  import opened ScanWindow
  import opened ChainEvents
  import opened LedgerHistory
  import opened TenantLedger

  datatype Step = Attempt(latest: nat, readable: set<string>) | Crash

  /** Bookkeeping of the proof: where a baseline was taken, where it stands, and what was reported since. */
  datatype Baseline = Baseline(since: nat, point: nat, reported: int)

  datatype Audit = Audit(book: Book, baselines: map<string, Baseline>, start: nat)

  const FRESH := Audit(Book(None, map[], map[]), map[], 0)

  function Reported(drifted: map<string, Drift>, key: string): int {
    if key in drifted then drifted[key].actualWei - drifted[key].expectedWei else 0
  }

  /** The tenants a window re-bases, and where to. */
  function Rebased(book: Book, h: History, w: Window, readable: set<string>, key: string): Option<nat>
    requires WindowOf(h, w)
  {
    if key in Checked(h, w.a, w.b, book.rows.Keys, w.caughtUp) then PointOf(h, key, w.a, w.b, readable) else None
  }

  function Moved(old_: Option<Baseline>, p: Option<nat>, reported: int): (b: Option<Baseline>) {
    match (old_, p)
    case (None, Some(point)) => Some(Baseline(point, point, 0))
    case (Some(b), Some(point)) => Some(Baseline(b.since, point, b.reported + reported))
    case (_, None) => old_
  }

  function BaselineOf(audit: Audit, key: string): Option<Baseline> {
    if key in audit.baselines then Some(audit.baselines[key]) else None
  }

  /** Where a window moves a tenant's baseline. */
  function MovedOf(audit: Audit, h: History, w: Window, readable: set<string>, key: string): Option<Baseline>
    requires WindowOf(h, w)
  {
    Moved(BaselineOf(audit, key), Rebased(audit.book, h, w, readable, key),
          Reported(Settled(audit.book, h, w, readable).1.drifted, key))
  }

  function Commit(audit: Audit, h: History, w: Window, readable: set<string>): Audit
    requires WindowOf(h, w)
  {
    var book := Settled(audit.book, h, w, readable).0;
    Audit(book, map key | key in book.rows && MovedOf(audit, h, w, readable, key).Some? :: MovedOf(audit, h, w, readable, key).value,
          if audit.book.checkpoint.None? then w.a else audit.start)
  }

  function Next(audit: Audit, step: Step, h: History, o: ScanOptions): Audit
    requires o.maxBlockRange >= 1 && InBlockOrder(h)
  {
    if step.Crash? then audit
    else
      match Upcoming(step.latest, audit.book.checkpoint, h, o)
      case None => audit
      case Some(w) => Commit(audit, h, w, step.readable)
  }

  function After(steps: seq<Step>, h: History, o: ScanOptions): Audit
    requires o.maxBlockRange >= 1 && InBlockOrder(h)
  {
    if steps == [] then FRESH else Next(After(steps[..|steps| - 1], h, o), steps[|steps| - 1], h, o)
  }

  // ---------------------------------------------------------------------------------------------
  // What every run keeps

  /** How many movements the scanned blocks hold. */
  function Scanned(book: Book, h: History): (n: nat)
    ensures n <= |h|
  {
    if book.checkpoint.None? then 0 else End(h, book.checkpoint.value)
  }

  /** The entries of the events of `a..b`. */
  function Recorded(h: History, a: nat, b: nat): map<EntryId, LedgerEvent>
    requires a <= b <= |h|
    decreases b
  {
    if a == b then map[]
    else if Announces(h, b - 1) then Recorded(h, a, b - 1)[Id(EventOf(h, b - 1)) := Entered(EventOf(h, b - 1))]
    else Recorded(h, a, b - 1)
  }

  /** The stored balance is the chain's at the tenant's point, and telescopes from its baseline. */
  ghost predicate Telescopes(h: History, key: string, balance: int, base: Baseline, scanned: nat) {
    && base.since <= base.point <= scanned <= |h|
    && NoEvents(h, key, base.point, scanned)
    && balance == Balance(h, key, base.point)
    && base.reported == Silent(h, key, base.since, base.point)
    && Balance(h, key, base.since) + Announced(h, key, base.since, base.point) + base.reported == balance
  }

  ghost predicate Sound(audit: Audit, h: History) {
    && audit.baselines.Keys == audit.book.rows.Keys
    && (forall key <- audit.baselines :: Telescopes(h, key, audit.book.rows[key].balance, audit.baselines[key], Scanned(audit.book, h)))
    && (forall key <- audit.book.rows :: audit.book.checkpoint.Some? && audit.book.rows[key].asOf <= audit.book.checkpoint.value)
    && audit.start <= Scanned(audit.book, h)
    && audit.book.entries == Recorded(h, audit.start, Scanned(audit.book, h))
  }

  lemma {:induction false} SilentSplits(h: History, key: string, a: nat, b: nat, c: nat)
    requires a <= b <= c <= |h|
    ensures Silent(h, key, a, c) == Silent(h, key, a, b) + Silent(h, key, b, c)
    decreases c
  {
    if b < c {
      SilentSplits(h, key, a, b, c - 1);
    }
  }

  lemma PointOfIsLast(h: History, key: string, a: nat, b: nat, readable: set<string>)
    requires a <= b <= |h|
    ensures var p := PointOf(h, key, a, b, readable);
            if p.Some? then a <= p.value <= b && NoEvents(h, key, p.value, b) else NoEvents(h, key, a, b)
  {
  }

  lemma {:induction false} UncheckedHasNoEvents(h: History, key: string, a: nat, b: nat, known: set<string>, caughtUp: bool)
    requires a <= b <= |h| && key !in Checked(h, a, b, known, caughtUp)
    ensures NoEvents(h, key, a, b)
  {
    EventKeysHaveLast(h, a, b, key);
  }

  /** What a window expects of a tenant falls short of its balance by exactly its silent movement since its point. */
  lemma DriftIsSilent(h: History, key: string, point: nat, a: nat, b: nat, p: nat)
    requires point <= a <= p <= b <= |h| && NoEvents(h, key, point, a) && NoEvents(h, key, p, b)
    ensures Balance(h, key, p) == Balance(h, key, point) + Announced(h, key, a, b) + Silent(h, key, point, p)
    ensures Announced(h, key, point, p) == Announced(h, key, a, b)
  {
    BalanceSplits(h, key, point, p);
    AnnouncedSplits(h, key, point, a, p);
    AnnouncedSplits(h, key, a, p, b);
    NothingAnnounced(h, key, point, a);
    NothingAnnounced(h, key, p, b);
  }

  lemma RebaseTelescopes(h: History, key: string, balance: int, base: Baseline, a: nat, b: nat, p: nat)
    requires Telescopes(h, key, balance, base, a)
    requires a <= p <= b <= |h| && NoEvents(h, key, p, b)
    ensures Telescopes(h, key, Balance(h, key, p),
                       Baseline(base.since, p, base.reported + Silent(h, key, base.point, p)), b)
  {
    DriftIsSilent(h, key, base.point, a, b, p);
    SilentSplits(h, key, base.since, base.point, p);
    AnnouncedSplits(h, key, base.since, base.point, p);
  }

  function RowOf(rows: map<string, Stored>, key: string): Option<Stored> {
    if key in rows then Some(rows[key]) else None
  }

  lemma UpsertedTenant(rows: map<string, Stored>, reconciled: map<string, int>, to: nat, key: string)
    requires key in rows ==> rows[key].asOf <= to
    ensures RowOf(Upserted(rows, reconciled, to), key)
            == if key in reconciled then Some(Stored(reconciled[key], to)) else RowOf(rows, key)
  {
  }

  lemma ComparedTenant(actual: map<string, int>, expected: map<string, int>, key: string)
    ensures var drifted := Compared(actual, expected).drifted;
            var difference := if key in actual && key in expected then actual[key] - expected[key] else 0;
            Reported(drifted, key) == difference && (key in drifted <==> difference != 0)
  {
  }

  lemma FoundTenant(h: History, w: Window, keys: set<string>, known: map<string, int>, readable: set<string>, key: string)
    requires WindowOf(h, w)
    ensures var p := if key in keys then PointOf(h, key, w.a, w.b, readable) else None;
            var found := Found(h, w.a, w.b, keys, known, readable);
            var difference := if key in known && p.Some? then Balance(h, key, p.value) - (known[key] + Announced(h, key, w.a, w.b)) else 0;
            && (key in found.reconciled <==> p.Some?)
            && (p.Some? ==> found.reconciled[key] == Balance(h, key, p.value))
            && Reported(found.drifted, key) == difference && (key in found.drifted <==> difference != 0)
  {
    ComparedTenant(Established(h, w.a, w.b, keys, readable), Expected(h, w.a, w.b, known), key);
  }

  /** What a window leaves for one tenant, and what it reports of it. */
  ghost predicate TenantSettled(h: History, w: Window, key: string, before: Option<Stored>, after: Option<Stored>, p: Option<nat>,
                                drifted: bool, reported: int)
    requires WindowOf(h, w)
  {
    && (p.Some? ==> w.a <= p.value <= w.b)
    && after == (if p.Some? then Some(Stored(Balance(h, key, p.value), w.to)) else before)
    && reported == (if before.Some? && p.Some? then Balance(h, key, p.value) - (before.value.balance + Announced(h, key, w.a, w.b)) else 0)
    && (drifted <==> reported != 0)
  }

  lemma SettledTenant(book: Book, h: History, w: Window, readable: set<string>, key: string)
    requires WindowOf(h, w)
    requires key in book.rows ==> book.rows[key].asOf <= w.to
    ensures var (after, stats) := Settled(book, h, w, readable);
            TenantSettled(h, w, key, RowOf(book.rows, key), RowOf(after.rows, key), Rebased(book, h, w, readable, key),
                          key in stats.drifted, Reported(stats.drifted, key))
  {
    var keys := Checked(h, w.a, w.b, book.rows.Keys, w.caughtUp);
    var known := Balances(book.rows);
    var found := Found(h, w.a, w.b, keys, known, readable);
    FoundTenant(h, w, keys, known, readable, key);
    UpsertedTenant(book.rows, found.reconciled, w.to, key);
    PointOfIsLast(h, key, w.a, w.b, readable);
  }

  /** `w` is the window after what is already scanned. */
  ghost predicate Follows(book: Book, h: History, w: Window) {
    && WindowOf(h, w) && w.b == End(h, w.to)
    && (book.checkpoint.Some? ==> w.a == Scanned(book, h) && book.checkpoint.value < w.to)
  }

  lemma UpcomingFollows(latest: nat, book: Book, h: History, o: ScanOptions)
    requires o.maxBlockRange >= 1 && InBlockOrder(h)
    ensures var w := Upcoming(latest, book.checkpoint, h, o);
            w.Some? ==> Follows(book, h, w.value)
  {
    WindowsAreContiguous(latest, book.checkpoint, o);
  }

  lemma StillTelescopes(h: History, key: string, balance: int, base: Baseline, a: nat, b: nat)
    requires Telescopes(h, key, balance, base, a) && a <= b <= |h| && NoEvents(h, key, a, b)
    ensures Telescopes(h, key, balance, base, b)
  {
  }

  ghost predicate TenantSound(h: History, key: string, row: Option<Stored>, base: Option<Baseline>, scanned: nat, to: nat) {
    && (row.Some? <==> base.Some?)
    && (row.Some? ==> row.value.asOf <= to && Telescopes(h, key, row.value.balance, base.value, scanned))
  }

  lemma TenantKept(h: History, w: Window, key: string, before: Option<Stored>, after: Option<Stored>, base: Option<Baseline>,
                   p: Option<nat>, drifted: bool, reported: int)
    requires WindowOf(h, w) && TenantSound(h, key, before, base, w.a, w.to)
    requires TenantSettled(h, w, key, before, after, p, drifted, reported)
    requires NoEvents(h, key, if p.Some? then p.value else w.a, w.b)
    ensures TenantSound(h, key, after, Moved(base, p, reported), w.b, w.to)
  {
    if base.Some? {
      if p.Some? {
        DriftIsSilent(h, key, base.value.point, w.a, w.b, p.value);
        RebaseTelescopes(h, key, before.value.balance, base.value, w.a, w.b, p.value);
      } else {
        StillTelescopes(h, key, before.value.balance, base.value, w.a, w.b);
      }
    }
  }

  lemma RebasedIsLast(book: Book, h: History, w: Window, readable: set<string>, key: string)
    requires WindowOf(h, w)
    ensures var p := Rebased(book, h, w, readable, key);
            (p.Some? ==> w.a <= p.value <= w.b) && NoEvents(h, key, if p.Some? then p.value else w.a, w.b)
  {
    if key in Checked(h, w.a, w.b, book.rows.Keys, w.caughtUp) {
      PointOfIsLast(h, key, w.a, w.b, readable);
    } else {
      UncheckedHasNoEvents(h, key, w.a, w.b, book.rows.Keys, w.caughtUp);
    }
  }

  lemma SoundTenant(audit: Audit, h: History, w: Window, key: string)
    requires Sound(audit, h) && Follows(audit.book, h, w)
    ensures TenantSound(h, key, RowOf(audit.book.rows, key), BaselineOf(audit, key), w.a, w.to)
  {
  }

  lemma SettledKeepsTenant(audit: Audit, h: History, w: Window, readable: set<string>, key: string)
    requires Sound(audit, h) && Follows(audit.book, h, w)
    ensures TenantSound(h, key, RowOf(Settled(audit.book, h, w, readable).0.rows, key), MovedOf(audit, h, w, readable, key), w.b, w.to)
  {
    var settled := Settled(audit.book, h, w, readable);
    var p, reported := Rebased(audit.book, h, w, readable, key), Reported(settled.1.drifted, key);
    SoundTenant(audit, h, w, key);
    SettledTenant(audit.book, h, w, readable, key);
    RebasedIsLast(audit.book, h, w, readable, key);
    TenantKept(h, w, key, RowOf(audit.book.rows, key), RowOf(settled.0.rows, key), BaselineOf(audit, key), p, key in settled.1.drifted, reported);
  }

  lemma CommitKeepsTenant(audit: Audit, h: History, w: Window, readable: set<string>, key: string)
    requires Sound(audit, h) && Follows(audit.book, h, w)
    ensures var after := Commit(audit, h, w, readable);
            TenantSound(h, key, RowOf(after.book.rows, key), BaselineOf(after, key), w.b, w.to)
  {
    SettledKeepsTenant(audit, h, w, readable, key);
  }

  lemma IdsDiffer(h: History, i: nat, j: nat)
    requires InChainOrder(h) && i < j && Announces(h, i) && Announces(h, j)
    ensures Id(EventOf(h, i)) != Id(EventOf(h, j))
  {
    if Lower(h[i].tx) == Lower(h[j].tx) {
      assert h[i].block == h[j].block;
    }
  }

  /** Every recorded entry is that of an event of `a..b`. */
  lemma {:induction false} RecordedFrom(h: History, a: nat, b: nat, id: EntryId) returns (i: nat)
    requires a <= b <= |h| && id in Recorded(h, a, b)
    ensures a <= i < b && Announces(h, i) && id == Id(EventOf(h, i))
    decreases b
  {
    if Announces(h, b - 1) && id == Id(EventOf(h, b - 1)) {
      i := b - 1;
    } else {
      i := RecordedFrom(h, a, b - 1, id);
    }
  }

  lemma NextIdIsNew(h: History, a: nat, b: nat)
    requires a < b <= |h| && InChainOrder(h) && Announces(h, b - 1)
    ensures Id(EventOf(h, b - 1)) !in Recorded(h, a, b - 1)
  {
    if Id(EventOf(h, b - 1)) in Recorded(h, a, b - 1) {
      var i := RecordedFrom(h, a, b - 1, Id(EventOf(h, b - 1)));
      IdsDiffer(h, i, b - 1);
    }
  }

  /** Each event has its own entry: as many entries as events, and each event's own under its transaction and log index. */
  lemma {:induction false} EachEventOnce(h: History, a: nat, b: nat)
    requires a <= b <= |h| && InChainOrder(h)
    ensures |Recorded(h, a, b)| == |EventsBetween(h, a, b)|
    ensures forall i | a <= i < b && Announces(h, i) ::
              Id(EventOf(h, i)) in Recorded(h, a, b) && Recorded(h, a, b)[Id(EventOf(h, i))] == Entered(EventOf(h, i))
    decreases b
  {
    if a == b {
    } else {
      EachEventOnce(h, a, b - 1);
      if Announces(h, b - 1) {
        NextIdIsNew(h, a, b);
        forall i | a <= i < b && Announces(h, i)
          ensures Id(EventOf(h, i)) in Recorded(h, a, b) && Recorded(h, a, b)[Id(EventOf(h, i))] == Entered(EventOf(h, i))
        {
          if i < b - 1 {
            IdsDiffer(h, i, b - 1);
          }
        }
      }
    }
  }

  lemma WithOneMore(entries: map<EntryId, LedgerEvent>, events: seq<LedgerEvent>, last: LedgerEvent)
    ensures WithEntries(entries, events + [last]) == WithEntry(WithEntries(entries, events), last)
  {
    assert (events + [last])[..|events|] == events;
  }

  lemma EntryAppends(h: History, entries: map<EntryId, LedgerEvent>, start: nat, a: nat, b: nat)
    requires start <= a < b <= |h| && InChainOrder(h) && Announces(h, b - 1)
    requires WithEntries(entries, EventsBetween(h, a, b - 1)) == Recorded(h, start, b - 1)
    ensures WithEntries(entries, EventsBetween(h, a, b)) == Recorded(h, start, b)
  {
    WithOneMore(entries, EventsBetween(h, a, b - 1), EventOf(h, b - 1));
    NextIdIsNew(h, start, b);
  }

  /** A window adds its own events and no other. */
  lemma {:induction false} EntriesExtend(h: History, entries: map<EntryId, LedgerEvent>, start: nat, a: nat, b: nat)
    requires start <= a <= b <= |h| && InChainOrder(h) && entries == Recorded(h, start, a)
    ensures WithEntries(entries, EventsBetween(h, a, b)) == Recorded(h, start, b)
    decreases b
  {
    if a == b {
    } else {
      EntriesExtend(h, entries, start, a, b - 1);
      if Announces(h, b - 1) {
        EntryAppends(h, entries, start, a, b);
      } else {
        assert EventsBetween(h, a, b) == EventsBetween(h, a, b - 1);
      }
    }
  }

  lemma SoundByTenant(audit: Audit, h: History, w: Window)
    requires audit.book.checkpoint == Some(w.to) && Scanned(audit.book, h) == w.b
    requires forall key: string :: TenantSound(h, key, RowOf(audit.book.rows, key), BaselineOf(audit, key), w.b, w.to)
    ensures audit.baselines.Keys == audit.book.rows.Keys
    ensures forall key <- audit.baselines :: Telescopes(h, key, audit.book.rows[key].balance, audit.baselines[key], w.b)
    ensures forall key <- audit.book.rows :: audit.book.rows[key].asOf <= w.to
  {
    forall key: string ensures key in audit.baselines <==> key in audit.book.rows {
      assert TenantSound(h, key, RowOf(audit.book.rows, key), BaselineOf(audit, key), w.b, w.to);
    }
    forall key <- audit.baselines
      ensures Telescopes(h, key, audit.book.rows[key].balance, audit.baselines[key], w.b) && audit.book.rows[key].asOf <= w.to
    {
      assert TenantSound(h, key, RowOf(audit.book.rows, key), BaselineOf(audit, key), w.b, w.to);
    }
  }

  lemma CommitKeepsEntries(audit: Audit, h: History, w: Window, readable: set<string>)
    requires InChainOrder(h) && Sound(audit, h) && Follows(audit.book, h, w)
    ensures var after := Commit(audit, h, w, readable);
            after.start <= w.b && after.book.entries == Recorded(h, after.start, w.b)
  {
    var start := if audit.book.checkpoint.None? then w.a else audit.start;
    EntriesExtend(h, audit.book.entries, start, w.a, w.b);
  }

  lemma CommitKeepsRows(audit: Audit, h: History, w: Window, readable: set<string>)
    requires Sound(audit, h) && Follows(audit.book, h, w)
    ensures var after := Commit(audit, h, w, readable);
            forall key: string :: TenantSound(h, key, RowOf(after.book.rows, key), BaselineOf(after, key), w.b, w.to)
  {
    var after := Commit(audit, h, w, readable);
    forall key: string ensures TenantSound(h, key, RowOf(after.book.rows, key), BaselineOf(after, key), w.b, w.to) {
      CommitKeepsTenant(audit, h, w, readable, key);
    }
  }

  lemma CommitKeepsSound(audit: Audit, h: History, w: Window, readable: set<string>)
    requires InChainOrder(h) && Sound(audit, h) && Follows(audit.book, h, w)
    ensures Sound(Commit(audit, h, w, readable), h)
  {
    var after := Commit(audit, h, w, readable);
    assert after.book.checkpoint == Some(w.to);
    CommitKeepsRows(audit, h, w, readable);
    SoundByTenant(after, h, w);
    CommitKeepsEntries(audit, h, w, readable);
  }

  /** In every run the stored ledger is sound: balances, points, drifts and entries all telescope. */
  lemma {:induction false} LedgerTelescopes(steps: seq<Step>, h: History, o: ScanOptions)
    requires o.maxBlockRange >= 1 && InChainOrder(h)
    ensures Sound(After(steps, h, o), h)
  {
    if steps != [] {
      var before, step := After(steps[..|steps| - 1], h, o), steps[|steps| - 1];
      LedgerTelescopes(steps[..|steps| - 1], h, o);
      if step.Attempt? {
        UpcomingFollows(step.latest, before.book, h, o);
        var w := Upcoming(step.latest, before.book.checkpoint, h, o);
        if w.Some? {
          CommitKeepsSound(before, h, w.value, step.readable);
        }
      }
    }
  }

  /** A drift is reported for `key` exactly when a baselined, checked tenant moved silently, and is that movement. */
  ghost predicate ReportedExactly(h: History, key: string, base: Option<Baseline>, p: Option<nat>, drifted: bool, reported: int) {
    if base.Some? && p.Some? then
      && base.value.point <= p.value <= |h|
      && (drifted <==> Silent(h, key, base.value.point, p.value) != 0)
      && reported == Silent(h, key, base.value.point, p.value)
    else !drifted
  }

  ghost predicate ReportsExactly(audit: Audit, h: History, w: Window, readable: set<string>, key: string, drifted: map<string, Drift>)
    requires WindowOf(h, w)
  {
    ReportedExactly(h, key, BaselineOf(audit, key), Rebased(audit.book, h, w, readable, key), key in drifted, Reported(drifted, key))
  }

  lemma TenantReported(h: History, w: Window, key: string, before: Option<Stored>, after: Option<Stored>, base: Option<Baseline>,
                       p: Option<nat>, drifted: bool, reported: int)
    requires WindowOf(h, w) && TenantSound(h, key, before, base, w.a, w.to)
    requires TenantSettled(h, w, key, before, after, p, drifted, reported)
    requires NoEvents(h, key, if p.Some? then p.value else w.a, w.b)
    ensures ReportedExactly(h, key, base, p, drifted, reported)
  {
    if base.Some? && p.Some? {
      DriftIsSilent(h, key, base.value.point, w.a, w.b, p.value);
    }
  }

  lemma WindowReportsExactly(audit: Audit, h: History, w: Window, readable: set<string>, key: string)
    requires Sound(audit, h) && Follows(audit.book, h, w)
    ensures ReportsExactly(audit, h, w, readable, key, Settled(audit.book, h, w, readable).1.drifted)
  {
    var (after, stats) := Settled(audit.book, h, w, readable);
    SoundTenant(audit, h, w, key);
    SettledTenant(audit.book, h, w, readable, key);
    RebasedIsLast(audit.book, h, w, readable, key);
    TenantReported(h, w, key, RowOf(audit.book.rows, key), RowOf(after.rows, key), BaselineOf(audit, key),
                   Rebased(audit.book, h, w, readable, key), key in stats.drifted, Reported(stats.drifted, key));
  }

  /**
   * After any run, the next tick reports a drift for a tenant if and only if it checks the tenant, has a
   * baseline for it, and its balance moved silently since its last point; and it reports exactly that movement.
   */
  lemma DriftsAreExact(steps: seq<Step>, h: History, o: ScanOptions, latest: nat, readable: set<string>, key: string)
    requires o.maxBlockRange >= 1 && InChainOrder(h)
    ensures var audit := After(steps, h, o);
            var (book, stats) := Tick(audit.book, latest, h, readable, o);
            && Next(audit, Attempt(latest, readable), h, o).book == book
            && match Upcoming(latest, audit.book.checkpoint, h, o)
               case None => stats == None
               case Some(w) => stats.Some? && ReportsExactly(audit, h, w, readable, key, stats.value.drifted)
  {
    var audit := After(steps, h, o);
    LedgerTelescopes(steps, h, o);
    UpcomingFollows(latest, audit.book, h, o);
    var w := Upcoming(latest, audit.book.checkpoint, h, o);
    if w.Some? {
      WindowReportsExactly(audit, h, w.value, readable, key);
    }
  }

  /** The drift reported for `key` is its silent movement from its point to `p`. */
  ghost predicate ReportsSilence(h: History, key: string, base: Baseline, p: nat, drifted: map<string, Drift>) {
    && base.point <= p <= |h|
    && (key in drifted <==> Silent(h, key, base.point, p) != 0)
    && Reported(drifted, key) == Silent(h, key, base.point, p)
  }

  lemma HeadIsChecked(audit: Audit, h: History, w: Window, readable: set<string>, key: string, drifted: map<string, Drift>)
    requires WindowOf(h, w) && w.caughtUp && key in audit.book.rows && key in audit.baselines && key in readable
    requires ReportsExactly(audit, h, w, readable, key, drifted)
    ensures ReportsSilence(h, key, audit.baselines[key], w.b, drifted)
  {
    assert Rebased(audit.book, h, w, readable, key) == Some(w.b);
  }

  /**
   * Once a window reaches the confirmed head, every known tenant whose balance can be read is checked there, with
   * events or without: a silent movement is reported even if the tenant never transacts again.
   */
  lemma CaughtUpFindsEveryDrift(steps: seq<Step>, h: History, o: ScanOptions, latest: nat, readable: set<string>, key: string)
    returns (w: Window, stats: LedgerStats)
    requires o.maxBlockRange >= 1 && InChainOrder(h)
    requires Upcoming(latest, After(steps, h, o).book.checkpoint, h, o).Some?
    requires Upcoming(latest, After(steps, h, o).book.checkpoint, h, o).value.to + o.confirmations == latest
    requires key in After(steps, h, o).baselines && key in readable
    ensures Tick(After(steps, h, o).book, latest, h, readable, o).1 == Some(stats)
    ensures stats.toBlock == latest - o.confirmations
    ensures ReportsSilence(h, key, After(steps, h, o).baselines[key], End(h, stats.toBlock), stats.drifted)
  {
    var audit := After(steps, h, o);
    LedgerTelescopes(steps, h, o);
    UpcomingFollows(latest, audit.book, h, o);
    w := Upcoming(latest, audit.book.checkpoint, h, o).value;
    stats := Settled(audit.book, h, w, readable).1;
    WindowReportsExactly(audit, h, w, readable, key);
    HeadIsChecked(audit, h, w, readable, key, stats.drifted);
  }
}
