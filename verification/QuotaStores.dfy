/**
 * The counter store behind quotas: the contract of the port (quotaStore.ts) as functions on a map of
 * counters, and the in-memory store that implements it (inMemoryQuotaStore.ts).
 */
module QuotaStores {
  import opened Text
  import opened Windows

  type Counters = map<string, nat>

  datatype QuotaOutcome = QuotaOutcome(consumed: bool, usage: nat, limit: nat, resetsAt: nat)

  /** An absent counter reads as zero. */
  function Usage(counters: Counters, slot: string): nat {
    if slot in counters then counters[slot] else 0
  }

  predicate Fits(counters: Counters, slot: string, amount: nat, limit: nat) {
    Usage(counters, slot) + amount <= limit
  }

  function Consumed(counters: Counters, slot: string, amount: nat, limit: nat): Counters {
    if Fits(counters, slot, amount, limit) then counters[slot := Usage(counters, slot) + amount] else counters
  }

  /** Clamped: a counter that would reach zero is dropped. */
  function Released(counters: Counters, slot: string, amount: nat): Counters {
    if slot !in counters then counters
    else if counters[slot] <= amount then counters - {slot}
    else counters[slot := counters[slot] - amount]
  }

  /** A counter whose name parses to a window that has ended. */
  predicate Expired(slot: string, now: nat) {
    match ParseSlot(slot)
    case Some((windowSeconds, start)) => start + windowSeconds <= now
    case None => false
  }

  function Evicted(counters: Counters, now: nat): Counters {
    map slot | slot in counters && !Expired(slot, now) :: counters[slot]
  }

  class InMemoryQuotaStore {
    var counters: Counters

    constructor ()
      ensures counters == map[]
    {
      counters := map[];
    }

    method TryConsume(key: string, amount: nat, limit: nat, windowSeconds: nat, now: nat)
      returns (outcome: QuotaOutcome)
      requires windowSeconds > 0
      modifies this
      ensures var slot := WindowedKey(key, windowSeconds, now);
              && outcome.consumed == old(Fits(counters, slot, amount, limit))
              && counters == old(Consumed(counters, slot, amount, limit))
              && outcome.usage == Usage(counters, slot)
              && outcome.limit == limit && outcome.resetsAt == WindowEnd(now, windowSeconds)
    {
      var slot := WindowedKey(key, windowSeconds, now);
      var current := Usage(counters, slot);
      var resetsAt := WindowEnd(now, windowSeconds);
      if current + amount > limit {
        return QuotaOutcome(false, current, limit, resetsAt);
      }
      var updated := current + amount;
      counters := counters[slot := updated];
      outcome := QuotaOutcome(true, updated, limit, resetsAt);
    }

    method Release(key: string, amount: nat, windowSeconds: nat, now: nat)
      requires windowSeconds > 0
      modifies this
      ensures counters == old(Released(counters, WindowedKey(key, windowSeconds, now), amount))
    {
      var slot := WindowedKey(key, windowSeconds, now);
      if slot !in counters {
        return;
      }
      var updated := counters[slot] - amount;
      if updated <= 0 {
        counters := counters - {slot};
      } else {
        counters := counters[slot := updated];
      }
    }

    method ReadUsage(key: string, windowSeconds: nat, now: nat) returns (usage: nat)
      requires windowSeconds > 0
      ensures usage == Usage(counters, WindowedKey(key, windowSeconds, now))
    {
      var slot := WindowedKey(key, windowSeconds, now);
      usage := if slot in counters then counters[slot] else 0;
    }

    method EvictExpired(now: nat) returns (evicted: nat)
      modifies this
      ensures counters == old(Evicted(counters, now))
      ensures evicted == |old(counters)| - |counters|
    {
      evicted := 0;
      var todo := counters.Keys;
      while todo != {}
        invariant todo <= counters.Keys <= old(counters.Keys)
        invariant forall slot | slot in counters :: counters[slot] == old(counters)[slot]
        invariant forall slot | slot in old(counters) && slot !in todo :: slot in counters <==> !Expired(slot, now)
        invariant evicted == |old(counters)| - |counters|
        decreases todo
      {
        var slot :| slot in todo;
        todo := todo - {slot};
        if Expired(slot, now) {
          assert |counters - {slot}| == |counters| - 1 by {
            assert (counters - {slot}).Keys == counters.Keys - {slot};
          }
          counters := counters - {slot};
          evicted := evicted + 1;
        }
      }
    }
  }

  /** An eviction drops the counters whose window has ended, and no other. */
  lemma EvictsExactly(counters: Counters, key: string, windowSeconds: nat, start: nat, now: nat)
    ensures var slot := SlotName(key, windowSeconds, start);
            slot in Evicted(counters, now) <==> slot in counters && now < start + windowSeconds
  {
    SlotNameParses(key, windowSeconds, start);
  }

  // ---------------------------------------------------------------------------------------------
  // Runs of store operations

  datatype Op =
    | TryConsume(key: string, amount: nat, limit: nat, windowSeconds: nat, now: nat)
    | Release(key: string, amount: nat, windowSeconds: nat, now: nat)
    | ReadUsage(key: string, windowSeconds: nat, now: nat)
  {
    predicate Valid() { windowSeconds > 0 }

    function Slot(): string
      requires Valid()
    {
      WindowedKey(key, windowSeconds, now)
    }

    function ResetsAt(): nat
      requires Valid()
    {
      WindowEnd(now, windowSeconds)
    }
  }

  datatype Answer = Outcome(outcome: QuotaOutcome) | UsageIs(usage: nat) | Done

  function Effect(counters: Counters, op: Op): Counters
    requires op.Valid()
  {
    match op
    case TryConsume(_, amount, limit, _, _) => Consumed(counters, op.Slot(), amount, limit)
    case Release(_, amount, _, _) => Released(counters, op.Slot(), amount)
    case ReadUsage(_, _, _) => counters
  }

  function Reply(counters: Counters, op: Op): Answer
    requires op.Valid()
  {
    match op
    case TryConsume(_, amount, limit, _, _) =>
      Outcome(QuotaOutcome(Fits(counters, op.Slot(), amount, limit), Usage(Effect(counters, op), op.Slot()), limit, op.ResetsAt()))
    case Release(_, _, _, _) => Done
    case ReadUsage(_, _, _) => UsageIs(Usage(counters, op.Slot()))
  }

  /** Every answer of a run of operations on the abstract counter map. */
  function Replies(counters: Counters, ops: seq<Op>): seq<Answer>
    requires forall op <- ops :: op.Valid()
    decreases ops
  {
    if ops == [] then []
    else [Reply(counters, ops[0])] + Replies(Effect(counters, ops[0]), ops[1..])
  }

  ghost predicate AgreeFrom(c: Counters, d: Counters, now: nat) {
    forall slot | !Expired(slot, now) :: Usage(c, slot) == Usage(d, slot)
  }

  lemma LiveSlotNotExpired(op: Op, now: nat)
    requires op.Valid() && now <= op.now
    ensures !Expired(op.Slot(), now)
  {
    SlotNameParses(op.key, op.windowSeconds, WindowStart(op.now, op.windowSeconds));
    WindowContains(op.now, op.windowSeconds);
  }

  // ---------------------------------------------------------------------------------------------
  // Evictions anywhere in a run

  datatype Event = Call(op: Op) | Evict(now: nat)

  function Later(a: nat, b: nat): nat {
    if a < b then b else a
  }

  /**
   * A consume or a read is stamped at or after every eviction before it; `latest` is the latest of those.
   * A release may name any window, however long ended, and evictions any time.
   */
  predicate Timed(events: seq<Event>, latest: nat)
    decreases events
  {
    events == []
    || match events[0]
       case Evict(now) => Timed(events[1..], Later(latest, now))
       case Call(op) => op.Valid() && (op.Release? || latest <= op.now) && Timed(events[1..], latest)
  }

  lemma {:induction false} TimedAreValid(events: seq<Event>, latest: nat)
    requires Timed(events, latest)
    ensures forall op <- CallsOf(events) :: op.Valid()
    decreases events
  {
    if events != [] {
      TimedAreValid(events[1..], if events[0].Evict? then Later(latest, events[0].now) else latest);
    }
  }

  function CallsOf(events: seq<Event>): seq<Op> {
    if events == [] then []
    else (if events[0].Call? then [events[0].op] else []) + CallsOf(events[1..])
  }

  /** The answers of the calls of a run, its evictions carried out where they stand. */
  function RepliesAmid(counters: Counters, events: seq<Event>, latest: nat): seq<Answer>
    requires Timed(events, latest)
    decreases events
  {
    if events == [] then []
    else match events[0]
      case Evict(now) => RepliesAmid(Evicted(counters, now), events[1..], Later(latest, now))
      case Call(op) => [Reply(counters, op)] + RepliesAmid(Effect(counters, op), events[1..], latest)
  }

  lemma CallsAgree(c: Counters, d: Counters, latest: nat, op: Op)
    requires op.Valid() && (op.Release? || latest <= op.now) && AgreeFrom(c, d, latest)
    ensures Reply(c, op) == Reply(d, op) && AgreeFrom(Effect(c, op), Effect(d, op), latest)
  {
    if !op.Release? {
      LiveSlotNotExpired(op, latest);
      assert Usage(c, op.Slot()) == Usage(d, op.Slot());
    }
  }

  lemma EvictionAgrees(c: Counters, d: Counters, latest: nat, now: nat)
    requires AgreeFrom(c, d, latest)
    ensures AgreeFrom(Evicted(c, now), d, Later(latest, now))
  {
    forall slot | !Expired(slot, Later(latest, now)) ensures Usage(Evicted(c, now), slot) == Usage(d, slot) {
      assert !Expired(slot, latest) && !Expired(slot, now);
    }
  }

  lemma {:induction false} AgreementAnswersAlike(c: Counters, d: Counters, latest: nat, events: seq<Event>)
    requires Timed(events, latest) && AgreeFrom(c, d, latest)
    requires forall op <- CallsOf(events) :: op.Valid()
    ensures RepliesAmid(c, events, latest) == Replies(d, CallsOf(events))
    decreases events
  {
    if events != [] {
      var rest := events[1..];
      match events[0]
      case Evict(now) =>
        EvictionAgrees(c, d, latest, now);
        AgreementAnswersAlike(Evicted(c, now), d, Later(latest, now), rest);
        assert CallsOf(events) == CallsOf(rest);
      case Call(op) =>
        CallsAgree(c, d, latest, op);
        assert CallsOf(events) == [op] + CallsOf(rest);
        assert CallsOf(events)[1..] == CallsOf(rest);
        AgreementAnswersAlike(Effect(c, op), Effect(d, op), latest, rest);
    }
  }

  /**
   * Evictions anywhere in a run change none of its answers: consumes and reads need only a clock at or after
   * the evictions before them, and releases, such as the true-ups of past windows, none at all.
   */
  lemma EvictionChangesNoAnswer(counters: Counters, events: seq<Event>)
    requires Timed(events, 0)
    ensures forall op <- CallsOf(events) :: op.Valid()
    ensures RepliesAmid(counters, events, 0) == Replies(counters, CallsOf(events))
  {
    TimedAreValid(events, 0);
    AgreementAnswersAlike(counters, counters, 0, events);
  }

  /**
   * A run that still writes to an ended window can be answered differently after an eviction: here a
   * request stamped at second 0 arrives after an eviction stamped at second 1 and is granted twice.
   */
  lemma EvictionVisibleToEarlierClock()
    ensures var full := map[WindowedKey("k", 1, 0) := 1 as nat];
            var late := [TryConsume("k", 1, 1, 1, 0)];
            Replies(Evicted(full, 1), late) != Replies(full, late)
  {
    var slot := WindowedKey("k", 1, 0);
    var full := map[slot := 1 as nat];
    var late := [TryConsume("k", 1, 1, 1, 0)];
    SlotNameParses("k", 1, 0);
    assert slot == SlotName("k", 1, 0);
    assert slot !in Evicted(full, 1);
    assert Replies(Evicted(full, 1), late)[0] == Reply(Evicted(full, 1), late[0]);
    assert Replies(full, late)[0] == Reply(full, late[0]);
    assert Reply(Evicted(full, 1), late[0]).outcome.consumed && !Reply(full, late[0]).outcome.consumed;
  }
}
