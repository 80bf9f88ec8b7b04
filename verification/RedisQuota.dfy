/**
 * The shared store (redisQuotaStore.ts): two Lua scripts over keys that carry a time to live.
 * Each script is one atomic step taken at the server's own clock.
 */
module RedisQuota {
  import opened Text
  import opened Windows
  import opened QuotaStores

  const TTL_BUFFER_SECONDS := 60

  /** `tostring` of a Lua number switches to exponent notation at 15 digits, which `BigInt` rejects. */
  const LUA_EXACT_LIMIT := 100_000_000_000_000

  datatype Entry = Entry(value: nat, expiresAt: Option<nat>)

  type Keys = map<string, Entry>

  predicate Live(keys: Keys, slot: string, clock: nat) {
    slot in keys && (keys[slot].expiresAt.Some? ==> clock < keys[slot].expiresAt.value)
  }

  /** `tonumber(redis.call('GET', KEYS[1])) or 0` */
  function Current(keys: Keys, slot: string, clock: nat): nat {
    if Live(keys, slot, clock) then keys[slot].value else 0
  }

  /** INCRBY keeps the expiry of a live key; EXPIRE .. NX arms one only where there is none. */
  function AfterConsume(keys: Keys, slot: string, amount: nat, limit: nat, ttl: nat, clock: nat): Keys {
    if Current(keys, slot, clock) + amount > limit then keys
    else
      var armed := if Live(keys, slot, clock) && keys[slot].expiresAt.Some? then keys[slot].expiresAt else Some(clock + ttl);
      keys[slot := Entry(Current(keys, slot, clock) + amount, armed)]
  }

  function AfterRelease(keys: Keys, slot: string, amount: nat, clock: nat): Keys {
    var current := Current(keys, slot, clock);
    if current <= amount then keys - {slot}
    else keys[slot := keys[slot].(value := current - amount)]
  }

  function Ttl(windowSeconds: nat, now: nat): nat
    requires windowSeconds > 0
  {
    var left := WindowEnd(now, windowSeconds) - now + TTL_BUFFER_SECONDS;
    if left < 1 then 1 else left
  }

  /** The number the client reads back; `None` where parsing the reply throws. */
  function ReadBack(n: nat): Option<nat> {
    if n < LUA_EXACT_LIMIT then Some(n) else None
  }

  function KeysAfter(keys: Keys, op: Op, clock: nat): Keys
    requires op.Valid()
  {
    match op
    case TryConsume(_, amount, limit, windowSeconds, now) =>
      AfterConsume(keys, op.Slot(), amount, limit, Ttl(windowSeconds, now), clock)
    case Release(_, amount, _, _) => AfterRelease(keys, op.Slot(), amount, clock)
    case ReadUsage(_, _, _) => keys
  }

  /** What the caller is told; `None` stands for a thrown error. */
  function ScriptReply(keys: Keys, op: Op, clock: nat): Option<Answer>
    requires op.Valid()
  {
    match op
    case TryConsume(_, amount, limit, _, _) =>
      (match ReadBack(Current(KeysAfter(keys, op, clock), op.Slot(), clock))
       case Some(usage) =>
         Some(Outcome(QuotaOutcome(Current(keys, op.Slot(), clock) + amount <= limit, usage, limit, op.ResetsAt())))
       case None => None)
    case Release(_, _, _, _) => Some(Done)
    case ReadUsage(_, _, _) => Some(UsageIs(Current(keys, op.Slot(), clock)))
  }

  class RedisQuotaStore {
    var keys: Keys

    constructor ()
      ensures keys == map[]
    {
      keys := map[];
    }

    method TryConsume(key: string, amount: nat, limit: nat, windowSeconds: nat, now: nat, clock: nat)
      returns (outcome: Option<QuotaOutcome>)
      requires windowSeconds > 0
      modifies this
      ensures var op := Op.TryConsume(key, amount, limit, windowSeconds, now);
              && keys == old(KeysAfter(keys, op, clock))
              && old(ScriptReply(keys, op, clock)) == (if outcome.Some? then Some(Outcome(outcome.value)) else None)
    {
      var slot := WindowedKey(key, windowSeconds, now);
      var resetsAt := WindowEnd(now, windowSeconds);
      WindowContains(now, windowSeconds);
      var ttl := if resetsAt - now + TTL_BUFFER_SECONDS < 1 then 1 else resetsAt - now + TTL_BUFFER_SECONDS;
      var current := Current(keys, slot, clock);
      var granted := current + amount <= limit;
      if granted {
        var armed := if Live(keys, slot, clock) then keys[slot].expiresAt else None;   // INCRBY
        if armed.None? {
          armed := Some(clock + ttl);                                                  // EXPIRE .. NX
        }
        current := current + amount;
        keys := keys[slot := Entry(current, armed)];
      }
      match ReadBack(current)
      case Some(usage) => outcome := Some(QuotaOutcome(granted, usage, limit, resetsAt));
      case None => outcome := None;
    }

    method Release(key: string, amount: nat, windowSeconds: nat, now: nat, clock: nat)
      requires windowSeconds > 0
      modifies this
      ensures keys == old(KeysAfter(keys, Op.Release(key, amount, windowSeconds, now), clock))
    {
      var slot := WindowedKey(key, windowSeconds, now);
      var current := Current(keys, slot, clock);
      if current <= amount {
        keys := keys - {slot};
      } else {
        keys := keys[slot := keys[slot].(value := current - amount)];
      }
    }
  }

  // ---------------------------------------------------------------------------------------------
  // Refinement of the counter map

  datatype Command = Command(op: Op, clock: nat)

  /**
   * The server's clock never goes back, limits are below the exact range, and the delay plus clock
   * skew between a caller's `now` and the script's own time varies by at most the TTL buffer.
   * Releases may arrive arbitrarily late: the reconciler sends them for windows long past.
   */
  ghost predicate TimelyCall(call: Command, from: nat, skew: int) {
    && call.op.Valid()
    && from <= call.clock
    && (call.op.TryConsume? ==> call.op.limit < LUA_EXACT_LIMIT)
    && (!call.op.Release? ==> skew <= call.clock - call.op.now <= skew + TTL_BUFFER_SECONDS)
  }

  ghost predicate Timely(calls: seq<Command>, from: nat, skew: int) {
    calls == [] || (TimelyCall(calls[0], from, skew) && Timely(calls[1..], calls[0].clock, skew))
  }

  /** The last server instant at which a timely call on `slot` can still arrive. */
  ghost function Deadline(slot: string, skew: int): int {
    match ParseSlot(slot)
    case Some((windowSeconds, start)) => start + windowSeconds + skew + TTL_BUFFER_SECONDS
    case None => 0
  }

  /** Every key carries an expiry no earlier than it is due; until then both stores agree on it. */
  ghost predicate Related(keys: Keys, counters: Counters, clock: nat, due: string -> int) {
    && (forall slot | slot in keys :: keys[slot].expiresAt.Some? && due(slot) <= keys[slot].expiresAt.value)
    && (forall slot | clock < due(slot) :: Current(keys, slot, clock) == Usage(counters, slot) < LUA_EXACT_LIMIT)
  }

  lemma RelatedLater(keys: Keys, counters: Counters, before: nat, clock: nat, due: string -> int)
    requires before <= clock && Related(keys, counters, before, due)
    ensures Related(keys, counters, clock, due)
  {
    forall slot | clock < due(slot)
      ensures Current(keys, slot, clock) == Usage(counters, slot) < LUA_EXACT_LIMIT
    {
      assert Current(keys, slot, before) == Usage(counters, slot) < LUA_EXACT_LIMIT;
    }
  }

  lemma ConsumeKeepsRelated(keys: Keys, counters: Counters, slot: string, amount: nat, limit: nat, ttl: nat,
                            clock: nat, due: string -> int)
    requires Related(keys, counters, clock, due)
    requires limit < LUA_EXACT_LIMIT && clock < due(slot) <= clock + ttl
    ensures Related(AfterConsume(keys, slot, amount, limit, ttl, clock), Consumed(counters, slot, amount, limit), clock, due)
    ensures Current(keys, slot, clock) == Usage(counters, slot)
    ensures Current(AfterConsume(keys, slot, amount, limit, ttl, clock), slot, clock)
            == Usage(Consumed(counters, slot, amount, limit), slot) < LUA_EXACT_LIMIT
  {
    assert Current(keys, slot, clock) == Usage(counters, slot) < LUA_EXACT_LIMIT;
    var keys', counters' := AfterConsume(keys, slot, amount, limit, ttl, clock), Consumed(counters, slot, amount, limit);
    forall other | clock < due(other)
      ensures Current(keys', other, clock) == Usage(counters', other) < LUA_EXACT_LIMIT
    {
      assert Current(keys, other, clock) == Usage(counters, other) < LUA_EXACT_LIMIT;
    }
  }

  lemma ReleaseKeepsRelated(keys: Keys, counters: Counters, slot: string, amount: nat, clock: nat, due: string -> int)
    requires Related(keys, counters, clock, due)
    ensures Related(AfterRelease(keys, slot, amount, clock), Released(counters, slot, amount), clock, due)
  {
    var keys', counters' := AfterRelease(keys, slot, amount, clock), Released(counters, slot, amount);
    forall other | clock < due(other)
      ensures Current(keys', other, clock) == Usage(counters', other) < LUA_EXACT_LIMIT
    {
      assert Current(keys, other, clock) == Usage(counters, other) < LUA_EXACT_LIMIT;
    }
  }

  lemma SlotDeadline(op: Op, skew: int)
    requires op.Valid()
    ensures Deadline(op.Slot(), skew) == op.ResetsAt() + skew + TTL_BUFFER_SECONDS
    ensures op.now < op.ResetsAt()
  {
    SlotNameParses(op.key, op.windowSeconds, WindowStart(op.now, op.windowSeconds));
    WindowContains(op.now, op.windowSeconds);
  }

  lemma CallKeepsRelated(keys: Keys, counters: Counters, before: nat, call: Command, skew: int, due: string -> int)
    requires TimelyCall(call, before, skew)
    requires due(call.op.Slot()) == Deadline(call.op.Slot(), skew)
    requires Related(keys, counters, before, due)
    ensures Related(KeysAfter(keys, call.op, call.clock), Effect(counters, call.op), call.clock, due)
    ensures ScriptReply(keys, call.op, call.clock) == Some(Reply(counters, call.op))
  {
    var op, slot, clock := call.op, call.op.Slot(), call.clock;
    SlotDeadline(op, skew);
    RelatedLater(keys, counters, before, clock, due);
    match op
    case TryConsume(_, amount, limit, windowSeconds, now) =>
      ConsumeKeepsRelated(keys, counters, slot, amount, limit, Ttl(windowSeconds, now), clock, due);
    case Release(_, amount, _, _) =>
      ReleaseKeepsRelated(keys, counters, slot, amount, clock, due);
    case ReadUsage(_, _, _) =>
      assert Current(keys, slot, clock) == Usage(counters, slot);
  }

  /** Every answer of a run of calls, `None` for a call that throws. */
  function RedisReplies(keys: Keys, calls: seq<Command>): seq<Option<Answer>>
    requires forall call <- calls :: call.op.Valid()
    decreases calls
  {
    if calls == [] then []
    else
      var call := calls[0];
      [ScriptReply(keys, call.op, call.clock)] + RedisReplies(KeysAfter(keys, call.op, call.clock), calls[1..])
  }

  function Answered(answers: seq<Answer>): seq<Option<Answer>> {
    seq(|answers|, i requires 0 <= i < |answers| => Some(answers[i]))
  }

  function OpsOf(calls: seq<Command>): seq<Op> {
    seq(|calls|, i requires 0 <= i < |calls| => calls[i].op)
  }

  lemma {:induction false} RelatedAnswersAlike(keys: Keys, counters: Counters, from: nat, calls: seq<Command>,
                                               skew: int, due: string -> int)
    requires Timely(calls, from, skew) && Related(keys, counters, from, due)
    requires forall slot :: due(slot) == Deadline(slot, skew)
    requires forall call <- calls :: call.op.Valid()
    requires forall op <- OpsOf(calls) :: op.Valid()
    ensures RedisReplies(keys, calls) == Answered(Replies(counters, OpsOf(calls)))
    decreases calls
  {
    if calls != [] {
      var call, ops := calls[0], OpsOf(calls);
      CallKeepsRelated(keys, counters, from, call, skew, due);
      var keys', counters' := KeysAfter(keys, call.op, call.clock), Effect(counters, call.op);
      assert ops[1..] == OpsOf(calls[1..]);
      RelatedAnswersAlike(keys', counters', call.clock, calls[1..], skew, due);
      AnsweredCons(Reply(counters, call.op), Replies(counters', ops[1..]));
    }
  }

  lemma AnsweredCons(first: Answer, rest: seq<Answer>)
    ensures Answered([first] + rest) == [Some(first)] + Answered(rest)
  {
  }

  /** On a fresh server, every timely run is answered exactly as the counter map answers it. */
  lemma RedisRefinesCounters(calls: seq<Command>, from: nat, skew: int)
    requires Timely(calls, from, skew)
    requires forall call <- calls :: call.op.Valid()
    requires forall op <- OpsOf(calls) :: op.Valid()
    ensures RedisReplies(map[], calls) == Answered(Replies(map[], OpsOf(calls)))
  {
    RelatedAnswersAlike(map[], map[], from, calls, skew, slot => Deadline(slot, skew));
  }

  function KeysAfterAll(keys: Keys, calls: seq<Command>): Keys
    requires forall call <- calls :: call.op.Valid()
    decreases calls
  {
    if calls == [] then keys else KeysAfterAll(KeysAfter(keys, calls[0].op, calls[0].clock), calls[1..])
  }

  /** No run of scripts, timely or not, leaves a key without a time to live. */
  lemma {:induction false} EveryKeyExpires(keys: Keys, calls: seq<Command>)
    requires forall call <- calls :: call.op.Valid()
    requires forall slot | slot in keys :: keys[slot].expiresAt.Some?
    ensures forall slot | slot in KeysAfterAll(keys, calls) :: KeysAfterAll(keys, calls)[slot].expiresAt.Some?
    decreases calls
  {
    if calls != [] {
      EveryKeyExpires(KeysAfter(keys, calls[0].op, calls[0].clock), calls[1..]);
    }
  }

  lemma RepliesOfTwo(op: Op, first: nat, second: nat)
    requires op.Valid()
    ensures RedisReplies(map[], [Command(op, first), Command(op, second)])
            == [ScriptReply(map[], op, first), ScriptReply(KeysAfter(map[], op, first), op, second)]
    ensures Answered(Replies(map[], [op, op])) == [Some(Reply(map[], op)), Some(Reply(Effect(map[], op), op))]
  {
    var later := [Command(op, second)];
    assert [Command(op, first), Command(op, second)][1..] == later && later[1..] == [];
    assert RedisReplies(KeysAfter(map[], op, first), later) == [ScriptReply(KeysAfter(map[], op, first), op, second)] + [];
    assert [op, op][1..] == [op] && [op][1..] == [];
    assert Replies(Effect(map[], op), [op]) == [Reply(Effect(map[], op), op)] + [];
    assert Replies(map[], [op, op]) == [Reply(map[], op), Reply(Effect(map[], op), op)];
  }

  /** One second past the buffer is too late: a limit of 1 is granted twice in one window. */
  lemma BufferIsExact(op: Op)
    requires op == TryConsume("k", 1, 1, 1, 0)
    ensures RedisReplies(map[], [Command(op, 0), Command(op, 61)]) != Answered(Replies(map[], [op, op]))
  {
    RepliesOfTwo(op, 0, 61);
    WindowContains(0, 1);
    var slot := op.Slot();
    var once := AfterConsume(map[], slot, 1, 1, Ttl(1, 0), 0);
    var counted := Consumed(map[], slot, 1, 1);
    assert KeysAfter(map[], op, 0) == once && Effect(map[], op) == counted;
    assert Current(once, slot, 61) == 0 && Usage(counted, slot) == 1;
    assert !Reply(counted, op).outcome.consumed;
    assert ScriptReply(once, op, 61).Some? ==> ScriptReply(once, op, 61).value.outcome.consumed;
  }
}
