/** Throttling and blocking by IP before authentication, on the shared counters (ipThrottle.ts). */
module IpThrottle {
  import opened Text
  import opened Windows
  import opened QuotaStores

  const FAILURE_COUNTER_CEILING: nat := 1_000_000

  datatype ThrottleOptions = ThrottleOptions(
    requestsPerWindow: nat, windowSeconds: nat, authFailureThreshold: nat, blockWindowSeconds: nat)
  {
    predicate Valid() { windowSeconds > 0 && blockWindowSeconds > 0 }
  }

  datatype IpDecision = Allowed | Throttled(retryAfterSeconds: int) | Blocked(retryAfterSeconds: int)

  function RateKey(ip: string): string {
    "sec:iprate:" + ip
  }

  function FailKey(ip: string): string {
    "sec:ipfail:" + ip
  }

  function RateSlot(ip: string, now: nat, o: ThrottleOptions): string
    requires o.Valid()
  {
    WindowedKey(RateKey(ip), o.windowSeconds, now)
  }

  function FailSlot(ip: string, now: nat, o: ThrottleOptions): string
    requires o.Valid()
  {
    WindowedKey(FailKey(ip), o.blockWindowSeconds, now)
  }

  function AtLeastOne(n: int): int {
    if n < 1 then 1 else n
  }

  function RetryAfter(now: nat, windowSeconds: nat): int
    requires windowSeconds > 0
  {
    AtLeastOne(WindowEnd(now, windowSeconds) - now)
  }

  class IpThrottle {
    const store: InMemoryQuotaStore
    const options: ThrottleOptions
    /** The IPs the alerter was told of, in order. */
    var alerts: seq<string>

    constructor (store: InMemoryQuotaStore, options: ThrottleOptions)
      ensures this.store == store && this.options == options && alerts == []
    {
      this.store, this.options, alerts := store, options, [];
    }

    method IsBlocked(ip: string, now: nat) returns (blocked: bool)
      requires options.Valid()
      ensures blocked == IsBlockedBy(store.counters, FailSlot(ip, now, options), options)
    {
      var failures := store.ReadUsage(FailKey(ip), options.blockWindowSeconds, now);
      return failures >= options.authFailureThreshold;
    }

    /** The block first, so that a blocked IP spends no rate token. */
    method Check(ip: string, now: nat) returns (decision: IpDecision)
      requires options.Valid()
      modifies store
      ensures var fail, rate := FailSlot(ip, now, options), RateSlot(ip, now, options);
              if IsBlockedBy(old(store.counters), fail, options) then
                store.counters == old(store.counters) && decision == Blocked(RetryAfter(now, options.blockWindowSeconds))
              else
                && store.counters == Consumed(old(store.counters), rate, 1, options.requestsPerWindow)
                && decision == (if Fits(old(store.counters), rate, 1, options.requestsPerWindow) then Allowed
                                else Throttled(RetryAfter(now, options.windowSeconds)))
    {
      var blocked := IsBlocked(ip, now);
      if blocked {
        return Blocked(RetryAfter(now, options.blockWindowSeconds));
      }
      var outcome := store.TryConsume(RateKey(ip), 1, options.requestsPerWindow, options.windowSeconds, now);
      if !outcome.consumed {
        return Throttled(AtLeastOne(outcome.resetsAt - now));
      }
      return Allowed;
    }

    method RecordAuthFailure(ip: string, now: nat)
      requires options.Valid()
      modifies this, store
      ensures var slot := FailSlot(ip, now, options);
              && store.counters == Consumed(old(store.counters), slot, 1, FAILURE_COUNTER_CEILING)
              && alerts == if Alerts(old(store.counters), slot, options) then old(alerts) + [ip] else old(alerts)
    {
      var outcome := store.TryConsume(FailKey(ip), 1, FAILURE_COUNTER_CEILING, options.blockWindowSeconds, now);
      if outcome.usage == options.authFailureThreshold {
        alerts := alerts + [ip];
      }
    }
  }

  predicate IsBlockedBy(counters: Counters, failSlot: string, o: ThrottleOptions) {
    Usage(counters, failSlot) >= o.authFailureThreshold
  }

  /** A failure alerts when the count it leaves is the threshold. */
  predicate Alerts(counters: Counters, failSlot: string, o: ThrottleOptions) {
    Usage(Consumed(counters, failSlot, 1, FAILURE_COUNTER_CEILING), failSlot) == o.authFailureThreshold
  }

  // ---------------------------------------------------------------------------------------------
  // Every interleaving of checks and failures over replicas that share the counters

  /** A check that was not blocked and has not spent its token yet. */
  datatype Pending = Pending(ip: string, now: nat)

  datatype Throttle = Throttle(counters: Counters, pending: seq<Pending>)

  datatype Step = BeginCheck(ip: string, now: nat)
                | FinishCheck(index: nat)
                | Failure(ip: string, now: nat)
                | Elsewhere(slot: string, value: nat)

  /** Other users of the store keep out of this prefix. */
  predicate Enabled(t: Throttle, step: Step) {
    match step
    case BeginCheck(_, _) => true
    case FinishCheck(index) => index < |t.pending|
    case Failure(_, _) => true
    case Elsewhere(slot, _) => !("sec:ip" <= slot)
  }

  function Apply(t: Throttle, step: Step, o: ThrottleOptions): Throttle
    requires o.Valid() && Enabled(t, step)
  {
    match step
    case BeginCheck(ip, now) =>
      if IsBlockedBy(t.counters, FailSlot(ip, now, o), o) then t else t.(pending := t.pending + [Pending(ip, now)])
    case FinishCheck(index) =>
      var check := t.pending[index];
      Throttle(Consumed(t.counters, RateSlot(check.ip, check.now, o), 1, o.requestsPerWindow),
               t.pending[..index] + t.pending[index + 1..])
    case Failure(ip, now) => t.(counters := Consumed(t.counters, FailSlot(ip, now, o), 1, FAILURE_COUNTER_CEILING))
    case Elsewhere(slot, value) => t.(counters := t.counters[slot := value])
  }

  ghost predicate ValidRun(steps: seq<Step>, o: ThrottleOptions)
    requires o.Valid()
    decreases |steps|, 0
  {
    steps == [] || (ValidRun(steps[..|steps| - 1], o) && Enabled(After(steps[..|steps| - 1], o), steps[|steps| - 1]))
  }

  ghost function After(steps: seq<Step>, o: ThrottleOptions): Throttle
    requires o.Valid() && ValidRun(steps, o)
    decreases |steps|, 1
  {
    if steps == [] then Throttle(map[], []) else Apply(After(steps[..|steps| - 1], o), steps[|steps| - 1], o)
  }

  /** How many failures a run records under one failure slot. */
  function Failures(steps: seq<Step>, slot: string, o: ThrottleOptions): nat
    requires o.Valid()
  {
    if steps == [] then 0
    else
      var last := steps[|steps| - 1];
      Failures(steps[..|steps| - 1], slot, o) + if last.Failure? && FailSlot(last.ip, last.now, o) == slot then 1 else 0
  }

  /** How many of them alert. */
  ghost function AlertCount(steps: seq<Step>, slot: string, o: ThrottleOptions): nat
    requires o.Valid() && ValidRun(steps, o)
  {
    if steps == [] then 0
    else
      var last := steps[|steps| - 1];
      AlertCount(steps[..|steps| - 1], slot, o)
      + if last.Failure? && FailSlot(last.ip, last.now, o) == slot && Alerts(After(steps[..|steps| - 1], o).counters, slot, o) then 1 else 0
  }

  /** How many checks a run allows under one rate slot. */
  ghost function AllowedCount(steps: seq<Step>, slot: string, o: ThrottleOptions): nat
    requires o.Valid() && ValidRun(steps, o)
  {
    if steps == [] then 0
    else
      var before, last := After(steps[..|steps| - 1], o), steps[|steps| - 1];
      AllowedCount(steps[..|steps| - 1], slot, o)
      + if last.FinishCheck? && RateSlot(before.pending[last.index].ip, before.pending[last.index].now, o) == slot
           && Fits(before.counters, slot, 1, o.requestsPerWindow) then 1 else 0
  }

  /** How many checks of one IP that were stamped in one window a run lets through to their token. */
  ghost function AskedIn(steps: seq<Step>, ip: string, start: nat, o: ThrottleOptions): nat
    requires o.Valid() && ValidRun(steps, o)
  {
    if steps == [] then 0
    else
      var before, last := After(steps[..|steps| - 1], o), steps[|steps| - 1];
      AskedIn(steps[..|steps| - 1], ip, start, o)
      + if last.FinishCheck? && before.pending[last.index].ip == ip && WindowStart(before.pending[last.index].now, o.windowSeconds) == start
        then 1 else 0
  }

  function Capped(n: nat): nat {
    if n < FAILURE_COUNTER_CEILING then n else FAILURE_COUNTER_CEILING
  }

  /** The alerts `n` failures of one window raise, whatever the threshold. */
  function AlertsOf(n: nat, threshold: nat): nat {
    if threshold == 0 || threshold > FAILURE_COUNTER_CEILING || n < threshold then 0
    else if threshold < FAILURE_COUNTER_CEILING then 1
    else n - FAILURE_COUNTER_CEILING + 1
  }

  lemma SlotsSecured(key: string, windowSeconds: nat, start: nat)
    requires "sec:ip" <= key
    ensures "sec:ip" <= SlotName(key, windowSeconds, start)
  {
  }

  lemma RateIsNotFail(ip: string, now: nat, other: string, at: nat, o: ThrottleOptions)
    requires o.Valid()
    ensures RateSlot(ip, now, o) != FailSlot(other, at, o)
    ensures "sec:ip" <= RateSlot(ip, now, o) && "sec:ip" <= FailSlot(other, at, o)
  {
    var rate, fail := RateKey(ip), FailKey(other);
    assert rate[6] == 'r' && fail[6] == 'f';
    SlotsSecured(rate, o.windowSeconds, WindowStart(now, o.windowSeconds));
    SlotsSecured(fail, o.blockWindowSeconds, WindowStart(at, o.blockWindowSeconds));
    if RateSlot(ip, now, o) == FailSlot(other, at, o) {
      SlotNameInjective(rate, o.windowSeconds, WindowStart(now, o.windowSeconds), fail, o.blockWindowSeconds, WindowStart(at, o.blockWindowSeconds));
    }
  }

  /** A failure slot is one IP in one window. */
  lemma FailSlotIsOneWindow(ip: string, now: nat, other: string, at: nat, o: ThrottleOptions)
    requires o.Valid()
    ensures FailSlot(ip, now, o) == FailSlot(other, at, o)
            <==> ip == other && WindowStart(now, o.blockWindowSeconds) == WindowStart(at, o.blockWindowSeconds)
  {
    var a, b := FailKey(ip), FailKey(other);
    assert a[11..] == ip && b[11..] == other;
    if FailSlot(ip, now, o) == FailSlot(other, at, o) {
      SlotNameInjective(a, o.blockWindowSeconds, WindowStart(now, o.blockWindowSeconds), b, o.blockWindowSeconds, WindowStart(at, o.blockWindowSeconds));
    }
  }

  /** How many failures a run records of one IP in one window. */
  function FailuresIn(steps: seq<Step>, ip: string, start: nat, o: ThrottleOptions): nat
    requires o.Valid()
  {
    if steps == [] then 0
    else
      var last := steps[|steps| - 1];
      FailuresIn(steps[..|steps| - 1], ip, start, o)
      + if last.Failure? && last.ip == ip && WindowStart(last.now, o.blockWindowSeconds) == start then 1 else 0
  }

  lemma {:induction false} FailuresAreCounted(steps: seq<Step>, ip: string, now: nat, o: ThrottleOptions)
    requires o.Valid()
    ensures Failures(steps, FailSlot(ip, now, o), o) == FailuresIn(steps, ip, WindowStart(now, o.blockWindowSeconds), o)
  {
    if steps != [] {
      var last := steps[|steps| - 1];
      FailuresAreCounted(steps[..|steps| - 1], ip, now, o);
      if last.Failure? {
        FailSlotIsOneWindow(last.ip, last.now, ip, now, o);
      }
    }
  }

  /** The counters hold exactly the failures recorded and the checks allowed. */
  ghost predicate Counts(steps: seq<Step>, fail: string, rate: string, o: ThrottleOptions)
    requires o.Valid() && ValidRun(steps, o)
  {
    && Usage(After(steps, o).counters, fail) == Capped(Failures(steps, fail, o))
    && Usage(After(steps, o).counters, rate) == AllowedCount(steps, rate, o) <= o.requestsPerWindow
    && AlertCount(steps, fail, o) == AlertsOf(Failures(steps, fail, o), o.authFailureThreshold)
  }

  lemma StepCounts(steps: seq<Step>, ip: string, now: nat, fail: string, rate: string, o: ThrottleOptions)
    requires o.Valid() && steps != [] && ValidRun(steps, o)
    requires fail == FailSlot(ip, now, o) && rate == RateSlot(ip, now, o)
    requires Counts(steps[..|steps| - 1], fail, rate, o)
    ensures Counts(steps, fail, rate, o)
  {
    var before, last := After(steps[..|steps| - 1], o), steps[|steps| - 1];
    match last
    case BeginCheck(_, _) =>
    case FinishCheck(index) => RateIsNotFail(before.pending[index].ip, before.pending[index].now, ip, now, o);
    case Failure(other, at) => RateIsNotFail(ip, now, other, at, o);
    case Elsewhere(_, _) => RateIsNotFail(ip, now, ip, now, o);
  }

  lemma {:induction false} RunCounts(steps: seq<Step>, ip: string, now: nat, o: ThrottleOptions)
    requires o.Valid() && ValidRun(steps, o)
    ensures Counts(steps, FailSlot(ip, now, o), RateSlot(ip, now, o), o)
  {
    if steps != [] {
      RunCounts(steps[..|steps| - 1], ip, now, o);
      StepCounts(steps, ip, now, FailSlot(ip, now, o), RateSlot(ip, now, o), o);
    }
  }

  /**
   * Over any interleaving, an IP gets one alert in a window if and only if its failures there reach the
   * threshold, for thresholds below the counter's ceiling; and allowed checks stay within the rate limit.
   */
  lemma AlertsExactlyOnce(steps: seq<Step>, ip: string, now: nat, o: ThrottleOptions)
    requires o.Valid() && ValidRun(steps, o)
    requires 1 <= o.authFailureThreshold < FAILURE_COUNTER_CEILING
    ensures AlertCount(steps, FailSlot(ip, now, o), o)
            == if FailuresIn(steps, ip, WindowStart(now, o.blockWindowSeconds), o) >= o.authFailureThreshold then 1 else 0
    ensures AllowedCount(steps, RateSlot(ip, now, o), o) <= o.requestsPerWindow
  {
    FailuresAreCounted(steps, ip, now, o);
    RunCounts(steps, ip, now, o);
  }

  /** A rate slot is one IP in one window. */
  lemma RateSlotIsOneWindow(ip: string, now: nat, other: string, at: nat, o: ThrottleOptions)
    requires o.Valid()
    ensures RateSlot(ip, now, o) == RateSlot(other, at, o)
            <==> ip == other && WindowStart(now, o.windowSeconds) == WindowStart(at, o.windowSeconds)
  {
    var a, b := RateKey(ip), RateKey(other);
    assert a[11..] == ip && b[11..] == other;
    if RateSlot(ip, now, o) == RateSlot(other, at, o) {
      SlotNameInjective(a, o.windowSeconds, WindowStart(now, o.windowSeconds), b, o.windowSeconds, WindowStart(at, o.windowSeconds));
    }
  }

  /** Of the checks of a window that get past the block, the first `requestsPerWindow` are allowed and no other. */
  lemma {:induction false} AllowedExactly(steps: seq<Step>, ip: string, now: nat, o: ThrottleOptions)
    requires o.Valid() && ValidRun(steps, o)
    ensures var asked := AskedIn(steps, ip, WindowStart(now, o.windowSeconds), o);
            AllowedCount(steps, RateSlot(ip, now, o), o) == if asked <= o.requestsPerWindow then asked else o.requestsPerWindow
  {
    if steps == [] {
    } else {
      var before, last := After(steps[..|steps| - 1], o), steps[|steps| - 1];
      AllowedExactly(steps[..|steps| - 1], ip, now, o);
      RunCounts(steps[..|steps| - 1], ip, now, o);
      if last.FinishCheck? {
        RateSlotIsOneWindow(before.pending[last.index].ip, before.pending[last.index].now, ip, now, o);
      }
    }
  }

  /** Once the failures of a window reach the threshold every check that begins in it is refused, and none before. */
  lemma BlockedExactly(steps: seq<Step>, ip: string, now: nat, o: ThrottleOptions)
    requires o.Valid() && ValidRun(steps, o) && o.authFailureThreshold <= FAILURE_COUNTER_CEILING
    ensures After(steps + [BeginCheck(ip, now)], o).pending == After(steps, o).pending
            <==> FailuresIn(steps, ip, WindowStart(now, o.blockWindowSeconds), o) >= o.authFailureThreshold
  {
    FailuresAreCounted(steps, ip, now, o);
    RunCounts(steps, ip, now, o);
    assert (steps + [BeginCheck(ip, now)])[..|steps|] == steps;
  }

  /** `n` failures of one IP at one moment. */
  function FailureRun(ip: string, now: nat, n: nat): seq<Step> {
    if n == 0 then [] else FailureRun(ip, now, n - 1) + [Failure(ip, now)]
  }

  ghost predicate FailsTimes(steps: seq<Step>, slot: string, n: nat, o: ThrottleOptions)
    requires o.Valid()
  {
    ValidRun(steps, o) && Failures(steps, slot, o) == n
  }

  lemma OneMoreFailure(steps: seq<Step>, ip: string, now: nat, slot: string, n: nat, o: ThrottleOptions)
    requires o.Valid() && FailsTimes(steps, slot, n, o) && slot == FailSlot(ip, now, o)
    ensures FailsTimes(steps + [Failure(ip, now)], slot, n + 1, o)
  {
    var more := steps + [Failure(ip, now)];
    assert more[..|more| - 1] == steps;
  }

  lemma {:induction false} FailureRunIsRun(ip: string, now: nat, slot: string, n: nat, o: ThrottleOptions)
    requires o.Valid() && slot == FailSlot(ip, now, o)
    ensures FailsTimes(FailureRun(ip, now, n), slot, n, o)
    decreases n
  {
    if n == 0 {
      assert FailureRun(ip, now, n) == [];
    } else {
      FailureRunIsRun(ip, now, slot, n - 1, o);
      OneMoreFailure(FailureRun(ip, now, n - 1), ip, now, slot, n - 1, o);
    }
  }

  /** In a run the IP's window raises one alert once its failures reach the threshold, and none before. */
  ghost predicate OneAlertIn(steps: seq<Step>, ip: string, now: nat, o: ThrottleOptions)
    requires o.Valid()
  {
    ValidRun(steps, o) ==>
      AlertCount(steps, FailSlot(ip, now, o), o)
      == if FailuresIn(steps, ip, WindowStart(now, o.blockWindowSeconds), o) >= o.authFailureThreshold then 1 else 0
  }

  /** Every run alerts exactly once per window if and only if the threshold is at least one and below the counter's ceiling. */
  lemma OneAlertExactly(ip: string, now: nat, o: ThrottleOptions)
    requires o.Valid()
    ensures (forall steps :: OneAlertIn(steps, ip, now, o)) <==> 1 <= o.authFailureThreshold < FAILURE_COUNTER_CEILING
  {
    if 1 <= o.authFailureThreshold < FAILURE_COUNTER_CEILING {
      forall steps ensures OneAlertIn(steps, ip, now, o) {
        if ValidRun(steps, o) {
          AlertsExactlyOnce(steps, ip, now, o);
        }
      }
    } else {
      var n := if o.authFailureThreshold == FAILURE_COUNTER_CEILING then FAILURE_COUNTER_CEILING + 1 else o.authFailureThreshold;
      var steps := FailureRun(ip, now, n);
      FailureRunIsRun(ip, now, FailSlot(ip, now, o), n, o);
      FailuresAreCounted(steps, ip, now, o);
      RunCounts(steps, ip, now, o);
      assert !OneAlertIn(steps, ip, now, o);
    }
  }

  /** A refused caller that waits as told comes back in the next window, and any sooner in the same one. */
  lemma RetryAfterIsExact(now: nat, later: nat, windowSeconds: nat)
    requires windowSeconds > 0 && now <= later <= now + RetryAfter(now, windowSeconds)
    ensures WindowStart(later, windowSeconds) == WindowStart(now, windowSeconds) <==> later < now + RetryAfter(now, windowSeconds)
  {
    WindowContains(now, windowSeconds);
    WindowExactly(now, windowSeconds, later);
  }
}
