/** The circuit breaker around outbound calls, each call split into its start and its settlement (circuitBreaker.ts). */
module CircuitBreaker {

  datatype CircuitState = Closed | Open | HalfOpen

  datatype BreakerOptions = BreakerOptions(failureThreshold: nat, openMs: nat, halfOpenMaxCalls: nat)

  datatype Circuit = Circuit(state: CircuitState, consecutiveFailures: nat, openedAt: int, halfOpenCalls: nat)

  const FRESH := Circuit(Closed, 0, 0, 0)

  /** The lazy move from open to half-open that reading the state makes. */
  function Resolved(c: Circuit, now: int, o: BreakerOptions): Circuit {
    if c.state == Open && now - c.openedAt >= o.openMs then c.(state := HalfOpen, halfOpenCalls := 0) else c
  }

  function Begun(c: Circuit, now: int, o: BreakerOptions): (Circuit, bool) {
    var r := Resolved(c, now, o);
    match r.state
    case Closed => (r, true)
    case Open => (r, false)
    case HalfOpen => if r.halfOpenCalls >= o.halfOpenMaxCalls then (r, false) else (r.(halfOpenCalls := r.halfOpenCalls + 1), true)
  }

  function Succeeded(c: Circuit): Circuit {
    c.(consecutiveFailures := 0, state := Closed)
  }

  function Failed(c: Circuit, now: int, o: BreakerOptions): Circuit {
    var failures := c.consecutiveFailures + 1;
    if c.state == HalfOpen || failures >= o.failureThreshold
    then c.(consecutiveFailures := failures, openedAt := now, state := Open)
    else c.(consecutiveFailures := failures)
  }

  class CircuitBreaker {
    const options: BreakerOptions
    var state: CircuitState
    var consecutiveFailures: nat
    var openedAt: int
    var halfOpenCalls: nat

    constructor (options: BreakerOptions)
      ensures this.options == options && Contents() == FRESH
    {
      this.options := options;
      state, consecutiveFailures, openedAt, halfOpenCalls := Closed, 0, 0, 0;
    }

    function Contents(): Circuit
      reads this
    {
      Circuit(state, consecutiveFailures, openedAt, halfOpenCalls)
    }

    method State(now: int) returns (current: CircuitState)
      modifies this`state, this`halfOpenCalls
      ensures Contents() == Resolved(old(Contents()), now, options) && current == state
    {
      if state == Open && now - openedAt >= options.openMs {
        state := HalfOpen;
        halfOpenCalls := 0;
      }
      return state;
    }

    /** Whether a call may run. */
    method Begin(now: int) returns (admitted: bool)
      modifies this`state, this`halfOpenCalls
      ensures (Contents(), admitted) == Begun(old(Contents()), now, options)
    {
      var current := State(now);
      if current == Open {
        return false;
      }
      if current == HalfOpen {
        if halfOpenCalls >= options.halfOpenMaxCalls {
          return false;
        }
        halfOpenCalls := halfOpenCalls + 1;
      }
      return true;
    }

    method OnSuccess()
      modifies this`state, this`consecutiveFailures
      ensures Contents() == Succeeded(old(Contents()))
    {
      consecutiveFailures := 0;
      if state != Closed {
        state := Closed;
      }
    }

    method OnFailure(now: int)
      modifies this`state, this`consecutiveFailures, this`openedAt
      ensures Contents() == Failed(old(Contents()), now, options)
    {
      consecutiveFailures := consecutiveFailures + 1;
      if state == HalfOpen || consecutiveFailures >= options.failureThreshold {
        openedAt := now;
        state := Open;
      }
    }
  }

  // ---------------------------------------------------------------------------------------------
  // Every interleaving of starts and settlements

  datatype Event = Begin(now: int) | Read(now: int) | Success(now: int) | Failure(now: int)

  function Apply(c: Circuit, e: Event, o: BreakerOptions): Circuit {
    match e
    case Begin(now) => Begun(c, now, o).0
    case Read(now) => Resolved(c, now, o)
    case Success(_) => Succeeded(c)
    case Failure(now) => Failed(c, now, o)
  }

  function After(events: seq<Event>, o: BreakerOptions): Circuit {
    if events == [] then FRESH else Apply(After(events[..|events| - 1], o), events[|events| - 1], o)
  }

  /** Failures settled since the last success. */
  function Failures(events: seq<Event>): nat {
    if events == [] then 0
    else
      var before, e := events[..|events| - 1], events[|events| - 1];
      match e
      case Failure(_) => Failures(before) + 1
      case Success(_) => 0
      case _ => Failures(before)
  }

  /** When the last failure settled. */
  function LastFailure(events: seq<Event>): int {
    if events == [] then 0
    else
      var before, e := events[..|events| - 1], events[|events| - 1];
      if e.Failure? then e.now else LastFailure(before)
  }

  /** Whether the history alone lets a call start: not tripped, or cooled down with a trial left. */
  predicate Admits(events: seq<Event>, now: int, o: BreakerOptions)
    decreases |events|, 1
  {
    Failures(events) < o.failureThreshold
    || (now - LastFailure(events) >= o.openMs && Trials(events, o) < o.halfOpenMaxCalls)
  }

  /** The calls started since the last settlement that tripped or reset the breaker. */
  function Trials(events: seq<Event>, o: BreakerOptions): nat
    decreases |events|, 0
  {
    if events == [] then 0
    else
      var before, e := events[..|events| - 1], events[|events| - 1];
      match e
      case Begin(now) => Trials(before, o) + if Failures(before) >= o.failureThreshold && Admits(before, now, o) then 1 else 0
      case Read(_) => Trials(before, o)
      case _ => 0
  }

  /** The clock does not go back. */
  ghost predicate Timely(events: seq<Event>) {
    forall i, j | 0 <= i < j < |events| :: events[i].now <= events[j].now
  }

  ghost predicate Explains(events: seq<Event>, c: Circuit, o: BreakerOptions) {
    && c.consecutiveFailures == Failures(events)
    && (c.state == Closed <==> Failures(events) < o.failureThreshold)
    && (c.state != Closed ==> c.openedAt == LastFailure(events))
    && (c.state == Open ==> Trials(events, o) == 0)
    && (c.state == HalfOpen ==> c.halfOpenCalls == Trials(events, o))
    && (c.state == HalfOpen ==> events != [] && events[|events| - 1].now - LastFailure(events) >= o.openMs)
  }

  lemma {:induction false} HistoryExplains(events: seq<Event>, o: BreakerOptions)
    requires o.failureThreshold >= 1 && Timely(events)
    ensures Explains(events, After(events, o), o)
  {
    if events != [] {
      HistoryExplains(events[..|events| - 1], o);
    }
  }

  /** The breaker is closed exactly while the failures settled since the last success stay below the threshold. */
  lemma {:induction false} ClosedExactly(events: seq<Event>, o: BreakerOptions)
    requires o.failureThreshold >= 1
    ensures After(events, o).state == Closed <==> Failures(events) < o.failureThreshold
    ensures After(events, o).consecutiveFailures == Failures(events)
  {
    if events != [] {
      ClosedExactly(events[..|events| - 1], o);
    }
  }

  /** What reading the state says: closed below the threshold, else open until `openMs` after the last failure. */
  lemma StateIsExact(events: seq<Event>, now: int, o: BreakerOptions)
    requires o.failureThreshold >= 1 && Timely(events) && (events != [] ==> events[|events| - 1].now <= now)
    ensures var state := Resolved(After(events, o), now, o).state;
            && (state == Closed <==> Failures(events) < o.failureThreshold)
            && (state == Open <==> Failures(events) >= o.failureThreshold && now < LastFailure(events) + o.openMs)
  {
    HistoryExplains(events, o);
  }

  /**
   * A call starts exactly when the history admits it: below the threshold, or `openMs` after the last
   * failure with fewer than `halfOpenMaxCalls` trials started since.
   */
  lemma StartsExactlyWhenAdmitted(events: seq<Event>, now: int, o: BreakerOptions)
    requires o.failureThreshold >= 1 && Timely(events) && (events != [] ==> events[|events| - 1].now <= now)
    ensures Begun(After(events, o), now, o).1 <==> Admits(events, now, o)
  {
    HistoryExplains(events, o);
  }

  /** The calls the breaker let start while not closed, since the last settlement. */
  function TrialsStarted(events: seq<Event>, o: BreakerOptions): nat {
    if events == [] then 0
    else
      var before, e := events[..|events| - 1], events[|events| - 1];
      match e
      case Begin(now) =>
        TrialsStarted(before, o) + if After(before, o).state != Closed && Begun(After(before, o), now, o).1 then 1 else 0
      case Read(_) => TrialsStarted(before, o)
      case _ => 0
  }

  lemma {:induction false} TrialsAreCounted(events: seq<Event>, o: BreakerOptions)
    ensures var c := After(events, o);
            if c.state == HalfOpen then c.halfOpenCalls == TrialsStarted(events, o) <= o.halfOpenMaxCalls
            else TrialsStarted(events, o) == 0
  {
    if events != [] {
      TrialsAreCounted(events[..|events| - 1], o);
    }
  }

  /**
   * In every interleaving, with any clock, the breaker lets at most `halfOpenMaxCalls` calls start while it is
   * tripped before one of them settles.
   */
  lemma EpisodesAreBounded(events: seq<Event>, o: BreakerOptions)
    ensures TrialsStarted(events, o) <= o.halfOpenMaxCalls
  {
    TrialsAreCounted(events, o);
  }
}
