/** Leader election by a lease in Redis: the lock of one replica, and every interleaving of many (leaderLock.ts). */
module LeaderLock {
  import opened Text

  datatype Lease = Lease(holder: string, expires: int)

  /** Whose lease the key is at server time `now`. */
  function LiveHolder(lease: Option<Lease>, now: int): Option<string> {
    if lease.Some? && now < lease.value.expires then Some(lease.value.holder) else None
  }

  /** SET key holder PX ttl NX. */
  function SetIfAbsent(lease: Option<Lease>, holder: string, now: int, ttl: nat): (Option<Lease>, bool) {
    if LiveHolder(lease, now).Some? then (lease, false) else (Some(Lease(holder, now + ttl)), true)
  }

  /** The renew script. */
  function Renewed(lease: Option<Lease>, holder: string, now: int, ttl: nat): (Option<Lease>, bool) {
    if LiveHolder(lease, now) == Some(holder) then (Some(Lease(holder, now + ttl)), true) else (lease, false)
  }

  /** The release script. */
  function Deleted(lease: Option<Lease>, holder: string, now: int): Option<Lease> {
    if LiveHolder(lease, now) == Some(holder) then None else lease
  }

  class Redis {
    var lease: Option<Lease>

    constructor ()
      ensures lease == None
    {
      lease := None;
    }
  }

  /** What may go wrong with one command. */
  datatype Fault = NoFault | NotExecuted | ReplyLost

  class RedisLeaderLock {
    const redis: Redis
    const holder: string
    const ttlMs: nat
    var held: bool

    constructor (redis: Redis, holder: string, ttlMs: nat)
      ensures this.redis == redis && this.holder == holder && this.ttlMs == ttlMs && !held
    {
      this.redis, this.holder, this.ttlMs, held := redis, holder, ttlMs, false;
    }

    method TryAcquire(now: int, fault: Fault) returns (leads: bool)
      modifies this`held, redis
      ensures var (lease, ok) := Executed(old(redis.lease), old(held), holder, now, ttlMs);
              && redis.lease == (if fault == NotExecuted then old(redis.lease) else lease)
              && held == leads == (fault == NoFault && ok)
      ensures fault == NoFault ==>
                var own := old(redis.lease).Some? && old(redis.lease).value.holder == holder && now < old(redis.lease).value.expires;
                var free := old(redis.lease).None? || old(redis.lease).value.expires <= now;
                && (leads <==> if old(held) then own else free)
                && redis.lease == if leads then Some(Lease(holder, now + ttlMs)) else old(redis.lease)
    {
      if fault == NotExecuted {
        held := false;
        return false;
      }
      var ok: bool;
      if held {
        if LiveHolder(redis.lease, now) == Some(holder) {
          redis.lease := Some(Lease(holder, now + ttlMs));
          ok := true;
        } else {
          ok := false;
        }
      } else {
        if LiveHolder(redis.lease, now).Some? {
          ok := false;
        } else {
          redis.lease := Some(Lease(holder, now + ttlMs));
          ok := true;
        }
      }
      held := ok && fault == NoFault;
      return held;
    }

    method Release(now: int, fault: Fault)
      modifies this`held, redis
      ensures !held
      ensures redis.lease == if old(held) && fault != NotExecuted then Deleted(old(redis.lease), holder, now) else old(redis.lease)
      ensures redis.lease != old(redis.lease) ==> redis.lease == None
      ensures redis.lease != old(redis.lease) <==>
                && old(held) && fault != NotExecuted
                && old(redis.lease).Some? && old(redis.lease).value.holder == holder && now < old(redis.lease).value.expires
    {
      if !held {
        return;
      }
      held := false;
      if fault != NotExecuted && LiveHolder(redis.lease, now) == Some(holder) {
        redis.lease := None;
      }
    }
  }

  /** The command a lock sends: a renewal while it believes it leads, an acquisition otherwise. */
  function Executed(lease: Option<Lease>, held: bool, holder: string, now: int, ttl: nat): (Option<Lease>, bool) {
    if held then Renewed(lease, holder, now, ttl) else SetIfAbsent(lease, holder, now, ttl)
  }

  // ---------------------------------------------------------------------------------------------
  // Many replicas, each command executing and answering at its own moments

  datatype Pending = Idle | Answered(ok: bool) | Deleting

  /** `granted` is the server time of the replica's last successful acquisition or renewal. */
  datatype Replica = Replica(held: bool, pending: Pending, granted: Option<int>)

  /** Replicas are named by their holder ids, unique per process. */
  datatype Cluster = Cluster(lease: Option<Lease>, replicas: map<string, Replica>, clock: int)

  datatype Step = Execute(holder: string, now: int)
                | Reply(holder: string, now: int)
                | Fail(holder: string, now: int)
                | BeginRelease(holder: string, now: int)
                | Delete(holder: string, now: int)
                | AbandonDelete(holder: string, now: int)

  /** One replica's commands do not overlap, and the server clock does not go back. */
  predicate Enabled(c: Cluster, step: Step) {
    && step.holder in c.replicas && c.clock <= step.now
    && var r := c.replicas[step.holder];
       match step
       case Execute(_, _) => r.pending == Idle
       case Reply(_, _) => r.pending.Answered?
       case Fail(_, _) => r.pending != Deleting
       case BeginRelease(_, _) => r.pending == Idle && r.held
       case Delete(_, _) => r.pending == Deleting
       case AbandonDelete(_, _) => r.pending == Deleting
  }

  function Apply(c: Cluster, step: Step, ttl: nat): Cluster
    requires Enabled(c, step)
  {
    var id, r := step.holder, c.replicas[step.holder];
    match step
    case Execute(_, now) =>
      var (lease, ok) := Executed(c.lease, r.held, id, now, ttl);
      Cluster(lease, c.replicas[id := r.(pending := Answered(ok), granted := if ok then Some(now) else r.granted)], now)
    case Reply(_, now) => Cluster(c.lease, c.replicas[id := r.(held := r.pending.ok, pending := Idle)], now)
    case Fail(_, now) => Cluster(c.lease, c.replicas[id := r.(held := false, pending := Idle)], now)
    case BeginRelease(_, now) => Cluster(c.lease, c.replicas[id := r.(held := false, pending := Deleting)], now)
    case Delete(_, now) => Cluster(Deleted(c.lease, id, now), c.replicas[id := r.(pending := Idle)], now)
    case AbandonDelete(_, now) => Cluster(c.lease, c.replicas[id := r.(pending := Idle)], now)
  }

  predicate ValidRun(c: Cluster, steps: seq<Step>, ttl: nat)
    decreases |steps|, 0
  {
    steps == [] || (ValidRun(c, steps[..|steps| - 1], ttl) && Enabled(After(c, steps[..|steps| - 1], ttl), steps[|steps| - 1]))
  }

  function After(c: Cluster, steps: seq<Step>, ttl: nat): Cluster
    requires ValidRun(c, steps, ttl)
    decreases |steps|, 1
  {
    if steps == [] then c else Apply(After(c, steps[..|steps| - 1], ttl), steps[|steps| - 1], ttl)
  }

  ghost predicate Start(c: Cluster) {
    c.lease == None && forall id <- c.replicas :: c.replicas[id] == Replica(false, Idle, None)
  }

  predicate Believes(c: Cluster, id: string) {
    id in c.replicas && c.replicas[id].held
  }

  /** What the lock's own attempt does to the cluster: the command, then its reply or its loss. */
  function Attempt(id: string, now: int, fault: Fault): seq<Step> {
    match fault
    case NoFault => [Execute(id, now), Reply(id, now)]
    case NotExecuted => [Fail(id, now)]
    case ReplyLost => [Execute(id, now), Fail(id, now)]
  }

  /** `RedisLeaderLock.TryAcquire` is a run of the cluster. */
  lemma AttemptIsRun(c: Cluster, id: string, now: int, fault: Fault, ttl: nat)
    requires id in c.replicas && c.replicas[id].pending == Idle && c.clock <= now
    ensures var steps, (lease, ok) := Attempt(id, now, fault), Executed(c.lease, c.replicas[id].held, id, now, ttl);
            && ValidRun(c, steps, ttl)
            && After(c, steps, ttl).lease == (if fault == NotExecuted then c.lease else lease)
            && (Believes(After(c, steps, ttl), id) <==> fault == NoFault && ok)
  {
    var steps := Attempt(id, now, fault);
    assert ValidRun(c, [], ttl) && After(c, [], ttl) == c;
    if fault == NotExecuted {
      assert steps[..0] == [];
    } else {
      assert steps[..1] == [Execute(id, now)] && steps[..1][..0] == [];
      assert ValidRun(c, steps[..1], ttl);
    }
  }

  /** It believes it leads, and its last grant is younger than the lease. */
  predicate Leads(c: Cluster, id: string, ttl: nat) {
    && id in c.replicas && c.replicas[id].held
    && c.replicas[id].granted.Some? && c.clock < c.replicas[id].granted.value + ttl
  }

  /** A belief, or an answer on its way, that has not outlived its grant is backed by the lease itself. */
  ghost predicate Backed(c: Cluster, id: string, ttl: nat)
    requires id in c.replicas
  {
    var r := c.replicas[id];
    && (r.held || r.pending == Answered(true) ==> r.granted.Some?)
    && (r.pending == Deleting ==> !r.held)
    && ((r.held || r.pending == Answered(true)) && c.clock < r.granted.value + ttl ==> c.lease == Some(Lease(id, r.granted.value + ttl)))
  }

  ghost predicate Safe(c: Cluster, ttl: nat) {
    forall id <- c.replicas :: Backed(c, id, ttl)
  }

  lemma StepKeepsSafe(c: Cluster, step: Step, ttl: nat)
    requires Enabled(c, step) && Safe(c, ttl)
    ensures Safe(Apply(c, step, ttl), ttl)
  {
    var after := Apply(c, step, ttl);
    forall id <- after.replicas ensures Backed(after, id, ttl) {
      assert Backed(c, id, ttl) && Backed(c, step.holder, ttl);
    }
  }

  lemma {:induction false} RunKeepsSafe(c: Cluster, steps: seq<Step>, ttl: nat)
    requires Start(c) && ValidRun(c, steps, ttl)
    ensures Safe(After(c, steps, ttl), ttl)
    decreases |steps|
  {
    if steps != [] {
      RunKeepsSafe(c, steps[..|steps| - 1], ttl);
      StepKeepsSafe(After(c, steps[..|steps| - 1], ttl), steps[|steps| - 1], ttl);
    }
  }

  /** In every run, two replicas are never both leading within the term of their last grants. */
  lemma AtMostOneLeader(c: Cluster, steps: seq<Step>, ttl: nat, a: string, b: string)
    requires Start(c) && ValidRun(c, steps, ttl)
    requires Leads(After(c, steps, ttl), a, ttl) && Leads(After(c, steps, ttl), b, ttl)
    ensures a == b
  {
    RunKeepsSafe(c, steps, ttl);
    assert Backed(After(c, steps, ttl), a, ttl) && Backed(After(c, steps, ttl), b, ttl);
  }

  /** A leader within its term that renews leads on, for a whole term from then. */
  lemma RenewalKeepsLeading(c: Cluster, steps: seq<Step>, ttl: nat, id: string, now: int)
    requires Start(c) && ValidRun(c, steps, ttl) && ttl > 0
    requires var s := After(c, steps, ttl);
             Leads(s, id, ttl) && s.replicas[id].pending == Idle && s.clock <= now < s.replicas[id].granted.value + ttl
    ensures var s, renewal := After(c, steps, ttl), [Execute(id, now), Reply(id, now)];
            && ValidRun(s, renewal, ttl)
            && Leads(After(s, renewal, ttl), id, ttl) && After(s, renewal, ttl).lease == Some(Lease(id, now + ttl))
  {
    var s := After(c, steps, ttl);
    RunKeepsSafe(c, steps, ttl);
    assert Backed(s, id, ttl);
    TwoSteps(s, Execute(id, now), Reply(id, now), ttl);
  }

  lemma TwoSteps(c: Cluster, first: Step, second: Step, ttl: nat)
    requires Enabled(c, first) && Enabled(Apply(c, first, ttl), second)
    ensures ValidRun(c, [first, second], ttl) && After(c, [first, second], ttl) == Apply(Apply(c, first, ttl), second, ttl)
  {
    assert [first, second][..1] == [first] && [first][..0] == [];
    assert ValidRun(c, [], ttl) && After(c, [], ttl) == c;
    assert ValidRun(c, [first], ttl);
  }

  /** Once a leader within its term has released, whoever asks next leads, at once. */
  lemma ReleaseFreesAtOnce(c: Cluster, steps: seq<Step>, ttl: nat, id: string, other: string, now: int)
    requires Start(c) && ValidRun(c, steps, ttl) && ttl > 0
    requires var s := After(c, steps, ttl);
             Leads(s, id, ttl) && s.replicas[id].pending == Idle && s.clock <= now < s.replicas[id].granted.value + ttl
    requires var s := After(c, steps, ttl);
             other in s.replicas && other != id && s.replicas[other].pending == Idle && !s.replicas[other].held
    ensures var s, release, acquire := After(c, steps, ttl), [BeginRelease(id, now), Delete(id, now)], [Execute(other, now), Reply(other, now)];
            && ValidRun(s, release, ttl) && !Believes(After(s, release, ttl), id) && After(s, release, ttl).lease == None
            && ValidRun(After(s, release, ttl), acquire, ttl) && Leads(After(After(s, release, ttl), acquire, ttl), other, ttl)
  {
    var s := After(c, steps, ttl);
    RunKeepsSafe(c, steps, ttl);
    assert Backed(s, id, ttl);
    TwoSteps(s, BeginRelease(id, now), Delete(id, now), ttl);
    TwoSteps(After(s, [BeginRelease(id, now), Delete(id, now)], ttl), Execute(other, now), Reply(other, now), ttl);
  }

  /** A live lease is only ever extended, shortened or deleted by its own holder, whatever the others believe. */
  lemma OthersLeaseUntouched(c: Cluster, step: Step, ttl: nat, owner: string)
    requires Enabled(c, step) && LiveHolder(c.lease, step.now) == Some(owner) && step.holder != owner
    ensures Apply(c, step, ttl).lease == c.lease
  {
  }

  /** Outside its term a replica may still believe it leads: the lease is not a fence. */
  lemma StalledLeaderStillBelieves(ttl: nat)
    ensures var idle := Replica(false, Idle, None);
            var c := Cluster(None, map["a" := idle, "b" := idle], 0);
            var steps := [Execute("a", 0), Reply("a", 0), Execute("b", ttl), Reply("b", ttl)];
            && Start(c) && ValidRun(c, steps, ttl)
            && Believes(After(c, steps, ttl), "a") && Believes(After(c, steps, ttl), "b")
  {
    var idle := Replica(false, Idle, None);
    var c := Cluster(None, map["a" := idle, "b" := idle], 0);
    var steps := [Execute("a", 0), Reply("a", 0), Execute("b", ttl), Reply("b", ttl)];
    var three, two, one := steps[..3], steps[..2], steps[..1];
    assert three[..2] == two && two[..1] == one && one[..0] == [];
    assert ValidRun(c, one[..0], ttl) && After(c, one[..0], ttl) == c;
    assert ValidRun(c, one, ttl);
    var held := Replica(true, Idle, Some(0));
    assert After(c, one, ttl) == Cluster(Some(Lease("a", ttl)), map["a" := Replica(false, Answered(true), Some(0)), "b" := idle], 0);
    assert ValidRun(c, two, ttl);
    assert After(c, two, ttl) == Cluster(Some(Lease("a", ttl)), map["a" := held, "b" := idle], 0);
    assert ValidRun(c, three, ttl);
    assert After(c, three, ttl) == Cluster(Some(Lease("b", ttl + ttl)), map["a" := held, "b" := Replica(false, Answered(true), Some(ttl as int))], ttl);
    assert ValidRun(c, steps, ttl);
  }
}
