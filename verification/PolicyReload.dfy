/** Reloads of the policy set, serialised and coalesced, against a database that keeps changing (policyReloader.ts). */
module PolicyReload {
  import opened Text

  /** A reload in flight: whether it has read the database, and which version it read. */
  type Load = Option<nat>

  /**
   * `version` counts the database's writes, `installed` is the version of the active set, `requested` the
   * version at the last request, and `failed` whether a reload failed since the last one that installed.
   */
  datatype Reloader = Reloader(
    reloading: bool, reloadAgain: bool, loads: seq<Load>, version: nat, installed: nat, requested: nat, failed: bool)

  const FRESH := Reloader(false, false, [], 0, 0, 0, false)

  datatype Step = Write | Request | Read(load: nat) | Settle(load: nat, ok: bool)

  function Without(loads: seq<Load>, i: nat): seq<Load>
    requires i < |loads|
  {
    loads[..i] + loads[i + 1..]
  }

  /** A load reads once; it installs what it read, and may also fail before reading. */
  predicate Enabled(r: Reloader, step: Step) {
    match step
    case Write => true
    case Request => true
    case Read(load) => load < |r.loads| && r.loads[load].None?
    case Settle(load, ok) => load < |r.loads| && (ok ==> r.loads[load].Some?)
  }

  function Requested(r: Reloader): Reloader {
    var asked := r.(requested := r.version);
    if r.reloading then asked.(reloadAgain := true)
    else asked.(reloading := true, reloadAgain := false, loads := r.loads + [None])
  }

  /** What awaiting a reload comes back to: another round, or the end of the loop. */
  function Settled(r: Reloader, load: nat, ok: bool): Reloader
    requires Enabled(r, Settle(load, ok))
  {
    var done := r.(loads := Without(r.loads, load));
    if !ok then done.(reloading := false, failed := true)
    else
      var swapped := done.(installed := r.loads[load].value, failed := false);
      if r.reloadAgain then swapped.(reloadAgain := false, loads := swapped.loads + [None])
      else swapped.(reloading := false)
  }

  function Apply(r: Reloader, step: Step): Reloader
    requires Enabled(r, step)
  {
    match step
    case Write => r.(version := r.version + 1)
    case Request => Requested(r)
    case Read(load) => r.(loads := r.loads[load := Some(r.version)])
    case Settle(load, ok) => Settled(r, load, ok)
  }

  predicate ValidRun(steps: seq<Step>)
    decreases |steps|, 0
  {
    steps == [] || (ValidRun(steps[..|steps| - 1]) && Enabled(After(steps[..|steps| - 1]), steps[|steps| - 1]))
  }

  function After(steps: seq<Step>): Reloader
    requires ValidRun(steps)
    decreases |steps|, 1
  {
    if steps == [] then FRESH else Apply(After(steps[..|steps| - 1]), steps[|steps| - 1])
  }

  class PolicyReloader {
    var reloading: bool
    var reloadAgain: bool

    /** The object's flags are the machine's. */
    ghost predicate Mirrors(r: Reloader)
      reads this
    {
      reloading == r.reloading && reloadAgain == r.reloadAgain
    }

    constructor ()
      ensures Mirrors(FRESH)
    {
      reloading, reloadAgain := false, false;
    }

    /** `reloadNow` up to its first await: whether this caller starts a load. */
    method ReloadNow(ghost r: Reloader) returns (starts: bool)
      requires Mirrors(r)
      modifies this
      ensures Mirrors(Requested(r))
      ensures Requested(r).loads == if starts then r.loads + [None] else r.loads
      ensures starts == !old(reloading) && reloading && reloadAgain == old(reloading)
    {
      if reloading {
        reloadAgain := true;
        return false;
      }
      reloading := true;
      reloadAgain := false;
      return true;
    }

    /** From a settled load to the next await, or to the end of the loop. */
    method OnSettled(ok: bool, ghost r: Reloader, ghost load: nat) returns (repeats: bool)
      requires Mirrors(r) && reloading && Enabled(r, Settle(load, ok))
      modifies this
      ensures Mirrors(Settled(r, load, ok))
      ensures Settled(r, load, ok).loads == Without(r.loads, load) + if repeats then [None] else []
      ensures repeats == (ok && old(reloadAgain)) == reloading && reloadAgain == (old(reloadAgain) && !ok)
    {
      if ok && reloadAgain {
        reloadAgain := false;
        return true;
      }
      reloading := false;
      return false;
    }
  }

  ghost predicate Serialised(r: Reloader) {
    && |r.loads| == (if r.reloading then 1 else 0)
    && r.installed <= r.version && r.requested <= r.version
    && (forall i | 0 <= i < |r.loads| && r.loads[i].Some? :: r.installed <= r.loads[i].value <= r.version)
    && (r.reloading && !r.reloadAgain && r.loads[0].Some? ==> r.requested <= r.loads[0].value)
    && (!r.reloading && !r.failed ==> r.requested <= r.installed)
  }

  lemma StepKeepsSerialised(r: Reloader, step: Step)
    requires Serialised(r) && Enabled(r, step)
    ensures Serialised(Apply(r, step)) && r.installed <= Apply(r, step).installed
    ensures step.Settle? && !step.ok ==> Apply(r, step).installed == r.installed
  {
  }

  lemma {:induction false} RunKeepsSerialised(steps: seq<Step>)
    requires ValidRun(steps)
    ensures Serialised(After(steps))
  {
    if steps != [] {
      RunKeepsSerialised(steps[..|steps| - 1]);
      StepKeepsSerialised(After(steps[..|steps| - 1]), steps[|steps| - 1]);
    }
  }

  /** Loads never overlap, in any run. */
  lemma ReloadsNeverOverlap(steps: seq<Step>)
    requires ValidRun(steps)
    ensures |After(steps).loads| <= 1
  {
    RunKeepsSerialised(steps);
  }

  lemma PrefixIsValid(steps: seq<Step>, n: nat)
    requires ValidRun(steps) && n <= |steps|
    ensures ValidRun(steps[..n])
    decreases |steps|
  {
    if n == |steps| {
      assert steps[..n] == steps;
    } else {
      PrefixIsValid(steps[..|steps| - 1], n);
      assert steps[..|steps| - 1][..n] == steps[..n];
    }
  }

  /** The installed version never goes back, over any stretch of any run. */
  lemma {:induction false} InstalledNeverOlder(steps: seq<Step>, n: nat)
    requires ValidRun(steps) && n <= |steps|
    ensures ValidRun(steps[..n]) && After(steps[..n]).installed <= After(steps).installed
    decreases |steps|
  {
    PrefixIsValid(steps, n);
    if n == |steps| {
      assert steps[..n] == steps;
    } else {
      var front := steps[..|steps| - 1];
      assert front[..n] == steps[..n];
      InstalledNeverOlder(front, n);
      RunKeepsSerialised(front);
      StepKeepsSerialised(After(front), steps[|steps| - 1]);
    }
  }

  /** Idle, and nothing failed since: the active set includes every write made before the last request. */
  lemma IdleIsCurrent(steps: seq<Step>)
    requires ValidRun(steps) && !After(steps).reloading && !After(steps).failed
    ensures After(steps).requested <= After(steps).installed <= After(steps).version
  {
    RunKeepsSerialised(steps);
  }

  /** A request coalesced into a load that then fails is dropped; the timer's next one makes up for it. */
  lemma FailureDropsCoalescedRequest()
    ensures var steps := [Request, Write, Request, Settle(0, false)];
            ValidRun(steps) && !After(steps).reloading && After(steps).installed < After(steps).requested
  {
    var steps := [Request, Write, Request, Settle(0, false)];
    var one, two, three := steps[..1], steps[..2], steps[..3];
    assert three[..2] == two && two[..1] == one && one[..0] == [];
    assert ValidRun(one[..0]) && ValidRun(one);
    assert After(one) == FRESH.(reloading := true, loads := [None]);
    assert ValidRun(two);
    assert ValidRun(three);
  }

  // ---------------------------------------------------------------------------------------------
  // When a request has been dropped

  function WritesBefore(steps: seq<Step>, n: nat): nat
    requires n <= |steps|
  {
    if n == 0 then 0 else WritesBefore(steps, n - 1) + if steps[n - 1].Write? then 1 else 0
  }

  /** Where the last request came, or the start. */
  function LastRequest(steps: seq<Step>): (n: nat)
    ensures n <= |steps|
  {
    if steps == [] then 0
    else if steps[|steps| - 1].Request? then |steps| - 1 else LastRequest(steps[..|steps| - 1])
  }

  function LastRead(steps: seq<Step>): (n: nat)
    ensures n <= |steps|
  {
    if steps == [] then 0
    else if steps[|steps| - 1].Read? then |steps| - 1 else LastRead(steps[..|steps| - 1])
  }

  /** Where the last load that succeeded read the database, or the start. */
  function LastInstalledRead(steps: seq<Step>): (n: nat)
    ensures n <= |steps|
  {
    if steps == [] then 0
    else
      var front, last := steps[..|steps| - 1], steps[|steps| - 1];
      if last.Settle? && last.ok then LastRead(front) else LastInstalledRead(front)
  }

  lemma {:induction false} WritesInFront(steps: seq<Step>, n: nat)
    requires n < |steps|
    ensures WritesBefore(steps[..|steps| - 1], n) == WritesBefore(steps, n)
  {
    if n == 0 {
    } else {
      WritesInFront(steps, n - 1);
    }
  }

  /** The machine's versions count the writes before the events they stem from. */
  ghost predicate Versioned(steps: seq<Step>, r: Reloader) {
    && r.version == WritesBefore(steps, |steps|)
    && r.requested == WritesBefore(steps, LastRequest(steps))
    && r.installed == WritesBefore(steps, LastInstalledRead(steps))
    && forall i | 0 <= i < |r.loads| && r.loads[i].Some? :: r.loads[i].value == WritesBefore(steps, LastRead(steps))
  }

  lemma StepKeepsVersioned(steps: seq<Step>, r: Reloader)
    requires steps != [] && Serialised(r) && Versioned(steps[..|steps| - 1], r) && Enabled(r, steps[|steps| - 1])
    ensures Versioned(steps, Apply(r, steps[|steps| - 1]))
  {
    var front := steps[..|steps| - 1];
    WritesInFront(steps, |front|);
    WritesInFront(steps, LastRequest(front));
    WritesInFront(steps, LastRead(front));
    WritesInFront(steps, LastInstalledRead(front));
  }

  lemma {:induction false} RunKeepsVersioned(steps: seq<Step>)
    requires ValidRun(steps)
    ensures Versioned(steps, After(steps))
  {
    if steps == [] {
    } else {
      var front := steps[..|steps| - 1];
      RunKeepsSerialised(front);
      RunKeepsVersioned(front);
      StepKeepsVersioned(steps, After(front));
    }
  }

  predicate WrittenBetween(steps: seq<Step>, a: nat, b: nat) {
    exists w | a <= w < b && w < |steps| :: steps[w].Write?
  }

  lemma {:induction false} WritesGrow(steps: seq<Step>, a: nat, b: nat)
    requires a <= b <= |steps|
    ensures WritesBefore(steps, a) <= WritesBefore(steps, b)
    ensures WritesBefore(steps, a) < WritesBefore(steps, b) <==> WrittenBetween(steps, a, b)
    decreases b
  {
    if a == b {
    } else {
      WritesGrow(steps, a, b - 1);
      assert WrittenBetween(steps, a, b) <==> WrittenBetween(steps, a, b - 1) || steps[b - 1].Write?;
    }
  }

  /**
   * Exactly when an idle reloader has dropped a request: when the database was written between the read of the
   * last load that succeeded and the last request. The last load failed then.
   */
  lemma DroppedExactly(steps: seq<Step>)
    requires ValidRun(steps) && !After(steps).reloading
    ensures After(steps).installed < After(steps).requested
            <==> WrittenBetween(steps, LastInstalledRead(steps), LastRequest(steps))
    ensures After(steps).installed < After(steps).requested ==> After(steps).failed
  {
    RunKeepsSerialised(steps);
    RunKeepsVersioned(steps);
    var read, request := LastInstalledRead(steps), LastRequest(steps);
    if read <= request {
      WritesGrow(steps, read, request);
    } else {
      WritesGrow(steps, request, read);
    }
  }
}
