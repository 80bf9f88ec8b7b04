/** What one replica does with a window, event by event, as runs of the budget and of the scan protocol. */
module ReconcilerRuns {
  import opened Text
  import opened Budget
  import opened BudgetRuns
  import opened ScanWindow
  import P = ScanProtocol

  /**
   * One event dealt with: the attestation it landed with, if it is one of ours, the row it claimed, if any, and
   * the refunds of that row.
   */
  datatype Part = Part(landed: Option<nat>, claimed: Option<nat>, refunds: seq<Step>)

  function StepsOf(part: Part): seq<Step> {
    if part.landed.Some? && part.claimed.Some? then [Claim(part.claimed.value, part.landed.value)] + part.refunds else []
  }

  function Flatten(parts: seq<Part>): seq<Step> {
    if parts == [] then [] else Flatten(parts[..|parts| - 1]) + StepsOf(parts[|parts| - 1])
  }

  predicate AllRefunds(steps: seq<Step>) {
    forall i | 0 <= i < |steps| :: steps[i].Refund?
  }

  /** No attestation of the operation is left to claim. */
  predicate AllClaimed(s: State, landed: nat) {
    forall row <- s.rows :: P.SameOperation(s, row, landed) ==> s.rows[row].claimed.Some?
  }

  /** A foreign event does nothing; one of ours claims a row and refunds it, or finds all its rows claimed. */
  ghost predicate PartRuns(env: Policies, s: State, part: Part) {
    match part.claimed
    case None => part.landed.Some? ==> AllClaimed(s, part.landed.value)
    case Some(row) =>
      && part.landed.Some? && Enabled(env, s, Claim(row, part.landed.value))
      && AllRefunds(part.refunds) && ValidRun(env, Apply(env, s, Claim(row, part.landed.value)), part.refunds)
  }

  ghost predicate PartsRun(env: Policies, s: State, parts: seq<Part>)
    decreases |parts|
  {
    parts == []
    || var front := parts[..|parts| - 1];
       && PartsRun(env, s, front) && ValidRun(env, s, Flatten(front))
       && PartRuns(env, After(env, s, Flatten(front)), parts[|parts| - 1])
  }

  lemma PartIsRun(env: Policies, s: State, part: Part)
    requires PartRuns(env, s, part)
    ensures ValidRun(env, s, StepsOf(part))
  {
    if part.claimed.Some? {
      RunCons(env, s, Claim(part.claimed.value, part.landed.value), part.refunds);
    }
  }

  lemma FlattenOneMore(parts: seq<Part>, part: Part)
    ensures Flatten(parts + [part]) == Flatten(parts) + StepsOf(part)
  {
    assert (parts + [part])[..|parts|] == parts;
  }

  lemma OnePartMore(env: Policies, s: State, parts: seq<Part>, part: Part)
    requires PartsRun(env, s, parts) && ValidRun(env, s, Flatten(parts)) && PartRuns(env, After(env, s, Flatten(parts)), part)
    ensures PartsRun(env, s, parts + [part]) && ValidRun(env, s, Flatten(parts + [part]))
    ensures After(env, s, Flatten(parts + [part])) == After(env, After(env, s, Flatten(parts)), StepsOf(part))
  {
    PartIsRun(env, After(env, s, Flatten(parts)), part);
    FlattenOneMore(parts, part);
    RunAppend(env, s, Flatten(parts), StepsOf(part));
    assert (parts + [part])[..|parts|] == parts;
  }

  // ---------------------------------------------------------------------------------------------
  // The same parts as a run of the scan protocol

  /** The events of ours among the parts, by the attestation they landed with. */
  function Ours(parts: seq<Part>): seq<nat> {
    if parts == [] then []
    else
      var last := parts[|parts| - 1];
      Ours(parts[..|parts| - 1]) + if last.landed.Some? then [last.landed.value] else []
  }

  function ElsewhereAll(steps: seq<Step>): seq<P.Step> {
    seq(|steps|, i requires 0 <= i < |steps| => P.Elsewhere(steps[i]))
  }

  function OfferSteps(replica: nat, part: Part): seq<P.Step> {
    if part.landed.None? then []
    else [P.Offer(replica, part.claimed)] + if part.claimed.Some? then ElsewhereAll(part.refunds) else []
  }

  function OfferAll(replica: nat, parts: seq<Part>): seq<P.Step> {
    if parts == [] then [] else OfferAll(replica, parts[..|parts| - 1]) + OfferSteps(replica, parts[|parts| - 1])
  }

  lemma ScanCons(env: Policies, c: P.Config, s: P.State, step: P.Step, rest: seq<P.Step>)
    requires P.Enabled(env, c, s, step) && P.ValidRun(env, c, P.Apply(env, c, s, step), rest)
    ensures P.ValidRun(env, c, s, [step] + rest) && P.After(env, c, s, [step] + rest) == P.After(env, c, P.Apply(env, c, s, step), rest)
  {
    assert ([step] + rest)[1..] == rest;
  }

  lemma ScanHead(env: Policies, c: P.Config, s: P.State, step: P.Step, rest: seq<P.Step>)
    requires P.ValidRun(env, c, s, [step] + rest)
    ensures P.Enabled(env, c, s, step) && P.ValidRun(env, c, P.Apply(env, c, s, step), rest)
    ensures P.After(env, c, s, [step] + rest) == P.After(env, c, P.Apply(env, c, s, step), rest)
  {
    assert ([step] + rest)[1..] == rest;
  }

  lemma {:induction false} ScanAppend(env: Policies, c: P.Config, s: P.State, a: seq<P.Step>, b: seq<P.Step>)
    requires P.ValidRun(env, c, s, a) && P.ValidRun(env, c, P.After(env, c, s, a), b)
    ensures P.ValidRun(env, c, s, a + b) && P.After(env, c, s, a + b) == P.After(env, c, P.After(env, c, s, a), b)
    decreases a
  {
    if a == [] {
      assert a + b == b;
    } else {
      var step, tail := a[0], a[1..];
      ScanHeadThenTail(a, b);
      ScanHead(env, c, s, step, tail);
      ScanAppend(env, c, P.Apply(env, c, s, step), tail, b);
      ScanCons(env, c, s, step, tail + b);
    }
  }

  lemma ScanHeadThenTail(a: seq<P.Step>, b: seq<P.Step>)
    requires a != []
    ensures a == [a[0]] + a[1..] && a + b == [a[0]] + (a[1..] + b)
  {
  }

  /** Refunds are budget steps the scan does not see. */
  lemma {:induction false} RefundsAreElsewhere(env: Policies, c: P.Config, s: P.State, steps: seq<Step>)
    requires ValidRun(env, s.budget, steps) && AllRefunds(steps)
    ensures P.ValidRun(env, c, s, ElsewhereAll(steps))
    ensures P.After(env, c, s, ElsewhereAll(steps)) == s.(budget := After(env, s.budget, steps))
    decreases steps
  {
    if steps != [] {
      var step := P.Elsewhere(steps[0]);
      RefundsAreElsewhere(env, c, P.Apply(env, c, s, step), steps[1..]);
      ScanCons(env, c, s, step, ElsewhereAll(steps[1..]));
      assert ElsewhereAll(steps) == [step] + ElsewhereAll(steps[1..]);
    }
  }

  function WithTodo(s: P.State, replica: nat, todo: seq<nat>): P.State
    requires replica in s.scans
  {
    s.(scans := s.scans[replica := s.scans[replica].(todo := todo)])
  }

  lemma OfferIsRun(env: Policies, c: P.Config, s: P.State, replica: nat, part: Part, rest: seq<nat>)
    requires replica in s.scans && PartRuns(env, s.budget, part) && part.landed.Some?
    requires s.scans[replica].todo == [part.landed.value] + rest
    ensures ValidRun(env, s.budget, StepsOf(part)) && P.ValidRun(env, c, s, OfferSteps(replica, part))
    ensures P.After(env, c, s, OfferSteps(replica, part))
            == WithTodo(s, replica, rest).(budget := After(env, s.budget, StepsOf(part)))
  {
    PartIsRun(env, s.budget, part);
    var offer := P.Offer(replica, part.claimed);
    assert s.scans[replica].todo[1..] == rest;
    var s1 := P.Apply(env, c, s, offer);
    if part.claimed.Some? {
      RunCons(env, s.budget, Claim(part.claimed.value, part.landed.value), part.refunds);
      RefundsAreElsewhere(env, c, s1, part.refunds);
      ScanCons(env, c, s, offer, ElsewhereAll(part.refunds));
    } else {
      ScanCons(env, c, s, offer, []);
    }
  }

  lemma NothingOffered(s: P.State, replica: nat, rest: seq<nat>)
    requires replica in s.scans && s.scans[replica].todo == rest
    ensures WithTodo(s, replica, rest) == s
  {
    assert s.scans[replica := s.scans[replica].(todo := rest)] == s.scans;
  }

  /** The scan steps carry out the budget steps and leave `rest` to be offered. */
  ghost predicate Offers(env: Policies, c: P.Config, s: P.State, replica: nat, scanned: seq<P.Step>, steps: seq<Step>, rest: seq<nat>) {
    && replica in s.scans && ValidRun(env, s.budget, steps) && P.ValidRun(env, c, s, scanned)
    && P.After(env, c, s, scanned) == WithTodo(s, replica, rest).(budget := After(env, s.budget, steps))
  }

  lemma OffersCompose(env: Policies, c: P.Config, s: P.State, replica: nat, scanned: seq<P.Step>, steps: seq<Step>, between: seq<nat>,
                      scanned': seq<P.Step>, steps': seq<Step>, rest: seq<nat>)
    requires Offers(env, c, s, replica, scanned, steps, between)
    requires Offers(env, c, P.After(env, c, s, scanned), replica, scanned', steps', rest)
    ensures Offers(env, c, s, replica, scanned + scanned', steps + steps', rest)
  {
    ScanAppend(env, c, s, scanned, scanned');
    RunAppend(env, s.budget, steps, steps');
  }

  lemma LastPartIsOffer(env: Policies, c: P.Config, s: P.State, replica: nat, last: Part, rest: seq<nat>)
    requires replica in s.scans && PartRuns(env, s.budget, last)
    requires s.scans[replica].todo == (if last.landed.Some? then [last.landed.value] else []) + rest
    ensures Offers(env, c, s, replica, OfferSteps(replica, last), StepsOf(last), rest)
  {
    if last.landed.Some? {
      OfferIsRun(env, c, s, replica, last, rest);
    } else {
      assert [] + rest == rest;
      NothingOffered(s, replica, rest);
    }
  }

  function TodoOf(part: Part, rest: seq<nat>): seq<nat> {
    (if part.landed.Some? then [part.landed.value] else []) + rest
  }

  lemma TodoSplits(parts: seq<Part>, rest: seq<nat>)
    requires parts != []
    ensures Ours(parts) + rest == Ours(parts[..|parts| - 1]) + TodoOf(parts[|parts| - 1], rest)
  {
  }

  /** Offering the events of a window one by one, and nothing else, is what the replica's part of the scan does. */
  lemma {:induction false} PartsAreOffers(env: Policies, c: P.Config, s: P.State, replica: nat, parts: seq<Part>, rest: seq<nat>)
    requires replica in s.scans && PartsRun(env, s.budget, parts) && s.scans[replica].todo == Ours(parts) + rest
    ensures Offers(env, c, s, replica, OfferAll(replica, parts), Flatten(parts), rest)
    decreases |parts|
  {
    if parts == [] {
      assert [] + rest == rest;
      NothingOffered(s, replica, rest);
    } else {
      var front, last := parts[..|parts| - 1], parts[|parts| - 1];
      TodoSplits(parts, rest);
      PartsAreOffers(env, c, s, replica, front, TodoOf(last, rest));
      var s1 := P.After(env, c, s, OfferAll(replica, front));
      LastPartIsOffer(env, c, s1, replica, last, rest);
      OffersCompose(env, c, s, replica, OfferAll(replica, front), Flatten(front), TodoOf(last, rest),
                    OfferSteps(replica, last), StepsOf(last), rest);
    }
  }
}
