/**
 * What reconciling one event leaves, told from the rows and counters it finds: which attestation it marks, and what
 * each quota of the policy gives back (spendReconciler.ts, quotaRules.ts).
 */
module TrueUps {
  import opened Text
  import opened QuotaStores
  import opened QuotaRules
  import opened Engine
  import opened Budget
  import opened Sponsorships

  /** A settled operation of our paymaster. */
  datatype Settlement = Settlement(sender: string, nonce: nat, actualGasCostWei: nat, blockNumber: nat)

  /** Rows and counters, and what has been reconciled and refunded so far. */
  datatype Books = Books(rows: Rows, counters: Counters, reconciled: nat, refunded: nat)

  /** The counters after the first `n` quotas are trued up; `link(at, k)` is what happens to the call of quota `k`. */
  function TruedUpTo(quotas: seq<Quota>, n: nat, counters: Counters, r: SpendTrueUp, link: (nat, nat) -> Link, at: nat): Counters
    requires n <= |quotas|
  {
    if n == 0 then counters else AfterTrueUp(quotas[n - 1], TruedUpTo(quotas, n - 1, counters, r, link, at), r, link(at, n - 1))
  }

  /** What they report as refunded: the over-reserved gwei, of each quota that locates a counter and is answered. */
  function WeiRefunded(quotas: seq<Quota>, n: nat, r: SpendTrueUp, link: (nat, nat) -> Link, at: nat): nat
    requires n <= |quotas|
  {
    if n == 0 then 0
    else WeiRefunded(quotas, n - 1, r, link, at)
         + if TrueUpSlot(quotas[n - 1], r).Some? && link(at, n - 1) == Up then OverReserved(r) * 1_000_000_000 else 0
  }

  lemma NextTrueUp(quotas: seq<Quota>, k: nat, before: Counters, r: SpendTrueUp, link: (nat, nat) -> Link, at: nat, counters: Counters, wei: nat)
    requires k < |quotas| && counters == TruedUpTo(quotas, k, before, r, link, at)
    requires wei == if TrueUpSlot(quotas[k], r).None? || link(at, k) != Up then 0 else OverReserved(r) * WEI_PER_GWEI
    ensures AfterTrueUp(quotas[k], counters, r, link(at, k)) == TruedUpTo(quotas, k + 1, before, r, link, at)
    ensures WeiRefunded(quotas, k, r, link, at) + wei == WeiRefunded(quotas, k + 1, r, link, at)
  {
  }

  /** Nothing of the operation is left to claim, and nothing changes. */
  ghost predicate NothingClaimed(before: Books, after: Books, chainId: nat, event: Settlement) {
    after == before && forall id :: !Claimable(before.rows, id, chainId, event.sender, event.nonce)
  }

  /** The newest unreconciled attestation of the operation is marked with the cost, and its policy's quotas trued up. */
  ghost predicate ClaimedAs(id: nat, before: Books, after: Books, chainId: nat, event: Settlement, policies: map<PolicyKey, seq<LoadedRule>>,
                            link: (nat, nat) -> Link, at: nat) {
    && Claimable(before.rows, id, chainId, event.sender, event.nonce)
    && (forall other | Claimable(before.rows, other, chainId, event.sender, event.nonce) ::
          before.rows[other].createdAt <= before.rows[id].createdAt)
    && after.rows == before.rows[id := before.rows[id].(actualCostWei := Some(event.actualGasCostWei))]
    && after.reconciled == before.reconciled + 1
    && TruedUp(before.rows[id], before, after, chainId, event, policies, link, at)
  }

  ghost predicate TruedUp(row: SponsorshipRow, before: Books, after: Books, chainId: nat, event: Settlement,
                          policies: map<PolicyKey, seq<LoadedRule>>, link: (nat, nat) -> Link, at: nat) {
    var key := PolicyKey(row.tenant, row.policyId);
    if key !in policies then after.counters == before.counters && after.refunded == before.refunded
    else
      var quotas := Reserving(EraseAll(policies[key]));
      var r := SpendTrueUp(chainId, event.sender, Some(row.apiKeyId), row.maxCostWei, event.actualGasCostWei, row.createdAt);
      && after.counters == TruedUpTo(quotas, |quotas|, before.counters, r, link, at)
      && after.refunded == before.refunded + WeiRefunded(quotas, |quotas|, r, link, at)
  }

  ghost predicate EventDone(before: Books, after: Books, chainId: nat, event: Settlement, policies: map<PolicyKey, seq<LoadedRule>>,
                            link: (nat, nat) -> Link, at: nat) {
    || NothingClaimed(before, after, chainId, event)
    || exists id :: ClaimedAs(id, before, after, chainId, event, policies, link, at)
  }

  /** The books that these events can lead to from `first`, done one after the other. */
  ghost function Outcomes(events: seq<Settlement>, chainId: nat, policies: map<PolicyKey, seq<LoadedRule>>,
                          link: (nat, nat) -> Link, first: Books): iset<Books>
    decreases |events|
  {
    if events == [] then iset{first}
    else
      var n := |events| - 1;
      iset last: Books | LastDone(Outcomes(events[..n], chainId, policies, link, first), last, chainId, events[n], policies, link, n)
  }

  ghost predicate LastDone(earlier: iset<Books>, last: Books, chainId: nat, event: Settlement, policies: map<PolicyKey, seq<LoadedRule>>,
                           link: (nat, nat) -> Link, at: nat) {
    exists before :: before in earlier && EventDone(before, last, chainId, event, policies, link, at)
  }

  /** What is done with an event does not depend on what was done before it. */
  lemma DoneFurther(before: Books, after: Books, earlier: Books, later: Books, chainId: nat, event: Settlement,
                    policies: map<PolicyKey, seq<LoadedRule>>, link: (nat, nat) -> Link, at: nat)
    requires EventDone(before, after, chainId, event, policies, link, at) && before.reconciled == before.refunded == 0
    requires earlier.rows == before.rows && earlier.counters == before.counters
    requires later.rows == after.rows && later.counters == after.counters
    requires later.reconciled == earlier.reconciled + after.reconciled && later.refunded == earlier.refunded + after.refunded
    ensures EventDone(earlier, later, chainId, event, policies, link, at)
  {
    if id :| ClaimedAs(id, before, after, chainId, event, policies, link, at) {
      assert ClaimedAs(id, earlier, later, chainId, event, policies, link, at);
    } else {
      assert NothingClaimed(earlier, later, chainId, event);
    }
  }

  lemma OutcomesGrow(events: seq<Settlement>, chainId: nat, policies: map<PolicyKey, seq<LoadedRule>>, link: (nat, nat) -> Link,
                     first: Books, before: Books, event: Settlement, last: Books)
    requires before in Outcomes(events, chainId, policies, link, first)
    requires EventDone(before, last, chainId, event, policies, link, |events|)
    ensures last in Outcomes(events + [event], chainId, policies, link, first)
  {
    assert (events + [event])[..|events|] == events;
    assert LastDone(Outcomes(events, chainId, policies, link, first), last, chainId, event, policies, link, |events|);
  }

  lemma OneMoreDone(events: seq<Settlement>, chainId: nat, policies: map<PolicyKey, seq<LoadedRule>>,
                    link: (nat, nat) -> Link, first: Books, rows: Rows, counters: Counters, reconciled: nat, refunded: nat,
                    event: Settlement, rows': Rows, counters': Counters, claims: nat, wei: nat, reconciled': nat, refunded': nat)
    requires Books(rows, counters, reconciled, refunded) in Outcomes(events, chainId, policies, link, first)
    requires EventDone(Books(rows, counters, 0, 0), Books(rows', counters', claims, wei), chainId, event, policies, link, |events|)
    requires reconciled' == reconciled + claims && refunded' == refunded + wei
    ensures Books(rows', counters', reconciled', refunded') in Outcomes(events + [event], chainId, policies, link, first)
  {
    var before, last := Books(rows, counters, reconciled, refunded), Books(rows', counters', reconciled', refunded');
    DoneFurther(Books(rows, counters, 0, 0), Books(rows', counters', claims, wei), before, last, chainId, event, policies, link, |events|);
    OutcomesGrow(events, chainId, policies, link, first, before, event, last);
  }

  lemma ClaimDone(id: nat, rows: Rows, rows': Rows, counters: Counters, counters': Counters, refunded: nat, chainId: nat, event: Settlement,
                  policies: map<PolicyKey, seq<LoadedRule>>, link: (nat, nat) -> Link, at: nat)
    requires Claimable(rows, id, chainId, event.sender, event.nonce)
    requires forall other | Claimable(rows, other, chainId, event.sender, event.nonce) :: rows[other].createdAt <= rows[id].createdAt
    requires rows' == rows[id := rows[id].(actualCostWei := Some(event.actualGasCostWei))]
    requires TruedUp(rows'[id], Books(map[], counters, 0, 0), Books(map[], counters', 0, refunded), chainId, event, policies, link, at)
    ensures EventDone(Books(rows, counters, 0, 0), Books(rows', counters', 1, refunded), chainId, event, policies, link, at)
  {
    assert ClaimedAs(id, Books(rows, counters, 0, 0), Books(rows', counters', 1, refunded), chainId, event, policies, link, at);
  }
}
