/** The sponsorships table: rows written at issue time, claimed once by the reconciler, and its checkpoint. */
module Sponsorships {
  import opened Text
  import opened QuotaRules
  import opened Budget

  datatype SponsorshipRow = SponsorshipRow(
    tenant: string, policyId: string, chainId: nat, sender: string, nonce: nat, apiKeyId: string,
    maxCostWei: nat, createdAt: nat, actualCostWei: Option<nat>)

  type Rows = map<nat, SponsorshipRow>

  /** An unreconciled attestation of the operation. */
  predicate Claimable(rows: Rows, id: nat, chainId: nat, sender: string, nonce: nat) {
    id in rows && rows[id].chainId == chainId && rows[id].sender == Lower(sender) && rows[id].nonce == nonce
    && rows[id].actualCostWei.None?
  }

  class SponsorshipTable {
    var rows: Rows
    var checkpoints: map<nat, nat>
    var nextId: nat

    ghost predicate Valid()
      reads this
    {
      forall id <- rows :: id < nextId
    }

    constructor ()
      ensures Valid() && rows == map[] && checkpoints == map[] && nextId == 0
    {
      rows, checkpoints, nextId := map[], map[], 0;
    }

    /** The row id is drawn from a sequence, which never hands out the same id twice. */
    method DrawId() returns (id: nat)
      requires Valid()
      modifies `nextId
      ensures Valid() && id == old(nextId) && nextId == id + 1 && id !in rows
    {
      id := nextId;
      nextId := nextId + 1;
    }

    method Record(id: nat, row: SponsorshipRow)
      requires Valid() && id < nextId
      modifies `rows
      ensures Valid() && rows == old(rows)[id := row]
    {
      rows := rows[id := row];
    }

    /** Marks and returns the newest unreconciled attestation of the operation, in one statement. */
    method Claim(chainId: nat, sender: string, nonce: nat, actualCostWei: nat) returns (claimed: Option<nat>)
      requires Valid()
      modifies `rows
      ensures Valid()
      ensures claimed.None? ==> rows == old(rows) && forall id :: !Claimable(rows, id, chainId, sender, nonce)
      ensures claimed.Some? ==>
                && old(Claimable(rows, claimed.value, chainId, sender, nonce))
                && rows == old(rows)[claimed.value := old(rows)[claimed.value].(actualCostWei := Some(actualCostWei))]
                && forall id | old(Claimable(rows, id, chainId, sender, nonce)) ::
                     old(rows)[id].createdAt <= old(rows)[claimed.value].createdAt
    {
      claimed := None;
      var todo := rows.Keys;
      while todo != {}
        invariant todo <= rows.Keys
        invariant claimed.Some? ==> Claimable(rows, claimed.value, chainId, sender, nonce)
        invariant forall id | id in rows.Keys - todo && Claimable(rows, id, chainId, sender, nonce) ::
                    claimed.Some? && rows[id].createdAt <= rows[claimed.value].createdAt
        decreases todo
      {
        var id :| id in todo;
        todo := todo - {id};
        if Claimable(rows, id, chainId, sender, nonce)
           && (claimed.None? || rows[claimed.value].createdAt < rows[id].createdAt) {
          claimed := Some(id);
        }
      }
      if claimed.Some? {
        rows := rows[claimed.value := rows[claimed.value].(actualCostWei := Some(actualCostWei))];
      }
    }

    /** GREATEST: a slower replica never rewinds the checkpoint. */
    method SaveCheckpoint(chainId: nat, block: nat)
      modifies `checkpoints
      ensures checkpoints == old(checkpoints)[chainId := if chainId in old(checkpoints) && old(checkpoints)[chainId] > block
                                                         then old(checkpoints)[chainId] else block]
    {
      var last := if chainId in checkpoints && checkpoints[chainId] > block then checkpoints[chainId] else block;
      checkpoints := checkpoints[chainId := last];
    }
  }

  // ---------------------------------------------------------------------------------------------
  // The table as the protocol sees it

  function RowOf(s: State, id: nat): SponsorshipRow
    requires id in s.requests && id in s.rows
  {
    var r := s.requests[id];
    SponsorshipRow(r.policy.tenant, r.policy.policyId, r.ctx.fields.chainId, Lower(r.ctx.fields.sender), r.nonce,
                   if r.ctx.fields.apiKeyId.Some? then r.ctx.fields.apiKeyId.value else "anonymous",
                   r.ctx.maxCost, s.rows[id].createdAt, s.rows[id].claimed)
  }

  ghost predicate Agrees(s: State, rows: Rows) {
    && rows.Keys == s.rows.Keys
    && forall id <- rows :: id in s.requests && rows[id] == RowOf(s, id)
  }
}
