/** The active policy set, swapped whole on reload (policySource.ts). */
module PolicySets {
  import opened Text

  /** `body` stands for the rules. */
  datatype Policy = Policy(tenantId: string, id: string, body: string)

  const NUL: char := '\0'

  function KeyOf(tenantId: string, policyId: string): string {
    tenantId + [NUL] + policyId
  }

  /** Tenant ids are made of letters, digits and punctuation, never of the separator. */
  lemma KeySeparates(tenantA: string, idA: string, tenantB: string, idB: string)
    requires NUL !in tenantA && NUL !in tenantB
    ensures KeyOf(tenantA, idA) == KeyOf(tenantB, idB) <==> tenantA == tenantB && idA == idB
  {
    if KeyOf(tenantA, idA) == KeyOf(tenantB, idB) {
      BeforeFirst(tenantA, NUL, idA);
      BeforeFirst(tenantB, NUL, idB);
      assert idA == KeyOf(tenantA, idA)[|tenantA| + 1..] == idB;
    }
  }

  datatype ReloadError = DuplicatePolicy(tenantId: string, id: string)

  type PolicySet = map<string, Policy>

  ghost predicate Ambiguous(loaded: seq<Policy>) {
    exists i, j | 0 <= i < j < |loaded| :: KeyOf(loaded[i].tenantId, loaded[i].id) == KeyOf(loaded[j].tenantId, loaded[j].id)
  }

  ghost predicate HasKey(loaded: seq<Policy>, key: string) {
    exists i | 0 <= i < |loaded| :: key == KeyOf(loaded[i].tenantId, loaded[i].id)
  }

  /** The set holds exactly the loaded policies, each under its own key. */
  ghost predicate Indexes(policies: PolicySet, loaded: seq<Policy>) {
    && (forall i | 0 <= i < |loaded| ::
          KeyOf(loaded[i].tenantId, loaded[i].id) in policies && policies[KeyOf(loaded[i].tenantId, loaded[i].id)] == loaded[i])
    && (forall key <- policies :: HasKey(loaded, key))
  }

  /** The policy `j` is the first whose key an earlier one has, and the error names it. */
  ghost predicate FirstRepeated(loaded: seq<Policy>, j: nat, error: ReloadError) {
    && j < |loaded| && !Ambiguous(loaded[..j]) && HasKey(loaded[..j], KeyOf(loaded[j].tenantId, loaded[j].id))
    && error == DuplicatePolicy(loaded[j].tenantId, loaded[j].id)
  }

  class PolicySource {
    var policies: PolicySet
    var loadedAt: nat
    var generation: nat

    constructor ()
      ensures policies == map[] && loadedAt == 0 && generation == 0
    {
      policies, loadedAt, generation := map[], 0, 0;
    }

    /** Installs the whole loaded set, or on a duplicate leaves the old one. */
    method Reload(loaded: seq<Policy>, now: nat) returns (outcome: Result<nat, ReloadError>)
      modifies this
      ensures outcome.Err? <==> Ambiguous(loaded)
      ensures outcome.Err? ==> unchanged(this) && exists j :: FirstRepeated(loaded, j, outcome.error)
      ensures outcome.Ok? ==> Indexes(policies, loaded) && loadedAt == now && generation == old(generation) + 1
      ensures outcome.Ok? ==> outcome.value == |policies| == |loaded|
    {
      var next := BuildIndex(loaded);
      if next.Err? {
        return Err(next.error);
      }
      BuiltAll(next.value, loaded);
      policies, loadedAt, generation := next.value, now, generation + 1;
      return Ok(|next.value|);
    }

    method Get(tenantId: string, id: string) returns (policy: Option<Policy>)
      ensures policy == Lookup(policies, tenantId, id)
    {
      var key := KeyOf(tenantId, id);
      return if key in policies then Some(policies[key]) else None;
    }
  }

  /** The first `n` policies have distinct keys, and `policies` indexes them. */
  ghost predicate Built(policies: PolicySet, loaded: seq<Policy>, n: nat) {
    n <= |loaded| && !Ambiguous(loaded[..n]) && Indexes(policies, loaded[..n]) && |policies| == n
  }

  lemma BuildStep(policies: PolicySet, loaded: seq<Policy>, n: nat, key: string)
    requires n < |loaded| && Built(policies, loaded, n) && key == KeyOf(loaded[n].tenantId, loaded[n].id)
    ensures if key in policies then Ambiguous(loaded) else Built(policies[key := loaded[n]], loaded, n + 1)
  {
    var before, policy := loaded[..n], loaded[n];
    assert loaded[..n + 1] == before + [policy];
    if key in policies {
      RepeatedKeyIsAmbiguous(policies, before, policy);
      AmbiguousPrefix(loaded, n + 1);
    } else {
      IndexStep(policies, before, policy);
    }
  }

  lemma BuiltAll(policies: PolicySet, loaded: seq<Policy>)
    ensures Built(policies, loaded, |loaded|) <==> !Ambiguous(loaded) && Indexes(policies, loaded) && |policies| == |loaded|
    ensures Built(map[], loaded, 0)
  {
    assert loaded[..|loaded|] == loaded;
  }

  method BuildIndex(loaded: seq<Policy>) returns (index: Result<PolicySet, ReloadError>)
    ensures if index.Ok? then Built(index.value, loaded, |loaded|) else Ambiguous(loaded) && exists j :: FirstRepeated(loaded, j, index.error)
  {
    var next: PolicySet := map[];
    BuiltAll(next, loaded);
    for i := 0 to |loaded|
      invariant Built(next, loaded, i)
    {
      var key := KeyOf(loaded[i].tenantId, loaded[i].id);
      BuildStep(next, loaded, i, key);
      if key in next {
        assert FirstRepeated(loaded, i, DuplicatePolicy(loaded[i].tenantId, loaded[i].id));
        return Err(DuplicatePolicy(loaded[i].tenantId, loaded[i].id));
      }
      next := next[key := loaded[i]];
    }
    return Ok(next);
  }

  lemma AmbiguousPrefix(loaded: seq<Policy>, n: nat)
    requires n <= |loaded| && Ambiguous(loaded[..n])
    ensures Ambiguous(loaded)
  {
    var prefix := loaded[..n];
    var i, j :| 0 <= i < j < n && KeyOf(prefix[i].tenantId, prefix[i].id) == KeyOf(prefix[j].tenantId, prefix[j].id);
    assert loaded[i] == prefix[i] && loaded[j] == prefix[j];
  }

  lemma IndexKeepsKeys(policies: PolicySet, loaded: seq<Policy>, policy: Policy)
    requires Indexes(policies, loaded)
    ensures forall k <- policies[KeyOf(policy.tenantId, policy.id) := policy] :: HasKey(loaded + [policy], k)
  {
    var key, more := KeyOf(policy.tenantId, policy.id), loaded + [policy];
    forall k <- policies[key := policy] ensures HasKey(more, k) {
      if k == key {
        assert more[|loaded|] == policy;
      } else {
        assert HasKey(loaded, k);
        var i :| 0 <= i < |loaded| && k == KeyOf(loaded[i].tenantId, loaded[i].id);
        assert more[i] == loaded[i];
      }
    }
  }

  lemma NewKeyIsClear(policies: PolicySet, loaded: seq<Policy>, policy: Policy)
    requires Indexes(policies, loaded) && !Ambiguous(loaded) && KeyOf(policy.tenantId, policy.id) !in policies
    ensures !Ambiguous(loaded + [policy])
  {
    var more := loaded + [policy];
    forall i, j | 0 <= i < j < |more| ensures KeyOf(more[i].tenantId, more[i].id) != KeyOf(more[j].tenantId, more[j].id) {
      assert more[i] == loaded[i];
      if j < |loaded| {
        assert more[j] == loaded[j];
      }
    }
  }

  lemma RepeatedKeyIsAmbiguous(policies: PolicySet, loaded: seq<Policy>, policy: Policy)
    requires Indexes(policies, loaded) && KeyOf(policy.tenantId, policy.id) in policies
    ensures Ambiguous(loaded + [policy])
  {
    var more := loaded + [policy];
    assert HasKey(loaded, KeyOf(policy.tenantId, policy.id));
    var i :| 0 <= i < |loaded| && KeyOf(policy.tenantId, policy.id) == KeyOf(loaded[i].tenantId, loaded[i].id);
    assert more[i] == loaded[i] && more[|loaded|] == policy;
  }

  lemma NewKeyIsIndexed(policies: PolicySet, loaded: seq<Policy>, policy: Policy)
    requires Indexes(policies, loaded) && KeyOf(policy.tenantId, policy.id) !in policies
    ensures Indexes(policies[KeyOf(policy.tenantId, policy.id) := policy], loaded + [policy])
  {
    var key, more := KeyOf(policy.tenantId, policy.id), loaded + [policy];
    var after := policies[key := policy];
    IndexKeepsKeys(policies, loaded, policy);
    forall i | 0 <= i < |more| ensures KeyOf(more[i].tenantId, more[i].id) in after && after[KeyOf(more[i].tenantId, more[i].id)] == more[i] {
      if i < |loaded| {
        assert more[i] == loaded[i];
      }
    }
  }

  /** One more policy either repeats a key or is indexed beside the others. */
  lemma IndexStep(policies: PolicySet, loaded: seq<Policy>, policy: Policy)
    requires Indexes(policies, loaded) && !Ambiguous(loaded)
    ensures var key := KeyOf(policy.tenantId, policy.id);
            if key in policies then Ambiguous(loaded + [policy])
            else !Ambiguous(loaded + [policy]) && Indexes(policies[key := policy], loaded + [policy])
  {
    if KeyOf(policy.tenantId, policy.id) in policies {
      RepeatedKeyIsAmbiguous(policies, loaded, policy);
    } else {
      NewKeyIsClear(policies, loaded, policy);
      NewKeyIsIndexed(policies, loaded, policy);
    }
  }

  function Lookup(policies: PolicySet, tenantId: string, id: string): Option<Policy> {
    var key := KeyOf(tenantId, id);
    if key in policies then Some(policies[key]) else None
  }

  /** A tenant finds a loaded policy exactly when it is its own, by its own id; never another tenant's. */
  lemma LookupIsIsolated(policies: PolicySet, loaded: seq<Policy>, tenantId: string, id: string, policy: Policy)
    requires Indexes(policies, loaded)
    requires NUL !in tenantId && forall i | 0 <= i < |loaded| :: NUL !in loaded[i].tenantId
    ensures Lookup(policies, tenantId, id) == Some(policy) <==> policy in loaded && policy.tenantId == tenantId && policy.id == id
  {
    if Lookup(policies, tenantId, id) == Some(policy) {
      var i :| 0 <= i < |loaded| && KeyOf(tenantId, id) == KeyOf(loaded[i].tenantId, loaded[i].id);
      KeySeparates(tenantId, id, loaded[i].tenantId, loaded[i].id);
    }
    if policy in loaded && policy.tenantId == tenantId && policy.id == id {
      var i :| 0 <= i < |loaded| && loaded[i] == policy;
    }
  }
}
