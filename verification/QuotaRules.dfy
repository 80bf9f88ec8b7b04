/** One quota: what it keys on, what it counts, and how a reservation is taken, undone and trued up (quotaRules.ts). */
module QuotaRules {
  import opened Text
  import opened Windows
  import opened QuotaStores

  datatype Subject = Wallet | Ip | ApiKey | Chain | Target | Global

  datatype Unit = Operations | Wei

  datatype MissingSubject = DenyMissing | SkipMissing

  const WEI_PER_GWEI := 1_000_000_000

  datatype QuotaOptions = QuotaOptions(
    name: string, subject: Subject, unit: Unit, limit: int, windowSeconds: int,
    onMissing: MissingSubject, ns: string)

  predicate Constructible(o: QuotaOptions) {
    o.limit >= 0 && o.windowSeconds > 0
  }

  type Quota = o: QuotaOptions | Constructible(o)
    witness QuotaOptions("q", Global, Operations, 0, 1, DenyMissing, "")

  /** The request fields a quota keys on. */
  datatype SubjectFields = SubjectFields(
    chainId: nat, sender: string, clientIp: Option<string>, apiKeyId: Option<string>, calls: Option<seq<string>>)

  datatype Context = Context(fields: SubjectFields, maxCost: nat, now: nat)

  datatype Code = QuotaExceeded | SpendCapExceeded | RuleError | CheckFailed

  datatype Decision = Allow | Deny(rule: string, code: Code)

  /** What happened to one call on the store: answered, never sent, or applied with the answer lost. */
  datatype Link = Up | RequestLost | ReplyLost

  function Prefix(q: Quota): string {
    if q.ns == "" then "quota:" + q.name else "quota:" + q.ns + "/" + q.name
  }

  function KeyFor(q: Quota, f: SubjectFields): Option<string> {
    match q.subject
    case Wallet => Some(Prefix(q) + ":" + Dec(f.chainId) + ":" + Lower(f.sender))
    case Chain => Some(Prefix(q) + ":" + Dec(f.chainId))
    case Global => Some(Prefix(q))
    case Ip => if f.clientIp.None? then None else Some(Prefix(q) + ":" + f.clientIp.value)
    case ApiKey => if f.apiKeyId.None? then None else Some(Prefix(q) + ":" + f.apiKeyId.value)
    case Target =>
      if f.calls.None? || |f.calls.value| != 1 then None
      else Some(Prefix(q) + ":" + Dec(f.chainId) + ":" + Lower(f.calls.value[0]))
  }

  /** The counter a request is charged on, if the request carries the quota's subject. */
  function SlotFor(q: Quota, ctx: Context): Option<string> {
    match KeyFor(q, ctx.fields)
    case Some(key) => Some(WindowedKey(key, q.windowSeconds, ctx.now))
    case None => None
  }

  function CeilGwei(wei: nat): nat {
    (wei + WEI_PER_GWEI - 1) / WEI_PER_GWEI
  }

  /** Charges round up, limits round down. */
  function AmountFor(q: Quota, ctx: Context): nat {
    if q.unit == Operations then 1 else CeilGwei(ctx.maxCost)
  }

  function CountedLimit(q: Quota): nat {
    if q.unit == Wei then q.limit / WEI_PER_GWEI else q.limit
  }

  function DenialCode(q: Quota): Code {
    if q.unit == Wei then SpendCapExceeded else QuotaExceeded
  }

  /** `None` is a rule that threw. */
  function Verdict(q: Quota, counters: Counters, ctx: Context, link: Link): Option<Decision> {
    match SlotFor(q, ctx)
    case None => Some(if q.onMissing == SkipMissing then Allow else Deny(q.name, QuotaExceeded))
    case Some(slot) =>
      if link != Up then None
      else if Fits(counters, slot, AmountFor(q, ctx), CountedLimit(q)) then Some(Allow)
      else Some(Deny(q.name, DenialCode(q)))
  }

  function AfterEvaluate(q: Quota, counters: Counters, ctx: Context, link: Link): Counters {
    match SlotFor(q, ctx)
    case None => counters
    case Some(slot) =>
      if link == RequestLost then counters else Consumed(counters, slot, AmountFor(q, ctx), CountedLimit(q))
  }

  function AfterRelease(q: Quota, counters: Counters, ctx: Context, link: Link): Counters {
    match SlotFor(q, ctx)
    case None => counters
    case Some(slot) => if link == RequestLost then counters else Released(counters, slot, AmountFor(q, ctx))
  }

  /** A reservation to true up, as the reconciler rebuilds it from a stored sponsorship. */
  datatype SpendTrueUp = SpendTrueUp(
    chainId: nat, sender: string, apiKeyId: Option<string>, reservedMaxCostWei: nat, actualCostWei: nat, reservedAt: nat)

  /** The counter a true-up refunds, where there is one to locate. */
  function TrueUpSlot(q: Quota, r: SpendTrueUp): Option<string> {
    if q.unit != Wei then None
    else SlotFor(q, Context(SubjectFields(r.chainId, r.sender, None, r.apiKeyId, None), 0, r.reservedAt))
  }

  /** The whole gwei over-reserved; zero when actual met or exceeded the worst case. */
  function OverReserved(r: SpendTrueUp): nat {
    var reserved, actual := CeilGwei(r.reservedMaxCostWei), CeilGwei(r.actualCostWei);
    if reserved <= actual then 0 else reserved - actual
  }

  function AfterTrueUp(q: Quota, counters: Counters, r: SpendTrueUp, link: Link): Counters {
    match TrueUpSlot(q, r)
    case None => counters
    case Some(slot) =>
      if OverReserved(r) == 0 || link == RequestLost then counters else Released(counters, slot, OverReserved(r))
  }

  class QuotaRule {
    const store: InMemoryQuotaStore
    const options: Quota

    constructor (store: InMemoryQuotaStore, options: Quota)
      ensures this.store == store && this.options == options
    {
      this.store := store;
      this.options := options;
    }

    method Evaluate(ctx: Context, link: Link) returns (verdict: Option<Decision>)
      modifies store
      ensures verdict == old(Verdict(options, store.counters, ctx, link))
      ensures store.counters == old(AfterEvaluate(options, store.counters, ctx, link))
    {
      var key := KeyFor(options, ctx.fields);
      if key.None? {
        return Some(if options.onMissing == SkipMissing then Allow else Deny(options.name, QuotaExceeded));
      }
      if link == RequestLost {
        return None;
      }
      var outcome := store.TryConsume(key.value, AmountFor(options, ctx), CountedLimit(options), options.windowSeconds, ctx.now);
      if link == ReplyLost {
        return None;
      }
      verdict := Some(if outcome.consumed then Allow else Deny(options.name, DenialCode(options)));
    }

    method Release(ctx: Context, link: Link)
      modifies store
      ensures store.counters == old(AfterRelease(options, store.counters, ctx, link))
    {
      var key := KeyFor(options, ctx.fields);
      if key.None? || link == RequestLost {
        return;
      }
      store.Release(key.value, AmountFor(options, ctx), options.windowSeconds, ctx.now);
    }

    /** Budget left, in the configured unit: all the whole units that still fit beside what is used. */
    method Remaining(ctx: Context) returns (left: Option<nat>)
      ensures left.None? <==> SlotFor(options, ctx).None?
      ensures left.Some? ==>
                var unit: nat := if options.unit == Wei then 1_000_000_000 else 1;
                var used := Usage(store.counters, SlotFor(options, ctx).value) * unit;
                && left.value % unit == 0
                && (left.value == 0 || used + left.value <= options.limit)
                && options.limit < used + left.value + unit
    {
      var key := KeyFor(options, ctx.fields);
      if key.None? {
        return None;
      }
      var used := store.ReadUsage(key.value, options.windowSeconds, ctx.now);
      var unused := CountedLimit(options) - used;
      var counted := if unused > 0 then unused else 0;
      left := Some(if options.unit == Wei then counted * WEI_PER_GWEI else counted);
    }

    method TrueUp(r: SpendTrueUp, link: Link) returns (refundedWei: nat)
      modifies store
      ensures store.counters == old(AfterTrueUp(options, store.counters, r, link))
      ensures refundedWei == if TrueUpSlot(options, r).None? || link != Up then 0 else OverReserved(r) * WEI_PER_GWEI
    {
      if options.unit != Wei {
        return 0;
      }
      var key := KeyFor(options, SubjectFields(r.chainId, r.sender, None, r.apiKeyId, None));
      if key.None? {
        return 0;
      }
      var delta := CeilGwei(r.reservedMaxCostWei) - CeilGwei(r.actualCostWei);
      if delta <= 0 {
        return 0;
      }
      if link == RequestLost {
        return 0;   // thrown, caught by the reconciler: the refund is dropped
      }
      store.Release(key.value, delta, options.windowSeconds, r.reservedAt);
      refundedWei := if link == Up then delta * WEI_PER_GWEI else 0;
    }
  }

  // ---------------------------------------------------------------------------------------------
  // Rounding

  /** Rounded charges that fit a rounded limit never exceed the configured one. */
  lemma RoundingIsSafe(q: Quota, wei: nat, gwei: nat)
    requires q.unit == Wei && gwei <= CountedLimit(q)
    ensures wei <= CeilGwei(wei) * WEI_PER_GWEI < wei + WEI_PER_GWEI
    ensures gwei * WEI_PER_GWEI <= q.limit
  {
  }

  lemma CeilGweiMonotone(a: nat, b: nat)
    requires a <= b
    ensures CeilGwei(a) <= CeilGwei(b)
  {
  }

  // ---------------------------------------------------------------------------------------------
  // Counter names of different tenants

  lemma KeyExtendsPrefix(q: Quota, f: SubjectFields)
    requires KeyFor(q, f).Some?
    ensures Prefix(q) <= KeyFor(q, f).value
  {
  }

  lemma RestOfKey(ns: string, name: string, tail: string)
    ensures "quota:" + ns + "/" + name + tail == "quota:" + (ns + ['/'] + (name + tail))
  {
  }

  lemma DropQuota(key: string, text: string)
    requires key == "quota:" + text
    ensures |key| >= 6 && key[6..] == text
  {
  }

  /** What a namespaced key looks like after `quota:`: the namespace, a slash, the rest. */
  lemma NamespacedKey(q: Quota, f: SubjectFields) returns (rest: string)
    requires q.ns != "" && KeyFor(q, f).Some?
    ensures KeyFor(q, f).value[6..] == q.ns + ['/'] + rest
    ensures |KeyFor(q, f).value| >= 6
  {
    KeyExtendsPrefix(q, f);
    var key := KeyFor(q, f).value;
    var tail := key[|Prefix(q)|..];
    assert key == Prefix(q) + tail;
    rest := q.name + tail;
    RestOfKey(q.ns, q.name, tail);
    DropQuota(key, q.ns + ['/'] + rest);
  }

  /** Different tenants never share a counter: a tenant id holds no slash. */
  lemma NamespacesIsolated(q1: Quota, f1: SubjectFields, q2: Quota, f2: SubjectFields)
    requires q1.ns != "" && q2.ns != "" && q1.ns != q2.ns
    requires '/' !in q1.ns && '/' !in q2.ns
    requires KeyFor(q1, f1).Some? && KeyFor(q2, f2).Some?
    ensures KeyFor(q1, f1) != KeyFor(q2, f2)
  {
    var r1 := NamespacedKey(q1, f1);
    var r2 := NamespacedKey(q2, f2);
    BeforeFirst(q1.ns, '/', r1);
    BeforeFirst(q2.ns, '/', r2);
  }

  /** A default-tenant key without a slash is no namespaced tenant's key. */
  lemma DefaultTenantIsolated(q1: Quota, f1: SubjectFields, q2: Quota, f2: SubjectFields)
    requires q1.ns == "" && q2.ns != ""
    requires KeyFor(q1, f1).Some? && KeyFor(q2, f2).Some?
    requires '/' !in KeyFor(q1, f1).value
    ensures KeyFor(q1, f1) != KeyFor(q2, f2)
  {
    var r := NamespacedKey(q2, f2);
    var key := KeyFor(q2, f2).value;
    assert key[6..][|q2.ns|] == '/';
    assert key[6 + |q2.ns|] == '/';
  }

  /** A tenant's quota that would count on the same counters. */
  ghost predicate NamespacedTwin(q1: Quota, f1: SubjectFields, q2: Quota, f2: SubjectFields) {
    q2.ns != "" && '/' !in q2.ns && KeyFor(q2, f2).Some? && KeyFor(q2, f2) == KeyFor(q1, f1)
  }

  /** The text of a key after `quota:` names a namespace: it has a slash, and not in front. */
  predicate NamesNamespace(text: string) {
    '/' in text && text[0] != '/'
  }

  /** What follows `quota:` in a key. */
  function AfterQuota(key: string): (text: string)
    requires "quota:" <= key
    ensures key == "quota:" + text
  {
    key[6..]
  }

  lemma KeyStarts(q: Quota, f: SubjectFields)
    requires KeyFor(q, f).Some?
    ensures "quota:" <= KeyFor(q, f).value
  {
    KeyExtendsPrefix(q, f);
  }

  lemma TwinNamesNamespace(q1: Quota, f1: SubjectFields, q2: Quota, f2: SubjectFields)
    requires KeyFor(q1, f1).Some? && NamespacedTwin(q1, f1, q2, f2)
    ensures "quota:" <= KeyFor(q1, f1).value && NamesNamespace(AfterQuota(KeyFor(q1, f1).value))
  {
    KeyStarts(q1, f1);
    var rest := NamespacedKey(q2, f2);
    var text := AfterQuota(KeyFor(q1, f1).value);
    assert text == q2.ns + ['/'] + rest;
    assert text[|q2.ns|] == '/' && text[0] == q2.ns[0];
  }

  /** The quota of the named namespace that counts on `quota:` followed by `text`. */
  lemma TwinOfText(q: Quota, f: SubjectFields, text: string) returns (twin: Quota)
    requires NamesNamespace(text)
    ensures twin.ns != "" && '/' !in twin.ns && KeyFor(twin, f) == Some("quota:" + text)
  {
    var ns := Before(text, '/');
    var rest := BeforeSplits(text, '/');
    twin := QuotaOptions(rest, Global, q.unit, q.limit, q.windowSeconds, q.onMissing, ns);
    assert "quota:" + text == "quota:" + ns + "/" + rest;
  }

  /** Exactly when a default-tenant key is also a tenant's: when what follows `quota:` has a slash, not in front. */
  lemma DefaultTenantCollidesExactly(q1: Quota, f1: SubjectFields)
    requires q1.ns == "" && KeyFor(q1, f1).Some?
    ensures "quota:" <= KeyFor(q1, f1).value
    ensures (exists q2: Quota, f2 :: NamespacedTwin(q1, f1, q2, f2)) <==> NamesNamespace(AfterQuota(KeyFor(q1, f1).value))
  {
    KeyStarts(q1, f1);
    var text := AfterQuota(KeyFor(q1, f1).value);
    if q2: Quota, f2 :| NamespacedTwin(q1, f1, q2, f2) {
      TwinNamesNamespace(q1, f1, q2, f2);
    }
    if NamesNamespace(text) {
      var twin := TwinOfText(q1, f1, text);
      assert NamespacedTwin(q1, f1, twin, f1);
    }
  }

  /** The slash is what keeps them apart: a default-tenant rule named `ns/name` shares every counter of `name` in `ns`. */
  lemma SlashInDefaultNameCollides(q: Quota, f: SubjectFields)
    requires q.ns != ""
    ensures KeyFor(q.(ns := "", name := q.ns + "/" + q.name), f) == KeyFor(q, f)
  {
    var p := q.(ns := "", name := q.ns + "/" + q.name);
    assert Prefix(p) == Prefix(q);
  }
}
