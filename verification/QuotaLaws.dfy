/**
 * What a quota admits, told from the requests alone: which of them count together, what each is charged, and which
 * of a sequence are granted (quotaRules.ts, quotaStore.ts).
 */
module QuotaLaws {
  import opened Text
  import opened Windows
  import opened QuotaStores
  import opened QuotaRules

  /** The request carries what the quota keys on. */
  predicate Carries(q: Quota, f: SubjectFields) {
    match q.subject
    case Ip => f.clientIp.Some?
    case ApiKey => f.apiKeyId.Some?
    case Target => f.calls.Some? && |f.calls.value| == 1
    case _ => true
  }

  /** Two requests are of one subject. */
  predicate SameSubject(q: Quota, f: SubjectFields, g: SubjectFields)
    requires Carries(q, f) && Carries(q, g)
  {
    match q.subject
    case Wallet => f.chainId == g.chainId && Lower(f.sender) == Lower(g.sender)
    case Ip => f.clientIp == g.clientIp
    case ApiKey => f.apiKeyId == g.apiKeyId
    case Chain => f.chainId == g.chainId
    case Target => f.chainId == g.chainId && Lower(f.calls.value[0]) == Lower(g.calls.value[0])
    case Global => true
  }

  lemma KeyMissingExactly(q: Quota, f: SubjectFields)
    ensures KeyFor(q, f).None? <==> !Carries(q, f)
  {
  }

  // ---------------------------------------------------------------------------------------------
  // Which requests count together

  lemma SameRest(prefix: string, a: string, b: string)
    requires prefix + a == prefix + b
    ensures a == b
  {
    assert (prefix + a)[|prefix|..] == a && (prefix + b)[|prefix|..] == b;
  }

  lemma NumeralInjective(m: nat, n: nat)
    requires Dec(m) == Dec(n)
    ensures m == n
  {
    ParseDecInvertsDec(m);
    ParseDecInvertsDec(n);
  }

  lemma NumeralThenText(m: nat, a: string, n: nat, b: string)
    requires Dec(m) + [':'] + a == Dec(n) + [':'] + b
    ensures m == n && a == b
  {
    assert ':' !in Dec(m) && ':' !in Dec(n);
    BeforeFirst(Dec(m), ':', a);
    BeforeFirst(Dec(n), ':', b);
    NumeralInjective(m, n);
    SameRest(Dec(m) + [':'], a, b);
  }

  lemma OfChain(prefix: string, m: nat, n: nat)
    ensures prefix + ":" + Dec(m) == prefix + ":" + Dec(n) <==> m == n
  {
    if prefix + ":" + Dec(m) == prefix + ":" + Dec(n) {
      SameRest(prefix + ":", Dec(m), Dec(n));
      NumeralInjective(m, n);
    }
  }

  lemma Regrouped(prefix: string, m: nat, a: string)
    ensures prefix + ":" + Dec(m) + ":" + a == prefix + ":" + (Dec(m) + [':'] + a)
  {
  }

  lemma OfAddress(prefix: string, m: nat, a: string, n: nat, b: string)
    ensures prefix + ":" + Dec(m) + ":" + a == prefix + ":" + Dec(n) + ":" + b <==> m == n && a == b
  {
    if prefix + ":" + Dec(m) + ":" + a == prefix + ":" + Dec(n) + ":" + b {
      Regrouped(prefix, m, a);
      Regrouped(prefix, n, b);
      SameRest(prefix + ":", Dec(m) + [':'] + a, Dec(n) + [':'] + b);
      NumeralThenText(m, a, n, b);
    }
  }

  lemma OfText(prefix: string, a: string, b: string)
    ensures prefix + ":" + a == prefix + ":" + b <==> a == b
  {
    if prefix + ":" + a == prefix + ":" + b {
      SameRest(prefix + ":", a, b);
    }
  }

  /** Two requests that carry a quota's subject have one key exactly when they are of one subject. */
  lemma KeysAgreeExactly(q: Quota, f: SubjectFields, g: SubjectFields)
    requires Carries(q, f) && Carries(q, g)
    ensures KeyFor(q, f) == KeyFor(q, g) <==> SameSubject(q, f, g)
  {
    var prefix := Prefix(q);
    match q.subject
    case Wallet => OfAddress(prefix, f.chainId, Lower(f.sender), g.chainId, Lower(g.sender));
    case Ip => OfText(prefix, f.clientIp.value, g.clientIp.value);
    case ApiKey => OfText(prefix, f.apiKeyId.value, g.apiKeyId.value);
    case Chain => OfChain(prefix, f.chainId, g.chainId);
    case Target => OfAddress(prefix, f.chainId, Lower(f.calls.value[0]), g.chainId, Lower(g.calls.value[0]));
    case Global =>
  }

  lemma SameStart(a: nat, b: nat, windowSeconds: nat)
    requires windowSeconds > 0
    ensures WindowStart(a, windowSeconds) == WindowStart(b, windowSeconds) <==> a / windowSeconds == b / windowSeconds
  {
    var m, n := a / windowSeconds, b / windowSeconds;
    if m < n {
      Apart(m, n, windowSeconds);
    } else if n < m {
      Apart(n, m, windowSeconds);
    }
  }

  /** They count together: of one subject, in one window. */
  predicate Together(q: Quota, a: Context, b: Context) {
    Carries(q, a.fields) && Carries(q, b.fields) && SameSubject(q, a.fields, b.fields) && a.now / q.windowSeconds == b.now / q.windowSeconds
  }

  /** Two requests are charged on one counter exactly when they are of one subject, in one window. */
  lemma ChargedTogetherExactly(q: Quota, a: Context, b: Context)
    requires Carries(q, a.fields) && Carries(q, b.fields)
    ensures SlotFor(q, a).Some? && SlotFor(q, b).Some?
    ensures SlotFor(q, a) == SlotFor(q, b) <==> Together(q, a, b)
  {
    var k, l := KeyFor(q, a.fields).value, KeyFor(q, b.fields).value;
    var s, t := WindowStart(a.now, q.windowSeconds), WindowStart(b.now, q.windowSeconds);
    KeysAgreeExactly(q, a.fields, b.fields);
    SameStart(a.now, b.now, q.windowSeconds);
    if SlotFor(q, a) == SlotFor(q, b) {
      SlotNameInjective(k, q.windowSeconds, s, l, q.windowSeconds, t);
    }
  }

  // ---------------------------------------------------------------------------------------------
  // What a request is charged, and whether it is granted

  /** One operation, or the whole gwei that the worst case starts. */
  function Charge(q: Quota, ctx: Context): nat {
    if q.unit == Operations then 1
    else ctx.maxCost / 1_000_000_000 + if ctx.maxCost % 1_000_000_000 == 0 then 0 else 1
  }

  /** What one charged unit stands for in the unit of the limit. */
  function UnitOf(q: Quota): nat {
    if q.unit == Operations then 1 else 1_000_000_000
  }

  predicate HasRoom(q: Quota, spent: nat, ctx: Context) {
    (spent + Charge(q, ctx)) * UnitOf(q) <= q.limit
  }

  lemma CountedAsCharged(q: Quota, ctx: Context, counters: Counters, slot: string)
    ensures AmountFor(q, ctx) == Charge(q, ctx)
    ensures Fits(counters, slot, AmountFor(q, ctx), CountedLimit(q)) <==> HasRoom(q, Usage(counters, slot), ctx)
  {
  }

  /** The answer, case by case: missing subject, lost call, room, and the refusal that names the rule and its code. */
  lemma VerdictExactly(q: Quota, counters: Counters, ctx: Context, link: Link)
    ensures Carries(q, ctx.fields) ==> SlotFor(q, ctx).Some?
    ensures Verdict(q, counters, ctx, link)
            == if !Carries(q, ctx.fields) then Some(if q.onMissing == SkipMissing then Allow else Deny(q.name, QuotaExceeded))
               else if link != Up then None
               else if HasRoom(q, Usage(counters, SlotFor(q, ctx).value), ctx) then Some(Allow)
               else Some(Deny(q.name, if q.unit == Wei then SpendCapExceeded else QuotaExceeded))
  {
    KeyMissingExactly(q, ctx.fields);
    if Carries(q, ctx.fields) {
      CountedAsCharged(q, ctx, counters, SlotFor(q, ctx).value);
    }
  }

  /** What one request leaves on the counter of another: its charge, if it was granted room and they count together. */
  lemma ChargedExactly(q: Quota, counters: Counters, ctx: Context, link: Link, other: Context)
    requires Carries(q, other.fields)
    ensures SlotFor(q, other).Some? && (Carries(q, ctx.fields) ==> SlotFor(q, ctx).Some?)
    ensures Usage(AfterEvaluate(q, counters, ctx, link), SlotFor(q, other).value)
            == Usage(counters, SlotFor(q, other).value)
               + if Together(q, ctx, other) && link != RequestLost && HasRoom(q, Usage(counters, SlotFor(q, ctx).value), ctx)
                 then Charge(q, ctx) else 0
  {
    KeyMissingExactly(q, ctx.fields);
    KeyMissingExactly(q, other.fields);
    if Carries(q, ctx.fields) {
      ChargedTogetherExactly(q, ctx, other);
      CountedAsCharged(q, ctx, counters, SlotFor(q, ctx).value);
    }
  }

  // ---------------------------------------------------------------------------------------------
  // Sequences of requests

  /** What the granted among the first `n` requests were charged that count together with `ctx`. */
  function Spent(q: Quota, requests: seq<Context>, n: nat, ctx: Context): nat
    requires n <= |requests|
    decreases n, 0
  {
    if n == 0 then 0
    else Spent(q, requests, n - 1, ctx)
         + if Together(q, requests[n - 1], ctx) && Granted(q, requests, n - 1) then Charge(q, requests[n - 1]) else 0
  }

  /** Request `k` fits beside the granted requests before it. */
  predicate Granted(q: Quota, requests: seq<Context>, k: nat)
    requires k < |requests|
    decreases k, 1
  {
    Carries(q, requests[k].fields) && HasRoom(q, Spent(q, requests, k, requests[k]), requests[k])
  }

  /** The counters after the first `n` requests have been evaluated against one quota, from none. */
  function CountersAfter(q: Quota, requests: seq<Context>, n: nat): Counters
    requires n <= |requests|
  {
    if n == 0 then map[] else AfterEvaluate(q, CountersAfter(q, requests, n - 1), requests[n - 1], Up)
  }

  /** Each counter holds what its granted requests were charged. */
  lemma {:induction false} CountsGranted(q: Quota, requests: seq<Context>, n: nat, ctx: Context)
    requires n <= |requests| && Carries(q, ctx.fields)
    ensures SlotFor(q, ctx).Some? && Usage(CountersAfter(q, requests, n), SlotFor(q, ctx).value) == Spent(q, requests, n, ctx)
    decreases n
  {
    KeyMissingExactly(q, ctx.fields);
    if n == 0 {
    } else {
      var last := requests[n - 1];
      CountsGranted(q, requests, n - 1, ctx);
      ChargedExactly(q, CountersAfter(q, requests, n - 1), last, Up, ctx);
      if Carries(q, last.fields) {
        CountsGranted(q, requests, n - 1, last);
      }
    }
  }

  /**
   * In every sequence of requests each is allowed exactly when what was granted before it to the same subject in the
   * same window leaves room for its own charge, or when it carries no subject and the quota skips such requests.
   */
  lemma AllowedExactly(q: Quota, requests: seq<Context>, k: nat)
    requires k < |requests|
    ensures Verdict(q, CountersAfter(q, requests, k), requests[k], Up) == Some(Allow)
            <==> if Carries(q, requests[k].fields) then Granted(q, requests, k) else q.onMissing == SkipMissing
  {
    VerdictExactly(q, CountersAfter(q, requests, k), requests[k], Up);
    if Carries(q, requests[k].fields) {
      CountsGranted(q, requests, k, requests[k]);
    }
  }
}
