/** Fixed, epoch-aligned quota windows and the counter name of a window (quotaStore.ts). */
module Windows {
  import opened Text

  function WindowStart(now: nat, windowSeconds: nat): nat
    requires windowSeconds > 0
  {
    now / windowSeconds * windowSeconds
  }

  function WindowEnd(now: nat, windowSeconds: nat): nat
    requires windowSeconds > 0
  {
    WindowStart(now, windowSeconds) + windowSeconds
  }

  /** The counter name of the window of `key` that starts at `start`. */
  function SlotName(key: string, windowSeconds: nat, start: nat): string {
    key + ":" + Dec(windowSeconds) + ":" + Dec(start)
  }

  function WindowedKey(key: string, windowSeconds: nat, now: nat): string
    requires windowSeconds > 0
  {
    SlotName(key, windowSeconds, WindowStart(now, windowSeconds))
  }

  lemma WindowContains(now: nat, windowSeconds: nat)
    requires windowSeconds > 0
    ensures WindowStart(now, windowSeconds) <= now < WindowEnd(now, windowSeconds)
  {
  }

  /** A window is the instants from its start up to its end: those that have that start, and no other. */
  lemma WindowExactly(now: nat, windowSeconds: nat, t: nat)
    requires windowSeconds > 0
    ensures WindowStart(t, windowSeconds) == WindowStart(now, windowSeconds)
            <==> WindowStart(now, windowSeconds) <= t < WindowEnd(now, windowSeconds)
  {
    var m, n := now / windowSeconds, t / windowSeconds;
    WindowContains(now, windowSeconds);
    WindowContains(t, windowSeconds);
    if m < n {
      Apart(m, n, windowSeconds);
    } else if n < m {
      Apart(n, m, windowSeconds);
    }
  }

  lemma Apart(m: nat, n: nat, unit: nat)
    requires m < n && unit > 0
    ensures m * unit + unit <= n * unit
  {
    assert n == m + 1 + (n - m - 1);
    assert n * unit == m * unit + unit + (n - m - 1) * unit;
  }

  /** What `slot.split(":")` and `at(-2)`, `at(-1)` read back: window length and window start. */
  function ParseSlot(slot: string): Option<(nat, nat)> {
    var parts := Split(slot, ':');
    if |parts| < 2 then None
    else match (ParseDec(parts[|parts| - 2]), ParseDec(parts[|parts| - 1]))
      case (Some(w), Some(start)) => Some((w, start))
      case _ => None
  }

  /** A counter name parses back to its window, whatever characters its key holds. */
  lemma SlotNameParses(key: string, windowSeconds: nat, start: nat)
    ensures ParseSlot(SlotName(key, windowSeconds, start)) == Some((windowSeconds, start))
  {
    var w, b := Dec(windowSeconds), Dec(start);
    assert ':' !in w && ':' !in b;
    var front := key + [':'] + w;
    assert SlotName(key, windowSeconds, start) == front + [':'] + b;
    SplitLast(front, ':', b);
    SplitLast(key, ':', w);
    ParseDecInvertsDec(windowSeconds);
    ParseDecInvertsDec(start);
  }

  /** Distinct (key, window length, window start) triples have distinct counter names. */
  lemma SlotNameInjective(k1: string, w1: nat, s1: nat, k2: string, w2: nat, s2: nat)
    requires SlotName(k1, w1, s1) == SlotName(k2, w2, s2)
    ensures k1 == k2 && w1 == w2 && s1 == s2
  {
    SlotNameParses(k1, w1, s1);
    SlotNameParses(k2, w2, s2);
    assert k1 == SlotName(k1, w1, s1)[..|k1|];
    assert k2 == SlotName(k2, w2, s2)[..|k2|];
  }
}
