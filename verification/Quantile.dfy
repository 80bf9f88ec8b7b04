/** Histograms as the backend counts them (metrics.ts) and the quantile the dashboard reads off them (prometheus.ts). Floats are reals. */
module Quantile {
  import opened Permutations
  import opened Text

  // ---------------------------------------------------------------------------------------------
  // Observing

  function CountAtMost(observations: seq<real>, bound: real): nat {
    if observations == [] then 0
    else CountAtMost(observations[..|observations| - 1], bound) + if observations[|observations| - 1] <= bound then 1 else 0
  }

  function Total(observations: seq<real>): real {
    if observations == [] then 0.0 else Total(observations[..|observations| - 1]) + observations[|observations| - 1]
  }

  /** One series of a histogram. `observations` is what it has seen, in order. */
  class HistogramSeries {
    const bounds: seq<real>
    var buckets: array<nat>
    var sum: real
    var count: nat
    ghost var observations: seq<real>

    ghost predicate Valid()
      reads this, buckets
    {
      && buckets.Length == |bounds|
      && (forall i | 0 <= i < |bounds| :: buckets[i] == CountAtMost(observations, bounds[i]))
      && sum == Total(observations) && count == |observations|
    }

    constructor (bounds: seq<real>)
      ensures Valid() && fresh(buckets) && this.bounds == bounds && observations == []
    {
      this.bounds := bounds;
      buckets := new nat[|bounds|](_ => 0);
      sum, count, observations := 0.0, 0, [];
    }

    method Observe(value: real)
      requires Valid()
      modifies this`sum, this`count, this`observations, buckets
      ensures Valid() && observations == old(observations) + [value]
    {
      sum := sum + value;
      count := count + 1;
      observations := observations + [value];
      assert observations[..|observations| - 1] == old(observations);
      for i := 0 to |bounds|
        modifies buckets
        invariant buckets.Length == |bounds|
        invariant forall k | 0 <= k < i :: buckets[k] == CountAtMost(observations, bounds[k])
        invariant forall k | i <= k < |bounds| :: buckets[k] == old(buckets[k])
      {
        if value <= bounds[i] {
          buckets[i] := buckets[i] + 1;
        }
      }
    }
  }

  // ---------------------------------------------------------------------------------------------
  // The quantile

  datatype Bound = Finite(le: real) | Infinite

  datatype Bucket = Bucket(bound: Bound, count: nat)

  /** A bound orders before another: `a.le - b.le <= 0`. */
  predicate AtMost(a: Bound, b: Bound) {
    b.Infinite? || (a.Finite? && a.le <= b.le)
  }

  function Insert(sorted: seq<Bucket>, b: Bucket): seq<Bucket> {
    if sorted == [] then [b]
    else if AtMost(sorted[|sorted| - 1].bound, b.bound) then sorted + [b]
    else Insert(sorted[..|sorted| - 1], b) + [sorted[|sorted| - 1]]
  }

  /** A stable sort by bound. */
  function SortByBound(buckets: seq<Bucket>): seq<Bucket> {
    if buckets == [] then [] else Insert(SortByBound(buckets[..|buckets| - 1]), buckets[|buckets| - 1])
  }

  ghost predicate Ascending(buckets: seq<Bucket>) {
    forall i, j | 0 <= i < j < |buckets| :: AtMost(buckets[i].bound, buckets[j].bound)
  }

  lemma {:induction false} InsertHolds(sorted: seq<Bucket>, b: Bucket)
    ensures multiset(Insert(sorted, b)) == multiset(sorted) + multiset{b}
  {
    if sorted == [] || AtMost(sorted[|sorted| - 1].bound, b.bound) {
    } else {
      var front, last := sorted[..|sorted| - 1], sorted[|sorted| - 1];
      assert sorted == front + [last];
      InsertHolds(front, b);
    }
  }

  lemma {:induction false} InsertAscends(sorted: seq<Bucket>, b: Bucket)
    requires Ascending(sorted)
    ensures Ascending(Insert(sorted, b))
  {
    if sorted == [] || AtMost(sorted[|sorted| - 1].bound, b.bound) {
    } else {
      var front, last := sorted[..|sorted| - 1], sorted[|sorted| - 1];
      var r := Insert(front, b);
      InsertAscends(front, b);
      InsertHolds(front, b);
      forall i | 0 <= i < |r| ensures AtMost(r[i].bound, last.bound) {
        assert r[i] in multiset(r);
      }
    }
  }

  lemma {:induction false} SortAscends(buckets: seq<Bucket>)
    ensures Ascending(SortByBound(buckets)) && multiset(SortByBound(buckets)) == multiset(buckets)
  {
    if buckets == [] {
    } else {
      var front, last := buckets[..|buckets| - 1], buckets[|buckets| - 1];
      assert buckets == front + [last];
      SortAscends(front);
      InsertAscends(SortByBound(front), last);
      InsertHolds(SortByBound(front), last);
    }
  }

  function ByBound(): Relation<Bucket> {
    (a: Bucket, b: Bucket) => AtMost(a.bound, b.bound)
  }

  function OfOneBound(): Relation<Bucket> {
    (a: Bucket, b: Bucket) => a.bound == b.bound
  }

  ghost predicate DistinctBounds(buckets: seq<Bucket>) {
    forall i, j | 0 <= i < j < |buckets| :: buckets[i].bound != buckets[j].bound
  }

  lemma BoundsAreApart(buckets: seq<Bucket>)
    requires DistinctBounds(buckets)
    ensures Apart(buckets, OfOneBound()) && Symmetric(OfOneBound()) && Antisymmetric(ByBound(), OfOneBound())
  {
  }

  /** The buckets of one series can be read in any order. */
  lemma BucketOrderIsIrrelevant(a: seq<Bucket>, b: seq<Bucket>, q: real)
    requires DistinctBounds(a) && multiset(a) == multiset(b)
    ensures QuantileOf(a, q) == QuantileOf(b, q)
  {
    SortAscends(a);
    SortAscends(b);
    BoundsAreApart(a);
    ApartTransfers(a, SortByBound(a), OfOneBound());
    OneOrder(SortByBound(a), SortByBound(b), ByBound(), OfOneBound());
  }

  lemma {:induction false} SortKeepsAscending(buckets: seq<Bucket>)
    requires Ascending(buckets)
    ensures SortByBound(buckets) == buckets
  {
    if buckets != [] {
      var front := buckets[..|buckets| - 1];
      SortKeepsAscending(front);
      assert front + [buckets[|buckets| - 1]] == buckets;
    }
  }

  function Interpolated(previousLe: real, previousCount: nat, le: real, count: nat, target: real): real {
    var span := count - previousCount;
    if span <= 0 then le else previousLe + (target - previousCount as real) / span as real * (le - previousLe)
  }

  /** The first bucket whose count reaches the target decides. */
  function Seek(buckets: seq<Bucket>, target: real, previousLe: real, previousCount: nat): Bound {
    if buckets == [] then Finite(previousLe)
    else
      var b := buckets[0];
      if b.count as real >= target then
        if b.bound.Infinite? then Finite(previousLe) else Finite(Interpolated(previousLe, previousCount, b.bound.le, b.count, target))
      else if b.bound.Infinite? then Infinite
      else Seek(buckets[1..], target, b.bound.le, b.count)
  }

  /** The number of observations the quantile asks for. */
  function Target(q: real, n: nat): real {
    q * n as real
  }

  function QuantileOf(buckets: seq<Bucket>, q: real): Option<Bound> {
    var sorted := SortByBound(buckets);
    if |sorted| == 0 || sorted[|sorted| - 1].count == 0 then None
    else Some(Seek(sorted, Target(q, sorted[|sorted| - 1].count), 0.0, 0))
  }

  /** The loop over the sorted buckets. */
  method HistogramQuantile(buckets: seq<Bucket>, q: real) returns (estimate: Option<Bound>)
    ensures estimate == QuantileOf(buckets, q)
  {
    var sorted := SortByBound(buckets);
    if |sorted| == 0 {
      return None;
    }
    var total := sorted[|sorted| - 1].count;
    if total == 0 {
      return None;
    }
    var target := Target(q, total);
    var previousLe, previousCount := 0.0, 0;
    assert sorted[0..] == sorted;
    for i := 0 to |sorted|
      invariant QuantileOf(buckets, q) == Some(Seek(sorted[i..], target, previousLe, previousCount))
    {
      var bucket := sorted[i];
      if bucket.count as real >= target {
        if bucket.bound.Infinite? {
          return Some(Finite(previousLe));
        }
        return Some(Finite(Interpolated(previousLe, previousCount, bucket.bound.le, bucket.count, target)));
      }
      if bucket.bound.Infinite? {
        return Some(Infinite);
      }
      previousLe, previousCount := bucket.bound.le, bucket.count;
      assert sorted[i..][1..] == sorted[i + 1..];
    }
    return Some(Finite(previousLe));
  }

  // ---------------------------------------------------------------------------------------------
  // The order statistic, and the bucket it lies in

  function InsertReal(sorted: seq<real>, x: real): seq<real> {
    if sorted == [] then [x]
    else if sorted[|sorted| - 1] <= x then sorted + [x]
    else InsertReal(sorted[..|sorted| - 1], x) + [sorted[|sorted| - 1]]
  }

  function SortReals(s: seq<real>): (r: seq<real>)
    ensures |r| == |s|
  {
    if s == [] then []
    else
      InsertLength(SortReals(s[..|s| - 1]), s[|s| - 1]);
      InsertReal(SortReals(s[..|s| - 1]), s[|s| - 1])
  }

  lemma {:induction false} InsertLength(sorted: seq<real>, x: real)
    ensures |InsertReal(sorted, x)| == |sorted| + 1
  {
    if sorted != [] && sorted[|sorted| - 1] > x {
      InsertLength(sorted[..|sorted| - 1], x);
    }
  }

  /** The `k`-th smallest observation, counting from one. */
  function Kth(observations: seq<real>, k: nat): real
    requires 1 <= k <= |observations|
  {
    SortReals(observations)[k - 1]
  }

  ghost predicate Rising(s: seq<real>) {
    forall i, j | 0 <= i < j < |s| :: s[i] <= s[j]
  }

  lemma {:induction false} InsertRealRises(sorted: seq<real>, x: real)
    requires Rising(sorted)
    ensures Rising(InsertReal(sorted, x))
    ensures forall y :: y in InsertReal(sorted, x) <==> y in sorted || y == x
  {
    if sorted != [] && sorted[|sorted| - 1] > x {
      var front, last := sorted[..|sorted| - 1], sorted[|sorted| - 1];
      InsertRealRises(front, x);
      assert sorted == front + [last];
      var r := InsertReal(front, x);
      forall i | 0 <= i < |r| ensures r[i] <= last {
        assert r[i] in r;
      }
    }
  }

  lemma {:induction false} InsertCounts(sorted: seq<real>, x: real, bound: real)
    ensures CountAtMost(InsertReal(sorted, x), bound) == CountAtMost(sorted, bound) + if x <= bound then 1 else 0
  {
    if sorted == [] {
      assert [x][..0] == [];
    } else if sorted[|sorted| - 1] <= x {
      assert (sorted + [x])[..|sorted|] == sorted;
    } else {
      var front, last := sorted[..|sorted| - 1], sorted[|sorted| - 1];
      InsertCounts(front, x, bound);
      var r := InsertReal(front, x);
      assert (r + [last])[..|r|] == r;
    }
  }

  lemma {:induction false} SortRises(s: seq<real>)
    ensures Rising(SortReals(s))
  {
    if s != [] {
      SortRises(s[..|s| - 1]);
      InsertRealRises(SortReals(s[..|s| - 1]), s[|s| - 1]);
    }
  }

  lemma {:induction false} SortCounts(s: seq<real>, bound: real)
    ensures CountAtMost(SortReals(s), bound) == CountAtMost(s, bound)
  {
    if s != [] {
      SortCounts(s[..|s| - 1], bound);
      InsertCounts(SortReals(s[..|s| - 1]), s[|s| - 1], bound);
    }
  }

  /** In a rising sequence the count below a bound tells which elements are. */
  lemma {:induction false} RisingCounts(s: seq<real>, bound: real, k: nat)
    requires Rising(s) && 1 <= k <= |s|
    ensures s[k - 1] <= bound <==> CountAtMost(s, bound) >= k
  {
    var n := |s| - 1;
    AtMostLength(s[..n], bound);
    if k <= n {
      RisingCounts(s[..n], bound, k);
    } else if n > 0 {
      RisingCounts(s[..n], bound, n);
    }
  }

  lemma {:induction false} AtMostLength(s: seq<real>, bound: real)
    ensures CountAtMost(s, bound) <= |s|
  {
    if s != [] {
      AtMostLength(s[..|s| - 1], bound);
    }
  }

  /** The `k`-th smallest observation is within a bound exactly when at least `k` observations are. */
  lemma KthWithin(observations: seq<real>, k: nat, bound: real)
    requires 1 <= k <= |observations|
    ensures Kth(observations, k) <= bound <==> CountAtMost(observations, bound) >= k
  {
    SortRises(observations);
    SortCounts(observations, bound);
    RisingCounts(SortReals(observations), bound, k);
  }

  // ---------------------------------------------------------------------------------------------
  // Bracketing

  /** The buckets one series renders: its bounds, and `+Inf`. */
  function BucketsOf(bounds: seq<real>, observations: seq<real>): seq<Bucket> {
    seq(|bounds|, i requires 0 <= i < |bounds| => Bucket(Finite(bounds[i]), CountAtMost(observations, bounds[i])))
    + [Bucket(Infinite, |observations|)]
  }

  ghost predicate StrictlyRising(bounds: seq<real>) {
    forall i, j | 0 <= i < j < |bounds| :: bounds[i] < bounds[j]
  }

  ghost predicate NonNegative(s: seq<real>) {
    forall i | 0 <= i < |s| :: 0.0 <= s[i]
  }

  /** The lower edge of the bucket `i`. */
  function Edge(bounds: seq<real>, i: nat): real
    requires i <= |bounds|
  {
    if i == 0 then 0.0 else bounds[i - 1]
  }

  /** The least number of observations that is at least the target. */
  function Ceiling(x: real): int {
    -((-x).Floor)
  }

  /** The first bucket from `i` on that holds at least `k` observations; the count of the bounds is `+Inf`. */
  function FirstReaching(bounds: seq<real>, observations: seq<real>, k: nat, i: nat): (j: nat)
    requires i <= |bounds|
    ensures i <= j <= |bounds|
    ensures forall m | i <= m < j :: CountAtMost(observations, bounds[m]) < k
    ensures j < |bounds| ==> CountAtMost(observations, bounds[j]) >= k
    decreases |bounds| - i
  {
    if i == |bounds| || CountAtMost(observations, bounds[i]) >= k then i else FirstReaching(bounds, observations, k, i + 1)
  }

  function PreviousCount(bounds: seq<real>, observations: seq<real>, i: nat): nat
    requires i <= |bounds|
  {
    if i == 0 then 0 else CountAtMost(observations, bounds[i - 1])
  }

  /** What the loop returns, bucket by bucket. */
  function EstimateAt(bounds: seq<real>, observations: seq<real>, target: real, j: nat): real
    requires j <= |bounds|
  {
    if j == |bounds| then Edge(bounds, j)
    else Interpolated(Edge(bounds, j), PreviousCount(bounds, observations, j), bounds[j], CountAtMost(observations, bounds[j]), target)
  }

  lemma CeilingReaches(target: real, count: nat)
    ensures count as real >= target <==> count >= Ceiling(target)
  {
  }

  lemma {:induction false} SeekFinds(bounds: seq<real>, observations: seq<real>, target: real, i: nat)
    requires i <= |bounds| && 0.0 < target <= |observations| as real
    ensures Seek(BucketsOf(bounds, observations)[i..], target, Edge(bounds, i), PreviousCount(bounds, observations, i))
            == Finite(EstimateAt(bounds, observations, target, FirstReaching(bounds, observations, Ceiling(target), i)))
    decreases |bounds| - i
  {
    var buckets := BucketsOf(bounds, observations);
    if i < |bounds| {
      CeilingReaches(target, CountAtMost(observations, bounds[i]));
      SeekFinds(bounds, observations, target, i + 1);
      assert buckets[i..][1..] == buckets[i + 1..];
      assert buckets[i..][0] == buckets[i];
    }
  }

  lemma BucketsAscend(bounds: seq<real>, observations: seq<real>)
    requires StrictlyRising(bounds)
    ensures Ascending(BucketsOf(bounds, observations))
  {
  }

  lemma RankInRange(q: real, n: nat)
    requires 0.0 < q <= 1.0 && n > 0
    ensures 0.0 < Target(q, n) <= n as real && 1 <= Ceiling(Target(q, n)) <= n
  {
  }

  lemma TargetRises(p: real, q: real, n: nat)
    requires p <= q
    ensures Target(p, n) <= Target(q, n)
  {
  }

  lemma QuantileSeeks(bounds: seq<real>, observations: seq<real>, q: real)
    requires StrictlyRising(bounds) && observations != []
    ensures QuantileOf(BucketsOf(bounds, observations), q)
            == Some(Seek(BucketsOf(bounds, observations), Target(q, |observations|), 0.0, 0))
  {
    BucketsAscend(bounds, observations);
    SortKeepsAscending(BucketsOf(bounds, observations));
  }

  /** The estimate the loop returns, at the bucket it stops at. */
  lemma QuantileIsEstimate(bounds: seq<real>, observations: seq<real>, q: real, target: real)
    requires StrictlyRising(bounds) && observations != [] && target == Target(q, |observations|) && 0.0 < target <= |observations| as real
    requires Ceiling(target) >= 0
    ensures QuantileOf(BucketsOf(bounds, observations), q)
            == Some(Finite(EstimateAt(bounds, observations, target, FirstReaching(bounds, observations, Ceiling(target), 0))))
  {
    QuantileSeeks(bounds, observations, q);
    SeekFinds(bounds, observations, target, 0);
    var buckets := BucketsOf(bounds, observations);
    assert buckets[0..] == buckets;
  }

  lemma FractionWithin(f: real, d: real)
    requires 0.0 <= f <= 1.0 && 0.0 <= d
    ensures 0.0 <= f * d <= d
  {
    assert (1.0 - f) * d >= 0.0;
    assert (1.0 - f) * d == d - f * d;
  }

  lemma QuotientWithin(x: real, span: real)
    requires 0.0 < x <= span
    ensures 0.0 <= x / span <= 1.0
  {
    assert x / span * span == x;
  }

  lemma InterpolationWithin(low: real, a: nat, high: real, b: nat, target: real)
    requires low <= high && a as real < target <= b as real
    ensures low <= Interpolated(low, a, high, b, target) <= high
  {
    var span := (b - a) as real;
    assert span == b as real - a as real;
    QuotientWithin(target - a as real, span);
    FractionWithin((target - a as real) / span, high - low);
    assert Interpolated(low, a, high, b, target) == low + (target - a as real) / span * (high - low);
  }

  lemma BelowTarget(bounds: seq<real>, observations: seq<real>, target: real)
    requires 0.0 < target <= |observations| as real
    ensures var j := FirstReaching(bounds, observations, Ceiling(target), 0);
            && PreviousCount(bounds, observations, j) as real < target
            && (j < |bounds| ==> target <= CountAtMost(observations, bounds[j]) as real)
  {
    var j := FirstReaching(bounds, observations, Ceiling(target), 0);
    CeilingReaches(target, PreviousCount(bounds, observations, j));
    if j < |bounds| {
      CeilingReaches(target, CountAtMost(observations, bounds[j]));
    }
  }

  /** `x` and `estimate` lie in the bucket `j`; past the last bound, the estimate is that bound. */
  ghost predicate SharesBucket(bounds: seq<real>, x: real, estimate: real, j: nat) {
    && j <= |bounds|
    && (j > 0 ==> bounds[j - 1] < x)
    && if j < |bounds| then x <= bounds[j] && Edge(bounds, j) <= estimate <= bounds[j] else estimate == Edge(bounds, j)
  }

  lemma EstimateSharesBucket(bounds: seq<real>, observations: seq<real>, target: real, k: nat)
    requires StrictlyRising(bounds) && NonNegative(bounds)
    requires 0.0 < target <= |observations| as real && k == Ceiling(target) && 1 <= k <= |observations|
    ensures var j := FirstReaching(bounds, observations, k, 0);
            SharesBucket(bounds, Kth(observations, k), EstimateAt(bounds, observations, target, j), j)
  {
    var j := FirstReaching(bounds, observations, k, 0);
    BelowTarget(bounds, observations, target);
    if j > 0 {
      KthWithin(observations, k, bounds[j - 1]);
    }
    if j < |bounds| {
      KthWithin(observations, k, bounds[j]);
      InterpolationWithin(Edge(bounds, j), PreviousCount(bounds, observations, j), bounds[j], CountAtMost(observations, bounds[j]), target);
    }
  }

  /**
   * Bracketing: the estimate lies in the bucket of the ceil(q*n)-th smallest observation, or is the largest
   * finite bound when that observation exceeds them all.
   */
  lemma EstimateBracketsOrderStatistic(bounds: seq<real>, observations: seq<real>, q: real) returns (k: nat, estimate: real, j: nat)
    requires StrictlyRising(bounds) && NonNegative(bounds)
    requires observations != [] && 0.0 < q <= 1.0
    ensures k == Ceiling(Target(q, |observations|)) && 1 <= k <= |observations|
    ensures QuantileOf(BucketsOf(bounds, observations), q) == Some(Finite(estimate))
    ensures SharesBucket(bounds, Kth(observations, k), estimate, j)
  {
    var target := Target(q, |observations|);
    RankInRange(q, |observations|);
    k := Ceiling(target);
    j := FirstReaching(bounds, observations, k, 0);
    estimate := EstimateAt(bounds, observations, target, j);
    QuantileIsEstimate(bounds, observations, q, target);
    EstimateSharesBucket(bounds, observations, target, k);
  }

  /** `(x / s) * d` is what gives `x * d` back over `s`. */
  lemma ShareOfSpan(x: real, span: real, d: real)
    requires span > 0.0
    ensures (x / span * d) * span == x * d
  {
    var f := x / span;
    assert f * span == x;
    assert (f * d) * span == (f * span) * d;
  }

  lemma InterpolationIsLinear(low: real, a: nat, high: real, b: nat, target: real)
    requires a < b
    ensures (Interpolated(low, a, high, b, target) - low) * (b - a) as real == (target - a as real) * (high - low)
  {
    ShareOfSpan(target - a as real, (b - a) as real, high - low);
  }

  /** `estimate` is as far from `low` to `high` as `target` is from the count `a` to the count `b`. */
  predicate InProportion(low: real, a: nat, high: real, b: nat, target: real, estimate: real) {
    if a < b then (estimate - low) * (b - a) as real == (target - a as real) * (high - low) else estimate == high
  }

  /** Where in the bucket `j` a quantile with the rank `target` is estimated. */
  ghost predicate EstimatedIn(bounds: seq<real>, observations: seq<real>, target: real, j: nat, estimate: real) {
    && j <= |bounds|
    && (forall m | 0 <= m < j :: CountAtMost(observations, bounds[m]) as real < target)
    && var low, a := if j == 0 then 0.0 else bounds[j - 1], if j == 0 then 0 else CountAtMost(observations, bounds[j - 1]);
       if j == |bounds| then estimate == low
       else CountAtMost(observations, bounds[j]) as real >= target
            && InProportion(low, a, bounds[j], CountAtMost(observations, bounds[j]), target, estimate)
  }

  lemma InterpolatedInProportion(low: real, a: nat, high: real, b: nat, target: real)
    ensures InProportion(low, a, high, b, target, Interpolated(low, a, high, b, target))
  {
    if a < b {
      InterpolationIsLinear(low, a, high, b, target);
    }
  }

  /** The loop stops at the first bucket whose count is no less than the target. */
  lemma {:induction false} SeekStops(bounds: seq<real>, observations: seq<real>, target: real, i: nat) returns (j: nat, estimate: real)
    requires i <= |bounds| && target <= |observations| as real
    requires forall m | 0 <= m < i :: CountAtMost(observations, bounds[m]) as real < target
    ensures EstimatedIn(bounds, observations, target, j, estimate)
    ensures Seek(BucketsOf(bounds, observations)[i..], target, Edge(bounds, i), PreviousCount(bounds, observations, i)) == Finite(estimate)
    decreases |bounds| - i
  {
    var buckets := BucketsOf(bounds, observations);
    assert buckets[i..][0] == buckets[i];
    if i == |bounds| {
      j, estimate := i, Edge(bounds, i);
    } else if CountAtMost(observations, bounds[i]) as real >= target {
      var low, a, b := Edge(bounds, i), PreviousCount(bounds, observations, i), CountAtMost(observations, bounds[i]);
      j, estimate := i, Interpolated(low, a, bounds[i], b, target);
      InterpolatedInProportion(low, a, bounds[i], b, target);
    } else {
      j, estimate := SeekStops(bounds, observations, target, i + 1);
      assert buckets[i..][1..] == buckets[i + 1..];
    }
  }

  /**
   * The estimate lies in the first bucket whose count is no less than `q * n`, as far into it as the rank is into its
   * observations; it is that bucket's bound when the bucket adds none, and the largest bound when no bucket is reached.
   */
  lemma EstimateIsInterpolated(bounds: seq<real>, observations: seq<real>, q: real) returns (estimate: real, j: nat)
    requires StrictlyRising(bounds) && observations != [] && q <= 1.0
    ensures QuantileOf(BucketsOf(bounds, observations), q) == Some(Finite(estimate))
    ensures EstimatedIn(bounds, observations, q * |observations| as real, j, estimate)
  {
    var buckets := BucketsOf(bounds, observations);
    TargetRises(q, 1.0, |observations|);
    QuantileSeeks(bounds, observations, q);
    assert buckets[0..] == buckets;
    j, estimate := SeekStops(bounds, observations, Target(q, |observations|), 0);
  }

  lemma {:induction false} SeekPasses(bounds: seq<real>, observations: seq<real>, target: real, i: nat)
    requires i <= |bounds| && |observations| as real < target
    ensures Seek(BucketsOf(bounds, observations)[i..], target, Edge(bounds, i), PreviousCount(bounds, observations, i)) == Infinite
    decreases |bounds| - i
  {
    var buckets := BucketsOf(bounds, observations);
    assert buckets[i..][0] == buckets[i];
    if i == |bounds| {
    } else {
      AtMostLength(observations, bounds[i]);
      SeekPasses(bounds, observations, target, i + 1);
      assert buckets[i..][1..] == buckets[i + 1..];
    }
  }

  /** Without observations there is no estimate, and beyond them all it is infinite. */
  lemma EstimateBeyond(bounds: seq<real>, observations: seq<real>, q: real)
    requires StrictlyRising(bounds)
    ensures QuantileOf(BucketsOf(bounds, observations), q) == None <==> observations == []
    ensures observations != [] && q > 1.0 ==> QuantileOf(BucketsOf(bounds, observations), q) == Some(Infinite)
  {
    var buckets := BucketsOf(bounds, observations);
    BucketsAscend(bounds, observations);
    SortKeepsAscending(buckets);
    if observations != [] && q > 1.0 {
      assert q * |observations| as real > |observations| as real;
      assert buckets[0..] == buckets;
      SeekPasses(bounds, observations, Target(q, |observations|), 0);
    }
  }

  lemma InterpolationRises(low: real, a: nat, high: real, b: nat, t: real, u: real)
    requires low <= high && a < b && t <= u
    ensures Interpolated(low, a, high, b, t) <= Interpolated(low, a, high, b, u)
  {
    var f, g := (t - a as real) / (b - a) as real, (u - a as real) / (b - a) as real;
    assert f <= g;
    assert (g - f) * (high - low) >= 0.0;
    assert (g - f) * (high - low) == g * (high - low) - f * (high - low);
  }

  lemma {:induction false} MoreIsFurther(bounds: seq<real>, observations: seq<real>, k: nat, l: nat, i: nat)
    requires k <= l && i <= |bounds|
    ensures FirstReaching(bounds, observations, k, i) <= FirstReaching(bounds, observations, l, i)
    decreases |bounds| - i
  {
    if i < |bounds| {
      MoreIsFurther(bounds, observations, k, l, i + 1);
    }
  }

  lemma EstimateRises(bounds: seq<real>, observations: seq<real>, t: real, u: real)
    requires StrictlyRising(bounds) && NonNegative(bounds)
    requires 0.0 < t <= u <= |observations| as real
    ensures Ceiling(t) >= 0 && Ceiling(u) >= 0
    ensures var i, j := FirstReaching(bounds, observations, Ceiling(t), 0), FirstReaching(bounds, observations, Ceiling(u), 0);
            EstimateAt(bounds, observations, t, i) <= EstimateAt(bounds, observations, u, j)
  {
    var i, j := FirstReaching(bounds, observations, Ceiling(t), 0), FirstReaching(bounds, observations, Ceiling(u), 0);
    MoreIsFurther(bounds, observations, Ceiling(t), Ceiling(u), 0);
    BelowTarget(bounds, observations, t);
    BelowTarget(bounds, observations, u);
    if i < |bounds| {
      var a, b := PreviousCount(bounds, observations, i), CountAtMost(observations, bounds[i]);
      InterpolationWithin(Edge(bounds, i), a, bounds[i], b, t);
      if i == j {
        InterpolationRises(Edge(bounds, i), a, bounds[i], b, t, u);
      } else {
        assert bounds[i] <= Edge(bounds, j);
        if j < |bounds| {
          InterpolationWithin(Edge(bounds, j), PreviousCount(bounds, observations, j), bounds[j], CountAtMost(observations, bounds[j]), u);
        }
      }
    }
  }

  /** A larger quantile is never estimated below a smaller one. */
  lemma EstimateIsMonotone(bounds: seq<real>, observations: seq<real>, p: real, q: real) returns (low: real, high: real)
    requires StrictlyRising(bounds) && NonNegative(bounds) && observations != [] && 0.0 < p <= q <= 1.0
    ensures QuantileOf(BucketsOf(bounds, observations), p) == Some(Finite(low))
    ensures QuantileOf(BucketsOf(bounds, observations), q) == Some(Finite(high))
    ensures low <= high
  {
    var t, u := Target(p, |observations|), Target(q, |observations|);
    RankInRange(p, |observations|);
    RankInRange(q, |observations|);
    TargetRises(p, q, |observations|);
    QuantileIsEstimate(bounds, observations, p, t);
    QuantileIsEstimate(bounds, observations, q, u);
    EstimateRises(bounds, observations, t, u);
    low := EstimateAt(bounds, observations, t, FirstReaching(bounds, observations, Ceiling(t), 0));
    high := EstimateAt(bounds, observations, u, FirstReaching(bounds, observations, Ceiling(u), 0));
  }
}
