/**
 The market scan of agents/moltguard.py, over exact reals. A z-score above three under the
 sample deviation is possible for only so many markets at once; the limit is exact.
 */
module Moltguard {
  import opened Common

  const ZSCORE_THRESHOLD := 3.0
  const PRICE_MOVE_THRESHOLD := 0.15
  const LOW_LIQUIDITY_THRESHOLD := 10000.0
  const MIN_SAMPLE := 10

  datatype Market = Market(id: string, volume24h: real, volumeTotal: real, prices: seq<real>)

  datatype Flag = VolumeSpike | PriceMove(outcome: nat) | LowLiquiditySurge

  datatype Anomaly = Anomaly(market: Market, flags: seq<Flag>)

  predicate HasSpike(a: Anomaly) {
    VolumeSpike in a.flags
  }

  // ----- the statistics -----

  function Total(vs: seq<real>): real {
    if vs == [] then 0.0 else vs[0] + Total(vs[1..])
  }

  function Mean(vs: seq<real>): real
    requires vs != []
  {
    Total(vs) / |vs| as real
  }

  /** Sum and sum of squares of the distances from m. */
  function Dev(vs: seq<real>, m: real): real {
    if vs == [] then 0.0 else (vs[0] - m) + Dev(vs[1..], m)
  }

  function Product(x: real, y: real): real {
    x * y
  }

  function Square(x: real): real {
    Product(x, x)
  }

  function SqDev(vs: seq<real>, m: real): real {
    if vs == [] then 0.0 else Square(vs[0] - m) + SqDev(vs[1..], m)
  }

  /** What `statistics.stdev` returns: the root of the squared distances over n - 1. */
  ghost predicate IsSampleDeviation(vs: seq<real>, sd: real) {
    && |vs| >= 2 && sd >= 0.0
    && sd * sd * (|vs| - 1) as real == SqDev(vs, Mean(vs))
  }

  function Spread(sd: real): real {
    if sd == 0.0 then 1.0 else sd
  }

  predicate Spikes(v: real, vs: seq<real>, sd: real)
    requires vs != []
  {
    Spread(sd) != 0.0 && (v - Mean(vs)) / Spread(sd) > ZSCORE_THRESHOLD
  }

  /** The volumes with a z-score over the threshold. */
  function Spiking(vs: seq<real>, sd: real): seq<real>
    requires vs != []
  {
    Filter(vs, SpikeTest(vs, sd))
  }

  function SpikeTest(vs: seq<real>, sd: real): real -> bool
    requires vs != []
  {
    v => Spikes(v, vs, sd)
  }

  lemma {:induction false} DevTotal(vs: seq<real>, m: real)
    ensures Dev(vs, m) == Total(vs) - |vs| as real * m
  {
    if vs != [] {
      DevTotal(vs[1..], m);
    }
  }

  lemma {:induction false} DevSplit(vs: seq<real>, m: real, p: real -> bool, q: real -> bool)
    requires forall v :: q(v) == !p(v)
    ensures Dev(Filter(vs, p), m) + Dev(Filter(vs, q), m) == Dev(vs, m)
    ensures SqDev(Filter(vs, p), m) + SqDev(Filter(vs, q), m) == SqDev(vs, m)
    ensures |Filter(vs, p)| + |Filter(vs, q)| == |vs|
  {
    if vs != [] {
      hide Square;
      var kept, left := Filter(vs[1..], p), Filter(vs[1..], q);
      DevSplit(vs[1..], m, p, q);
      if p(vs[0]) {
        assert Filter(vs, p) == [vs[0]] + kept && Filter(vs, q) == left;
        DevPrepend(vs[0], kept, m);
      } else {
        assert Filter(vs, p) == kept && Filter(vs, q) == [vs[0]] + left;
        DevPrepend(vs[0], left, m);
      }
    }
  }

  lemma DevPrepend(v: real, vs: seq<real>, m: real)
    ensures Dev([v] + vs, m) == v - m + Dev(vs, m)
    ensures SqDev([v] + vs, m) == Square(v - m) + SqDev(vs, m)
  {
    assert ([v] + vs)[1..] == vs;
  }

  /** What n squares cost at least when their distances add up to d. */
  function Tangent(n: real, a: real, d: real): real {
    2.0 * a * d - n * a * a
  }

  /** The tangent at a lies below the square. */
  lemma {:induction false} SqDevTangent(vs: seq<real>, m: real, a: real)
    ensures SqDev(vs, m) >= Tangent(|vs| as real, a, Dev(vs, m))
  {
    if vs != [] {
      SqDevTangent(vs[1..], m, a);
      var d := vs[0] - m;
      assert (d - a) * (d - a) >= 0.0;
      assert d * d >= 2.0 * a * d - a * a;
    }
  }

  lemma CauchySchwarz(vs: seq<real>, m: real)
    ensures Product(|vs| as real, SqDev(vs, m)) >= Square(Dev(vs, m))
  {
    if vs == [] {
      assert Dev(vs, m) == 0.0;
    } else {
      hide Dev, SqDev, Square, Tangent, Product;
      var n, d := |vs| as real, Dev(vs, m);
      SqDevTangent(vs, m, d / n);
      TangentAtMean(n, d, SqDev(vs, m));
    }
  }

  lemma TangentAtMean(n: real, d: real, squares: real)
    requires n > 0.0 && squares >= Tangent(n, d / n, d)
    ensures Product(n, squares) >= Square(d)
  {
    var a := d / n;
    assert n * a == d;
    assert n * a * a == d * a;
    assert squares >= a * d;
    MulMono(n, a * d, squares);
    assert n * (a * d) == (n * a) * d;
  }

  lemma MulMono(c: real, x: real, y: real)
    requires c >= 0.0 && x <= y
    ensures c * x <= c * y
  {
    assert c * (y - x) >= 0.0;
  }

  lemma {:induction false} DevAbove(vs: seq<real>, m: real, bound: real)
    requires vs != [] && forall v :: v in vs ==> v - m > bound
    ensures Dev(vs, m) > Product(|vs| as real, bound)
  {
    assert vs[0] in vs;
    if |vs| > 1 {
      assert forall v :: v in vs[1..] ==> v in vs;
      DevAbove(vs[1..], m, bound);
      assert |vs| as real * bound == bound + (|vs| - 1) as real * bound;
    } else {
      assert vs[1..] == [];
    }
  }

  lemma {:induction false} SqDevNonNegative(vs: seq<real>, m: real)
    ensures SqDev(vs, m) >= 0.0
    ensures forall v :: v in vs ==> SqDev(vs, m) >= Square(v - m)
  {
    if vs != [] {
      SqDevNonNegative(vs[1..], m);
      assert Square(vs[0] - m) >= 0.0;
      assert vs == [vs[0]] + vs[1..];
    }
  }

  /** The test in squares, free of the root. */
  lemma SpikeInSquares(v: real, vs: seq<real>, sd: real)
    requires IsSampleDeviation(vs, sd) && v in vs
    ensures var d := v - Mean(vs);
            Spikes(v, vs, sd) <==> d > 0.0 && Square(d) * (|vs| - 1) as real > 9.0 * SqDev(vs, Mean(vs))
  {
    hide Square, SqDev, Mean, Spread;
    SqDevNonNegative(vs, Mean(vs));
    ScoreInSquares(v - Mean(vs), sd, (|vs| - 1) as real, SqDev(vs, Mean(vs)));
  }

  lemma ScoreInSquares(d: real, sd: real, n1: real, squares: real)
    requires n1 > 0.0 && sd >= 0.0 && sd * sd * n1 == squares && squares >= Square(d)
    ensures Spread(sd) > 0.0
    ensures d / Spread(sd) > 3.0 ==> sd > 0.0
    ensures d / Spread(sd) > 3.0 <==> d > 0.0 && Square(d) * n1 > 9.0 * squares
  {
    if sd == 0.0 {
      assert sd * sd == 0.0;
      NoSquareNoDistance(d);
    } else {
      QuotientAbove(d, sd, 3.0);
      if d > 0.0 {
        SquaresCompare(d, 3.0 * sd);
        NineTimes(sd, n1);
        ScaledCompare(d * d, (3.0 * sd) * (3.0 * sd), n1);
      }
    }
  }

  lemma ProductPositive(x: real, y: real)
    requires x > 0.0 && y > 0.0
    ensures Product(x, y) > 0.0
  {
  }

  lemma NoSquareNoDistance(d: real)
    ensures d != 0.0 ==> Square(d) > 0.0
  {
    if d > 0.0 {
      ProductPositive(d, d);
    } else if d < 0.0 {
      ProductPositive(-d, -d);
      SquareOfNegative(d, -d);
    }
  }

  lemma NineTimes(sd: real, n1: real)
    ensures (3.0 * sd) * (3.0 * sd) * n1 == 9.0 * (sd * sd * n1)
  {
    assert (3.0 * sd) * (3.0 * sd) == 9.0 * (sd * sd);
  }

  lemma QuotientAbove(d: real, s: real, c: real)
    requires s > 0.0
    ensures d / s > c <==> d > c * s
  {
    var q := d / s;
    assert q * s == d;
    ScaledCompare(q, c, s);
  }

  lemma ScaledCompare(x: real, y: real, c: real)
    requires c > 0.0
    ensures x > y <==> x * c > y * c
  {
    var gap := x - y;
    assert x * c - y * c == gap * c;
    if gap > 0.0 {
      assert gap * c > 0.0;
    } else {
      assert (-gap) * c >= 0.0;
    }
  }

  lemma SquaresCompare(d: real, b: real)
    requires d > 0.0 && b >= 0.0
    ensures d > b <==> d * d > b * b
  {
    ScaledCompare(d, b, d + b);
    assert d * (d + b) - b * (d + b) == d * d - b * b;
  }

  /** How many of n markets can spike at once. */
  predicate SpikesFit(n: int, k: int) {
    k > 0 ==> 9 * k * n < (n - 1) * (n - k)
  }

  lemma NoSpikeFits(n: int)
    ensures SpikesFit(n, 0)
  {
  }

  lemma MeanCentres(vs: seq<real>)
    requires vs != []
    ensures Dev(vs, Mean(vs)) == 0.0
  {
    DevTotal(vs, Mean(vs));
  }

  lemma SpikesAreFar(vs: seq<real>, sd: real)
    requires IsSampleDeviation(vs, sd) && Spiking(vs, sd) != []
    ensures sd > 0.0
    ensures forall v :: v in Spiking(vs, sd) ==> v - Mean(vs) > 3.0 * sd
  {
    hide Square, SqDev, Mean;
    var spike := SpikeTest(vs, sd);
    forall v | v in Spiking(vs, sd) ensures v in vs && Spikes(v, vs, sd) {
      FilterMember(vs, spike, v);
    }
    var first := Spiking(vs, sd)[0];
    assert first in Spiking(vs, sd);
    SqDevNonNegative(vs, Mean(vs));
    ScoreInSquares(first - Mean(vs), sd, (|vs| - 1) as real, SqDev(vs, Mean(vs)));
    forall v | v in Spiking(vs, sd) ensures v - Mean(vs) > 3.0 * sd {
      QuotientAbove(v - Mean(vs), sd, 3.0);
    }
  }

  /** If k of n volumes spike then 9kn < (n - 1)(n - k). */
  lemma SpikeBound(vs: seq<real>, sd: real)
    requires IsSampleDeviation(vs, sd)
    ensures SpikesFit(|vs|, |Spiking(vs, sd)|)
  {
    if Spiking(vs, sd) != [] {
      SomeSpike(vs, sd);
    }
  }

  lemma SomeSpike(vs: seq<real>, sd: real)
    requires IsSampleDeviation(vs, sd) && Spiking(vs, sd) != []
    ensures 9 * |Spiking(vs, sd)| * |vs| < (|vs| - 1) * (|vs| - |Spiking(vs, sd)|)
  {
    assert vs != [];
    hide Square, SqDev, Dev, Mean, Spikes, IsSampleDeviation, Filter, Product;
    var m, spike := Mean(vs), SpikeTest(vs, sd);
    var calm := (v: real) => !Spikes(v, vs, sd);
    var high, low := Filter(vs, spike), Filter(vs, calm);
    SpikesAreFar(vs, sd);
    DevSplit(vs, m, spike, calm);
    MeanCentres(vs);
    DevAbove(high, m, 3.0 * sd);
    SplitBound(vs, high, low, sd);
  }

  lemma SplitBound(vs: seq<real>, high: seq<real>, low: seq<real>, sd: real)
    requires IsSampleDeviation(vs, sd) && sd > 0.0 && high != [] && |high| + |low| == |vs|
    requires Dev(high, Mean(vs)) > Product(|high| as real, 3.0 * sd)
    requires Dev(high, Mean(vs)) + Dev(low, Mean(vs)) == 0.0
    requires SqDev(high, Mean(vs)) + SqDev(low, Mean(vs)) == SqDev(vs, Mean(vs))
    ensures 9 * |high| * |vs| < (|vs| - 1) * (|vs| - |high|)
  {
    hide Square, SqDev, Dev, Mean, Product;
    var m := Mean(vs);
    CauchySchwarz(high, m);
    CauchySchwarz(low, m);
    NoDeviation(low, m);
    SquareOfNegative(Dev(high, m), Dev(low, m));
    Positive(|high|, sd);
    CombineCounts(|vs|, |high|, sd, Dev(high, m), SqDev(high, m), SqDev(low, m), SqDev(vs, m));
  }

  lemma Positive(k: nat, sd: real)
    requires k > 0 && sd > 0.0
    ensures Product(k as real, 3.0 * sd) > 0.0
  {
  }

  lemma NoDeviation(vs: seq<real>, m: real)
    ensures Dev(vs, m) != 0.0 ==> vs != []
  {
  }

  lemma SquareOfNegative(a: real, b: real)
    requires a + b == 0.0
    ensures Square(a) == Square(b)
  {
    assert b == -a;
  }

  lemma BackToIntegers(n: int, k: int)
    ensures (9.0 * k as real * n as real < (n as real - 1.0) * (n as real - k as real)) <==> 9 * k * n < (n - 1) * (n - k)
  {
    assert (9 * k * n) as real == 9.0 * k as real * n as real;
    assert ((n - 1) * (n - k)) as real == (n - 1) as real * (n - k) as real;
  }

  lemma CombineCounts(n: nat, k: nat, sd: real, d: real, high: real, low: real, all: real)
    requires 1 <= k < n && sd > 0.0 && d > Product(k as real, 3.0 * sd)
    requires Product(k as real, high) >= Square(d) && Product((n - k) as real, low) >= Square(d)
    requires high + low == all && sd * sd * (n - 1) as real == all
    ensures 9 * k * n < (n - 1) * (n - k)
  {
    var n', k' := n as real, k as real;
    assert (n - k) as real == n' - k' && (n - 1) as real == n' - 1.0;
    Positive(k, sd);
    SquaresCompare(d, k' * (3.0 * sd));
    hide Square;
    Combine(n', k', sd, Square(d), high, low);
    BackToIntegers(n, k);
  }

  lemma Combine(n: real, k: real, sd: real, d2: real, high: real, low: real)
    requires 1.0 <= k && 1.0 <= n - k && sd > 0.0 && d2 > k * (3.0 * sd) * (k * (3.0 * sd))
    requires k * high >= d2 && (n - k) * low >= d2
    requires high + low == sd * sd * (n - 1.0)
    ensures 9.0 * k * n < (n - 1.0) * (n - k)
  {
    var gap := (n - 1.0) * (n - k) - 9.0 * k * n;
    MulMono(n - k, d2, k * high);
    MulMono(k, d2, (n - k) * low);
    Regroup(n, k, high, low, d2);
    ScaledCompare(d2, k * (3.0 * sd) * (k * (3.0 * sd)), n);
    FactorOut(n, k, sd);
    ProductPositive(sd, sd);
    ProductPositive(k, sd * sd);
    if gap <= 0.0 {
      MulMono(k * (sd * sd), gap, 0.0);
    }
  }

  lemma Regroup(n: real, k: real, high: real, low: real, d2: real)
    ensures (n - k) * (k * high) + k * ((n - k) * low) == k * (n - k) * (high + low)
    ensures (n - k) * d2 + k * d2 == d2 * n
  {
  }

  lemma FactorOut(n: real, k: real, sd: real)
    ensures var v, c := sd * sd, k * (3.0 * sd);
            k * (n - k) * (v * (n - 1.0)) - c * c * n == (k * v) * ((n - 1.0) * (n - k) - 9.0 * k * n)
  {
    var v, c := sd * sd, k * (3.0 * sd);
    assert c * c == 9.0 * (k * k) * v;
    assert k * (n - k) * (v * (n - 1.0)) == (k * v) * ((n - 1.0) * (n - k));
    assert 9.0 * (k * k) * v * n == (k * v) * (9.0 * k * n);
  }

  // ----- the bound is exact -----

  ghost function Copies(k: nat, v: real): seq<real> {
    if k == 0 then [] else [v] + Copies(k - 1, v)
  }

  lemma {:induction false} CopiesAdd(k: nat, v: real, m: real)
    ensures |Copies(k, v)| == k && (forall x :: x in Copies(k, v) ==> x == v)
    ensures Dev(Copies(k, v), m) == k as real * (v - m)
    ensures SqDev(Copies(k, v), m) == k as real * Square(v - m)
    ensures Total(Copies(k, v)) == k as real * v
  {
    hide Square;
    if k > 0 {
      CopiesAdd(k - 1, v, m);
      assert Copies(k, v)[1..] == Copies(k - 1, v);
    }
  }

  lemma {:induction false} DevAppend(a: seq<real>, b: seq<real>, m: real)
    ensures SqDev(a + b, m) == SqDev(a, m) + SqDev(b, m)
    ensures Total(a + b) == Total(a) + Total(b)
  {
    hide Square;
    if a == [] {
      assert a + b == b;
    } else {
      assert (a + b)[1..] == a[1..] + b;
      DevAppend(a[1..], b, m);
    }
  }

  /** For every k within the bound some volumes make exactly k of n markets spike. */
  lemma SpikeBoundIsExact(n: nat, k: nat) returns (vs: seq<real>)
    requires 1 <= k < n && SpikesFit(n, k)
    ensures |vs| == n && forall v :: v in vs ==> v > 0.0
    ensures forall sd :: IsSampleDeviation(vs, sd) ==> |Spiking(vs, sd)| == k
  {
    var top := n as real + 1.0;
    var high, low := Copies(k, top), Copies(n - k, 1.0);
    vs := high + low;
    CopiesAdd(k, top, k as real + 1.0);
    CopiesAdd(n - k, 1.0, k as real + 1.0);
    SharpSums(n, k, vs);
    forall sd | IsSampleDeviation(vs, sd) ensures |Spiking(vs, sd)| == k {
      SharpCount(n, k, vs, sd);
    }
  }

  lemma SharpSums(n: nat, k: nat, vs: seq<real>)
    requires 1 <= k < n && vs == Copies(k, n as real + 1.0) + Copies(n - k, 1.0) && |vs| == n
    ensures Mean(vs) == k as real + 1.0 && SqDev(vs, Mean(vs)) == (k * (n - k) * n) as real
  {
    hide Square, Mean, Copies, Dev, SqDev, Total;
    var m := k as real + 1.0;
    CopiesAdd(k, n as real + 1.0, m);
    CopiesAdd(n - k, 1.0, m);
    DevAppend(Copies(k, n as real + 1.0), Copies(n - k, 1.0), m);
    SharpNumbers(n, k);
    MeanOf(vs, m);
  }

  lemma SharpCount(n: nat, k: nat, vs: seq<real>, sd: real)
    requires 1 <= k < n && SpikesFit(n, k)
    requires vs == Copies(k, n as real + 1.0) + Copies(n - k, 1.0) && |vs| == n && IsSampleDeviation(vs, sd)
    ensures |Spiking(vs, sd)| == k
  {
    hide Mean, Spikes, SqDev, SpikesFit, IsSampleDeviation;
    var top, spike := n as real + 1.0, SpikeTest(vs, sd);
    CopiesAdd(k, top, 0.0);
    CopiesAdd(n - k, 1.0, 0.0);
    forall v | v in vs ensures spike(v) <==> v == top {
      SharpSpike(n, k, vs, sd, v);
    }
    FilterAppend(Copies(k, top), Copies(n - k, 1.0), spike);
    FilterAll(Copies(k, top), spike);
    FilterNone(Copies(n - k, 1.0), spike);
  }

  lemma SharpSpike(n: nat, k: nat, vs: seq<real>, sd: real, v: real)
    requires 1 <= k < n && SpikesFit(n, k) && v in vs && (v == n as real + 1.0 || v == 1.0)
    requires vs == Copies(k, n as real + 1.0) + Copies(n - k, 1.0) && |vs| == n && IsSampleDeviation(vs, sd)
    ensures Spikes(v, vs, sd) <==> v == n as real + 1.0
  {
    hide Square, Mean, Spikes, SqDev, SpikesFit, IsSampleDeviation;
    SharpSums(n, k, vs);
    SpikeInSquares(v, vs, sd);
    SharpTest(n, k, v);
  }

  lemma MeanOf(vs: seq<real>, m: real)
    requires vs != [] && Total(vs) == |vs| as real * m
    ensures Mean(vs) == m
  {
  }

  lemma SharpNumbers(n: nat, k: nat)
    requires k <= n
    ensures k as real * (n as real + 1.0) + (n - k) as real * 1.0 == n as real * (k as real + 1.0)
    ensures k as real * Square(n as real + 1.0 - (k as real + 1.0)) + (n - k) as real * Square(1.0 - (k as real + 1.0))
         == (k * (n - k) * n) as real
  {
    var a, b, c := n as real, k as real, (n - k) as real;
    assert c == a - b;
    assert Square(a + 1.0 - (b + 1.0)) == c * c && Square(1.0 - (b + 1.0)) == b * b;
    assert b * (c * c) + c * (b * b) == b * c * (c + b);
    assert (k * (n - k)) as real == b * c;
    assert (k * (n - k) * n) as real == b * c * a;
  }

  lemma SharpTest(n: nat, k: nat, v: real)
    requires 1 <= k < n && SpikesFit(n, k) && (v == n as real + 1.0 || v == 1.0)
    ensures var d := v - (k as real + 1.0);
            (d > 0.0 && Square(d) * (n - 1) as real > 9.0 * (k * (n - k) * n) as real) <==> v == n as real + 1.0
  {
    if v == n as real + 1.0 {
      var c := n - k;
      assert v - (k as real + 1.0) == c as real;
      assert Square(c as real) == (c * c) as real;
      assert (c * c) as real * (n - 1) as real == (c * c * (n - 1)) as real;
      assert 9.0 * (k * c * n) as real == (9 * (k * c * n)) as real;
      assert c * c * (n - 1) - 9 * (k * c * n) == c * ((n - 1) * c - 9 * k * n);
    }
  }

  /** At the minimum sample of ten no market can be flagged for its volume; eleven can flag one. */
  lemma TenNeverSpike(vs: seq<real>, sd: real)
    requires |vs| == MIN_SAMPLE && IsSampleDeviation(vs, sd)
    ensures Spiking(vs, sd) == []
  {
    SpikeBound(vs, sd);
  }

  // ----- the scan -----

  function Volumes(ms: seq<Market>): (vs: seq<real>) {
    if ms == [] then []
    else (if ms[0].volume24h > 0.0 then [ms[0].volume24h] else []) + Volumes(ms[1..])
  }

  function Abs(x: real): real {
    if x < 0.0 then -x else x
  }

  function PriceMoves(prices: seq<real>, previous: seq<real>, i: nat): seq<Flag>
    decreases |prices| - i
  {
    if i >= |prices| then []
    else
      (if i < |previous| && previous[i] > 0.0 && Abs(prices[i] - previous[i]) / previous[i] > PRICE_MOVE_THRESHOLD
       then [PriceMove(i)] else [])
      + PriceMoves(prices, previous, i + 1)
  }

  predicate ThinMarketSurges(m: Market) {
    m.volumeTotal < LOW_LIQUIDITY_THRESHOLD && m.volume24h > 0.0
    && m.volume24h > 0.5 * (if m.volumeTotal > 1.0 then m.volumeTotal else 1.0)
  }

  function FlagsOf(m: Market, vs: seq<real>, sd: real, previous: map<string, seq<real>>): seq<Flag>
    requires vs != []
  {
    (if m.volume24h > 0.0 && Spikes(m.volume24h, vs, sd) then [VolumeSpike] else [])
    + (if m.id in previous then PriceMoves(m.prices, previous[m.id], 0) else [])
    + (if ThinMarketSurges(m) then [LowLiquiditySurge] else [])
  }

  function Anomalies(ms: seq<Market>, vs: seq<real>, sd: real, previous: map<string, seq<real>>): seq<Anomaly>
    requires vs != []
  {
    if ms == [] then []
    else
      var flags := FlagsOf(ms[0], vs, sd, previous);
      (if flags != [] then [Anomaly(ms[0], flags)] else []) + Anomalies(ms[1..], vs, sd, previous)
  }

  method CollectVolumes(markets: seq<Market>) returns (volumes: seq<real>)
    ensures volumes == Volumes(markets)
  {
    volumes := [];
    var i := 0;
    while i < |markets|
      invariant 0 <= i <= |markets|
      invariant Volumes(markets) == volumes + Volumes(markets[i..])
    {
      if markets[i].volume24h > 0.0 {
        volumes := volumes + [markets[i].volume24h];
      }
      i := i + 1;
    }
  }

  method FlagMarket(md: Market, volumes: seq<real>, sd: real, previous: map<string, seq<real>>) returns (flags: seq<Flag>)
    requires volumes != []
    ensures flags == FlagsOf(md, volumes, sd, previous)
  {
    hide Spikes, PriceMoves, ThinMarketSurges;
    flags := [];
    if md.volume24h > 0.0 && Spikes(md.volume24h, volumes, sd) {
      flags := flags + [VolumeSpike];
    }
    if md.id in previous {
      flags := flags + PriceMoves(md.prices, previous[md.id], 0);
    }
    if ThinMarketSurges(md) {
      flags := flags + [LowLiquiditySurge];
    }
  }

  method FlagMarkets(markets: seq<Market>, volumes: seq<real>, sd: real, previous: map<string, seq<real>>)
    returns (anomalies: seq<Anomaly>)
    requires volumes != []
    ensures anomalies == Anomalies(markets, volumes, sd, previous)
  {
    hide FlagsOf;
    anomalies := [];
    var i := 0;
    while i < |markets|
      invariant 0 <= i <= |markets|
      invariant Anomalies(markets, volumes, sd, previous) == anomalies + Anomalies(markets[i..], volumes, sd, previous)
    {
      var flags := FlagMarket(markets[i], volumes, sd, previous);
      if flags != [] {
        anomalies := anomalies + [Anomaly(markets[i], flags)];
      }
      i := i + 1;
    }
  }

  method AnalyzeMarkets(markets: seq<Market>, previous: map<string, seq<real>>, sd: real)
    returns (withVolume: nat, anomalies: seq<Anomaly>)
    requires |Volumes(markets)| >= 2 ==> IsSampleDeviation(Volumes(markets), sd)
    ensures withVolume == |Volumes(markets)|
    ensures withVolume < MIN_SAMPLE ==> anomalies == []
    ensures withVolume >= MIN_SAMPLE ==> anomalies == Anomalies(markets, Volumes(markets), sd, previous)
    ensures SpikesFit(withVolume, |Filter(anomalies, HasSpike)|)
  {
    hide IsSampleDeviation, Spikes, SpikesFit, Volumes, Anomalies;
    var volumes := CollectVolumes(markets);
    withVolume, anomalies := |volumes|, [];
    NoSpikeFits(withVolume);
    if |volumes| >= MIN_SAMPLE {
      anomalies := FlagMarkets(markets, volumes, sd, previous);
      SpikeFlags(markets, volumes, sd, previous);
      SpikeBound(volumes, sd);
    }
  }

  /** As many anomalies carry a volume spike as volumes have a z-score over the threshold. */
  lemma {:induction false} SpikeFlags(ms: seq<Market>, vs: seq<real>, sd: real, previous: map<string, seq<real>>)
    requires vs != []
    ensures |Filter(Anomalies(ms, vs, sd, previous), HasSpike)|
         == |Filter(Volumes(ms), SpikeTest(vs, sd))|
  {
    var spike := SpikeTest(vs, sd);
    if ms != [] {
      var flags := FlagsOf(ms[0], vs, sd, previous);
      var rest := Anomalies(ms[1..], vs, sd, previous);
      SpikeFlags(ms[1..], vs, sd, previous);
      OnlySpikes(ms[0].prices, if ms[0].id in previous then previous[ms[0].id] else [], 0);
      FilterAppend(if flags != [] then [Anomaly(ms[0], flags)] else [], rest, HasSpike);
      FilterAppend(if ms[0].volume24h > 0.0 then [ms[0].volume24h] else [], Volumes(ms[1..]), spike);
    }
  }

  lemma {:induction false} OnlySpikes(prices: seq<real>, previous: seq<real>, i: nat)
    ensures VolumeSpike !in PriceMoves(prices, previous, i)
    decreases |prices| - i
  {
    if i < |prices| {
      OnlySpikes(prices, previous, i + 1);
    }
  }

  // ----- what each flag means -----

  lemma {:induction false} PriceMovesMean(prices: seq<real>, previous: seq<real>, i: nat, j: nat)
    ensures PriceMove(j) in PriceMoves(prices, previous, i) <==>
              i <= j < |prices| && j < |previous| && previous[j] > 0.0 && Abs(prices[j] - previous[j]) > 0.15 * previous[j]
    ensures LowLiquiditySurge !in PriceMoves(prices, previous, i)
    decreases |prices| - i
  {
    hide Abs;
    if i < |prices| {
      PriceMovesMean(prices, previous, i + 1, j);
      if i < |previous| && previous[i] > 0.0 {
        QuotientAbove(Abs(prices[i] - previous[i]), previous[i], 0.15);
      }
    }
  }

  /**
   The flags of a market: its volume lies more than three deviations above the mean; the price of an
   outcome moved by more than 15 percent; a thin market traded more than half its volume in a day.
   */
  lemma FlagsMean(m: Market, vs: seq<real>, sd: real, previous: map<string, seq<real>>, j: nat)
    requires vs != [] && sd >= 0.0
    ensures var flags, spread := FlagsOf(m, vs, sd, previous), if sd == 0.0 then 1.0 else sd;
            && (VolumeSpike in flags <==> m.volume24h > 0.0 && m.volume24h - Mean(vs) > 3.0 * spread)
            && (PriceMove(j) in flags <==>
                  m.id in previous && j < |m.prices| && j < |previous[m.id]| && previous[m.id][j] > 0.0
                  && Abs(m.prices[j] - previous[m.id][j]) > 0.15 * previous[m.id][j])
            && (LowLiquiditySurge in flags <==>
                  m.volume24h > 0.0 && m.volumeTotal < 10000.0 && m.volume24h > 0.5 * m.volumeTotal && m.volume24h > 0.5)
  {
    var before := if m.id in previous then previous[m.id] else [];
    PriceMovesMean(m.prices, before, 0, j);
    OnlySpikes(m.prices, before, 0);
    QuotientAbove(m.volume24h - Mean(vs), if sd == 0.0 then 1.0 else sd, 3.0);
    hide PriceMoves, Abs, Mean;
  }

  /** Reported are exactly the markets with a flag, with all their flags and in their order. */
  lemma {:induction false} AnomaliesMean(ms: seq<Market>, vs: seq<real>, sd: real, previous: map<string, seq<real>>, a: Anomaly)
    requires vs != []
    ensures a in Anomalies(ms, vs, sd, previous) <==>
              a.market in ms && a.flags == FlagsOf(a.market, vs, sd, previous) && a.flags != []
  {
    hide FlagsOf;
    if ms != [] {
      AnomaliesMean(ms[1..], vs, sd, previous, a);
      assert ms == [ms[0]] + ms[1..];
    }
  }
}
