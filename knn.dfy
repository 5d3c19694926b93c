/**
 * The KNN predictor's integer and threshold logic (find_k_nearest,
 * calculate_adaptive_k, predict_next_move in autotrade.py).
 *
 * Feature vectors, Euclidean distances, the exp time and distance weights,
 * the sigmoid and the four confidence sub-scores are computed with
 * transcendental or statistical numerics; they enter as inputs (the
 * distances and weights per training bar, the sigmoid as a function
 * parameter, the sum of the sub-scores as a number).
 */
module Knn {
  import opened Common

  // ---------------------------------------------------------------------
  // Adaptive k (calculate_adaptive_k)
  // ---------------------------------------------------------------------

  const BASE_K: real := 16.0
  const MIN_K: int := 8
  const MAX_K: int := 32

  function SizeFactor(dataSize: nat): (r: real)
    ensures 0.5 <= r <= 2.0
  {
    Clip(dataSize as real / 100.0, 0.5, 2.0)
  }

  function VolatilityFactor(volatility: real): (r: real)
    ensures 0.5 <= r <= 1.5
  {
    Clip(1.0 - volatility, 0.5, 1.5)
  }

  /** The unclipped product 16 * size factor * volatility factor. */
  function RawK(dataSize: nat, volatility: real): (r: real)
    ensures 4.0 <= r <= 48.0
  {
    var s, f := SizeFactor(dataSize), VolatilityFactor(volatility);
    ProductMonotone(BASE_K * 0.5, BASE_K * s, 0.5, f);
    ProductMonotone(BASE_K * s, BASE_K * 2.0, f, 1.5);
    BASE_K * s * f
  }

  /**
   * k = clip(int(16 * clip(size / 100, 0.5, 2) * clip(1 - volatility, 0.5, 1.5)), 8, 32).
   * int() truncates toward zero; the product is at least 4, so it is the floor.
   */
  function AdaptiveK(dataSize: nat, volatility: real): (k: int)
    ensures MIN_K <= k <= MAX_K
    ensures k == ClipInt(RawK(dataSize, volatility).Floor, MIN_K, MAX_K)
  {
    ClipInt(Trunc(RawK(dataSize, volatility)), MIN_K, MAX_K)
  }

  lemma FloorMonotone(x: real, y: real)
    requires x <= y
    ensures x.Floor <= y.Floor
  {
  }

  lemma ProductMonotone(a1: real, a2: real, b1: real, b2: real)
    requires 0.0 <= a1 <= a2 && 0.0 <= b1 <= b2
    ensures a1 * b1 <= a2 * b2
  {
    assert a1 * b1 <= a2 * b1;
    assert a2 * b1 <= a2 * b2;
  }

  lemma RawKMonotone(n1: nat, n2: nat, v1: real, v2: real)
    requires n1 <= n2 && v1 >= v2
    ensures RawK(n1, v1) <= RawK(n2, v2)
  {
    var s1, s2 := SizeFactor(n1), SizeFactor(n2);
    var f1, f2 := VolatilityFactor(v1), VolatilityFactor(v2);
    assert s1 <= s2 && f1 <= f2;
    ProductMonotone(BASE_K * s1, BASE_K * s2, f1, f2);
  }

  /** More data never shrinks the neighbourhood and more volatility never widens it. */
  lemma AdaptiveKMonotone(n1: nat, n2: nat, v1: real, v2: real)
    requires n1 <= n2 && v1 >= v2
    ensures AdaptiveK(n1, v1) <= AdaptiveK(n2, v2)
  {
    RawKMonotone(n1, n2, v1, v2);
    FloorMonotone(RawK(n1, v1), RawK(n2, v2));
  }

  /** With 100 .. 200 bars and volatility 0 the factors are size / 100 and 1. */
  lemma AdaptiveKAtMedianSize()
    ensures AdaptiveK(100, 0.0) == 16
    ensures AdaptiveK(0, 0.9) == MIN_K
    ensures AdaptiveK(1000, -5.0) == MAX_K
  {
    assert RawK(100, 0.0) == 16.0;
    assert RawK(0, 0.9) == 4.0;
    assert RawK(1000, -5.0) == 48.0;
  }

  // ---------------------------------------------------------------------
  // argsort and the k nearest neighbours (find_k_nearest)
  // ---------------------------------------------------------------------

  /** The indices are ordered by non-decreasing distance. */
  predicate SortedByDistance(d: seq<real>, ids: seq<nat>)
    requires forall t :: 0 <= t < |ids| ==> ids[t] < |d|
  {
    forall a, b :: 0 <= a < b < |ids| ==> d[ids[a]] <= d[ids[b]]
  }

  predicate Distinct(ids: seq<nat>)
  {
    forall a, b :: 0 <= a < b < |ids| ==> ids[a] != ids[b]
  }

  predicate InRange(ids: seq<nat>, n: nat)
  {
    forall t :: 0 <= t < |ids| ==> ids[t] < n
  }

  /** Inserts index x before the first index whose distance is not smaller. */
  function Insert(d: seq<real>, x: nat, ids: seq<nat>): (r: seq<nat>)
    requires x < |d| && InRange(ids, |d|)
    ensures |r| == |ids| + 1 && InRange(r, |d|)
    ensures forall e :: e in r <==> e == x || e in ids
  {
    if ids == [] then [x]
    else if d[x] <= d[ids[0]] then [x] + ids
    else [ids[0]] + Insert(d, x, ids[1..])
  }

  lemma {:induction false} InsertSorted(d: seq<real>, x: nat, ids: seq<nat>)
    requires x < |d| && InRange(ids, |d|) && SortedByDistance(d, ids)
    ensures SortedByDistance(d, Insert(d, x, ids))
  {
    if ids != [] && d[x] > d[ids[0]] {
      var tail := ids[1..];
      assert SortedByDistance(d, tail) by {
        forall a, b | 0 <= a < b < |tail| ensures d[tail[a]] <= d[tail[b]] {
          assert tail[a] == ids[a + 1] && tail[b] == ids[b + 1];
        }
      }
      InsertSorted(d, x, tail);
      var rest := Insert(d, x, tail);
      var r := [ids[0]] + rest;
      forall a, b | 0 <= a < b < |r| ensures d[r[a]] <= d[r[b]] {
        if a == 0 {
          var e := r[b];
          assert e in rest;
          if e != x {
            assert e in tail;
            var t :| 0 <= t < |tail| && tail[t] == e;
            assert ids[t + 1] == e;
          }
        }
      }
    }
  }

  lemma {:induction false} InsertDistinct(d: seq<real>, x: nat, ids: seq<nat>)
    requires x < |d| && InRange(ids, |d|) && Distinct(ids) && x !in ids
    ensures Distinct(Insert(d, x, ids))
  {
    if ids != [] && d[x] > d[ids[0]] {
      var tail := ids[1..];
      assert Distinct(tail) by {
        forall a, b | 0 <= a < b < |tail| ensures tail[a] != tail[b] {
          assert tail[a] == ids[a + 1] && tail[b] == ids[b + 1];
        }
      }
      assert x !in tail;
      InsertDistinct(d, x, tail);
      var rest := Insert(d, x, tail);
      assert forall t :: 0 <= t < |tail| ==> tail[t] == ids[t + 1] != ids[0];
      assert ids[0] !in rest;
      var r := [ids[0]] + rest;
      forall a, b | 0 <= a < b < |r| ensures r[a] != r[b] {
        if a == 0 {
          assert r[b] in rest;
        } else {
          assert r[a] == rest[a - 1] && r[b] == rest[b - 1];
        }
      }
    }
  }

  /** Insertion sort of the indices lo .. |d|-1 by distance. */
  function ArgSortFrom(d: seq<real>, lo: nat): (r: seq<nat>)
    requires lo <= |d|
    ensures |r| == |d| - lo && InRange(r, |d|)
    ensures forall e :: e in r <==> lo <= e < |d|
    decreases |d| - lo
  {
    if lo == |d| then [] else Insert(d, lo, ArgSortFrom(d, lo + 1))
  }

  lemma {:induction false} ArgSortFromSorted(d: seq<real>, lo: nat)
    requires lo <= |d|
    ensures SortedByDistance(d, ArgSortFrom(d, lo)) && Distinct(ArgSortFrom(d, lo))
    decreases |d| - lo
  {
    if lo < |d| {
      ArgSortFromSorted(d, lo + 1);
      InsertSorted(d, lo, ArgSortFrom(d, lo + 1));
      InsertDistinct(d, lo, ArgSortFrom(d, lo + 1));
    }
  }

  /**
   * np.argsort(distances): every index exactly once, by non-decreasing
   * distance.  Ties are ordered by index here; numpy's default sort does
   * not promise an order for ties, so no lemma below depends on it.
   */
  function ArgSort(d: seq<real>): (r: seq<nat>)
    ensures |r| == |d| && InRange(r, |d|) && Distinct(r)
    ensures forall e :: e in r <==> 0 <= e < |d|
    ensures SortedByDistance(d, r)
  {
    ArgSortFromSorted(d, 0);
    ArgSortFrom(d, 0)
  }

  /** argsort(distances)[:k]. */
  function TopK(d: seq<real>, k: nat): (r: seq<nat>)
    requires k <= |d|
    ensures |r| == k && InRange(r, |d|) && Distinct(r) && SortedByDistance(d, r)
  {
    ArgSort(d)[..k]
  }

  /** No index left out of the top k is strictly nearer than any index in it. */
  lemma TopKAreNearest(d: seq<real>, k: nat, j: nat)
    requires k <= |d| && j < |d| && j !in TopK(d, k)
    ensures forall a :: 0 <= a < k ==> d[TopK(d, k)[a]] <= d[j]
  {
    var all := ArgSort(d);
    assert j in all;
    var b :| 0 <= b < |all| && all[b] == j;
    forall t | 0 <= t < k ensures all[t] != j {
      assert all[t] == TopK(d, k)[t];
    }
    forall a | 0 <= a < k ensures d[TopK(d, k)[a]] <= d[j] {
      assert TopK(d, k)[a] == all[a];
    }
  }

  /** xs[ids], numpy fancy indexing. */
  function Gather<T>(xs: seq<T>, ids: seq<nat>): (r: seq<T>)
    requires InRange(ids, |xs|)
    ensures |r| == |ids| && forall t :: 0 <= t < |ids| ==> r[t] == xs[ids[t]]
  {
    seq(|ids|, t requires 0 <= t < |ids| => xs[ids[t]])
  }

  /** The three arrays find_k_nearest returns, aligned by neighbour. */
  datatype Neighbours = Neighbours(labels: seq<int>, distances: seq<real>, weights: seq<real>)

  /**
   * find_k_nearest on precomputed distances and normalised weights: three
   * empty arrays when there are fewer than k training points, otherwise
   * the labels, distances and weights of the k nearest, in argsort order.
   */
  function FindKNearest(labels: seq<int>, distances: seq<real>, weights: seq<real>, k: nat): (r: Neighbours)
    requires |labels| == |distances| == |weights|
    ensures |distances| < k ==> r == Neighbours([], [], [])
    ensures |distances| >= k ==>
      var ids := TopK(distances, k);
      |r.labels| == k && |r.distances| == k && |r.weights| == k &&
      forall t :: 0 <= t < k ==>
        r.labels[t] == labels[ids[t]] && r.distances[t] == distances[ids[t]] && r.weights[t] == weights[ids[t]]
  {
    if |distances| < k then Neighbours([], [], [])
    else
      var ids := TopK(distances, k);
      Neighbours(Gather(labels, ids), Gather(distances, ids), Gather(weights, ids))
  }

  /** The returned distances ascend and none of the training points left out is nearer. */
  lemma NeighboursAreNearest(labels: seq<int>, distances: seq<real>, weights: seq<real>, k: nat)
    requires |labels| == |distances| == |weights| && k <= |distances|
    ensures var r := FindKNearest(labels, distances, weights, k);
      (forall a, b :: 0 <= a < b < k ==> r.distances[a] <= r.distances[b]) &&
      (forall a, j :: 0 <= a < k && 0 <= j < |distances| && j !in TopK(distances, k) ==>
         r.distances[a] <= distances[j])
  {
    var r := FindKNearest(labels, distances, weights, k);
    forall a, j | 0 <= a < k && 0 <= j < |distances| && j !in TopK(distances, k)
      ensures r.distances[a] <= distances[j]
    {
      TopKAreNearest(distances, k, j);
    }
  }

  // ---------------------------------------------------------------------
  // Prediction and confidence (predict_next_move)
  // ---------------------------------------------------------------------

  /** The KNN neutral band; monitor_knn_changes uses the same threshold. */
  const SIGNAL_MIN_STRENGTH: real := 0.25

  /** The six-bucket ladder: thresholds 0.25, 0.4, 0.6, 0.8 on |signal|. */
  function Quantize(signal: real): (r: real)
    ensures r in {0.0, 0.25, -0.25, 0.5, -0.5, 0.75, -0.75, 0.8, -0.8}
    ensures r == 0.0 <==> Abs(signal) < SIGNAL_MIN_STRENGTH
    ensures r != 0.0 ==> Sign(r) == Sign(signal)
    ensures Abs(r) <= 0.8
  {
    var s := Sign(signal) as real;
    if Abs(signal) < 0.25 then 0.0
    else if Abs(signal) < 0.4 then s * 0.25
    else if Abs(signal) < 0.6 then s * 0.5
    else if Abs(signal) < 0.8 then s * 0.75
    else s * 0.8
  }

  /** A stronger signal never gives a lower bucket. */
  lemma QuantizeMonotone(s1: real, s2: real)
    requires s1 <= s2
    ensures Quantize(s1) <= Quantize(s2)
  {
  }

  /** The ladder is symmetric around 0. */
  lemma QuantizeOdd(s: real)
    ensures Quantize(-s) == -Quantize(s)
  {
  }

  /** np.sum(k_nearest_labels * weights). */
  function WeightedVote(labels: seq<int>, weights: seq<real>): (r: real)
    requires |labels| == |weights|
    ensures (forall t :: 0 <= t < |labels| ==> -1 <= labels[t] <= 1 && weights[t] >= 0.0) ==>
              -Sum(weights) <= r <= Sum(weights)
  {
    if |labels| == 0 then 0.0
    else
      var n := |labels|;
      var side := labels[n - 1] as real;
      var weight := weights[n - 1];
      assert -1.0 <= side <= 1.0 && weight >= 0.0 ==> -weight <= side * weight <= weight by {
        if -1.0 <= side <= 1.0 && weight >= 0.0 {
          assert (side + 1.0) * weight >= 0.0;
          assert (1.0 - side) * weight >= 0.0;
        }
      }
      WeightedVote(labels[..n - 1], weights[..n - 1]) + side * weight
  }

  /**
   * The confidence before the clip: 25 + 1.1 * raw score, damped by
   * clip(1 - 5 * recent volatility, 0.8, 1.05), and boosted by 5 % when the
   * new prediction has the sign of the previous one.
   */
  function RawConfidence(baseScore: real, recentVolatility: real, prediction: real, last: Option<real>): (r: real)
    ensures var scaled := 25.0 + baseScore * 1.1;
      scaled >= 0.0 ==> 0.8 * scaled <= r <= 1.1025 * scaled
    ensures var scaled := 25.0 + baseScore * 1.1;
      scaled >= 0.0 && !(last.Some? && Sign(prediction) == Sign(last.value)) ==> r <= 1.05 * scaled
  {
    var scaled := 25.0 + baseScore * 1.1;
    var factor := Clip(1.0 - recentVolatility * 5.0, 0.8, 1.05);
    var damped := scaled * factor;
    assert scaled >= 0.0 ==> 0.8 * scaled <= damped <= 1.05 * scaled by {
      if scaled >= 0.0 {
        assert (factor - 0.8) * scaled >= 0.0;
        assert (1.05 - factor) * scaled >= 0.0;
      }
    }
    if last.Some? && Sign(prediction) == Sign(last.value) then damped * 1.05 else damped
  }

  /** The continuity boost is exactly 5 % on top of the confidence without a previous prediction. */
  lemma ContinuityBoost(baseScore: real, recentVolatility: real, prediction: real, lastValue: real)
    requires Sign(prediction) == Sign(lastValue)
    ensures RawConfidence(baseScore, recentVolatility, prediction, Some(lastValue))
            == 1.05 * RawConfidence(baseScore, recentVolatility, prediction, None)
  {
  }

  /**
   * The clip to [30, 95] happens before the signal-strength adjustment
   * (x0.65 below 0.3, x0.8 below 0.45, x1.1 capped at 95 above 0.7), so
   * the final value can be as low as 19.5.
   */
  function AdjustConfidence(confidence: real, signal: real): (r: real)
    ensures 19.5 <= r <= 95.0
    ensures Abs(signal) >= 0.45 ==> 30.0 <= r
    ensures Abs(signal) < 0.3 ==> r <= 61.75
    ensures 0.3 <= Abs(signal) < 0.45 ==> 24.0 <= r <= 76.0
  {
    var c := Clip(confidence, 30.0, 95.0);
    if Abs(signal) < 0.3 then c * 0.65
    else if Abs(signal) < 0.45 then c * 0.8
    else if Abs(signal) > 0.7 then MinR(c * 1.1, 95.0)
    else c
  }

  /** A weak signal with a low raw score ends below 30: the documented [30, 95] range does not hold. */
  lemma ConfidenceBelowThirty()
    ensures AdjustConfidence(0.0, 0.1) == 19.5
  {
  }

  /** The pair predict_next_move returns. */
  datatype Prediction = Prediction(value: real, confidence: real)

  /** Everything predict_next_move computes from the training neighbours. */
  function Predict(labels: seq<int>, distances: seq<real>, weights: seq<real>, volatility: real,
                   squash: real -> real, baseScore: real, recentVolatility: real,
                   last: Option<real>): (r: Prediction)
    requires |labels| == |distances| == |weights|
    ensures var k := AdaptiveK(|distances| + 1, volatility);
      |distances| < k <==> r == Prediction(0.0, 0.0)
    ensures var k := AdaptiveK(|distances| + 1, volatility);
      |distances| >= k ==>
        var nb := FindKNearest(labels, distances, weights, k);
        var signal := squash(WeightedVote(nb.labels, nb.weights));
        r.value in {0.0, 0.25, -0.25, 0.5, -0.5, 0.75, -0.75, 0.8, -0.8} &&
        (r.value == 0.0 <==> Abs(signal) < SIGNAL_MIN_STRENGTH) &&
        (r.value != 0.0 ==> Sign(r.value) == Sign(signal)) &&
        19.5 <= r.confidence <= 95.0
  {
    var k := AdaptiveK(|distances| + 1, volatility);
    var nb := FindKNearest(labels, distances, weights, k);
    assert |distances| >= k ==> |nb.labels| == k;
    if |nb.labels| == 0 then Prediction(0.0, 0.0)
    else
      var signal := squash(WeightedVote(nb.labels, nb.weights));
      var value := Quantize(signal);
      Prediction(value, AdjustConfidence(RawConfidence(baseScore, recentVolatility, value, last), signal))
  }

  /** The predictor's only state: self.last_prediction, unset until the first prediction. */
  class KnnPredictor {
    var lastPrediction: Option<real>

    constructor ()
      ensures lastPrediction == None
    {
      lastPrediction := None;
    }

    /**
     * predict_next_move from the training neighbours onwards.  The
     * continuity bonus reads the previous prediction; the new prediction
     * is stored unless the neighbour search came back empty.
     */
    method PredictNextMove(labels: seq<int>, distances: seq<real>, weights: seq<real>, volatility: real,
                           squash: real -> real, baseScore: real, recentVolatility: real)
      returns (prediction: real, confidence: real)
      requires |labels| == |distances| == |weights|
      modifies this
      ensures Prediction(prediction, confidence) ==
              Predict(labels, distances, weights, volatility, squash, baseScore, recentVolatility, old(lastPrediction))
      ensures lastPrediction == if |distances| < AdaptiveK(|distances| + 1, volatility)
                                then old(lastPrediction) else Some(prediction)
    {
      var k := AdaptiveK(|distances| + 1, volatility);
      var nb := FindKNearest(labels, distances, weights, k);
      if |nb.labels| == 0 {
        prediction, confidence := 0.0, 0.0;
        return;
      }
      var signal := squash(WeightedVote(nb.labels, nb.weights));
      prediction := Quantize(signal);
      var raw := RawConfidence(baseScore, recentVolatility, prediction, lastPrediction);
      lastPrediction := Some(prediction);
      confidence := AdjustConfidence(raw, signal);
    }
  }
}
