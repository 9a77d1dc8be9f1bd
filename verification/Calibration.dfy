/** Rank-preserving calibration: piecewise-linear interpolation, shrunk towards the raw score.
    Probabilities are exact reals. */
module Calibration {

  datatype Thresholds = Thresholds(x: seq<real>, y: seq<real>, weight: real)

  function Clamp(v: real): (c: real)
    ensures 0.0 <= v <= 1.0 ==> c == v
    ensures (v < 0.0 ==> c == 0.0) && (v > 1.0 ==> c == 1.0)
  {
    if v < 0.0 then 0.0 else if v > 1.0 then 1.0 else v
  }

  predicate Usable(t: Thresholds) { t.x != [] && |t.x| == |t.y| }

  ghost predicate Nondecreasing(s: seq<real>) { forall i, j | 0 <= i <= j < |s| :: s[i] <= s[j] }

  /** What isotonic regression fits: both axes nondecreasing, probabilities on the second. */
  ghost predicate Fitted(t: Thresholds) {
    Usable(t) ==> Nondecreasing(t.x) && Nondecreasing(t.y) && 0.0 <= t.y[0] && t.y[|t.y| - 1] <= 1.0
  }

  function Interpolate(p: real, x0: real, x1: real, y0: real, y1: real): real {
    if x1 == x0 then y1 else y0 + (p - x0) / (x1 - x0) * (y1 - y0)
  }

  /** The first threshold from i on that is not below p. */
  function Segment(x: seq<real>, p: real, i: nat): (k: nat)
    requires i < |x| && p <= x[|x| - 1]
    ensures i <= k < |x| && p <= x[k] && forall j | i <= j < k :: x[j] < p
    decreases |x| - i
  {
    if p <= x[i] then i else Segment(x, p, i + 1)
  }

  /** The isotonic estimate of a clamped probability. */
  function Isotonic(p: real, t: Thresholds): real
    requires Usable(t)
  {
    var last := |t.x| - 1;
    if p <= t.x[0] then t.y[0]
    else if p >= t.x[last] then t.y[last]
    else
      var k := Segment(t.x, p, 1);
      Interpolate(p, t.x[k - 1], t.x[k], t.y[k - 1], t.y[k])
  }

  function Blend(weight: real, a: real, b: real): real { weight * a + (1.0 - weight) * b }

  function Calibrated(raw: real, t: Thresholds): real {
    var p := Clamp(raw);
    if !Usable(t) then p
    else Blend(Clamp(t.weight), Isotonic(p, t), p)
  }

  method ApplyCalibration(rawProbability: real, t: Thresholds) returns (r: real)
    ensures r == Calibrated(rawProbability, t)
  {
    var raw := Clamp(rawProbability);
    if t.x == [] || |t.x| != |t.y| { return raw; }
    var isotonic: real;
    if raw <= t.x[0] {
      isotonic := t.y[0];
    } else if raw >= t.x[|t.x| - 1] {
      isotonic := t.y[|t.y| - 1];
    } else {
      isotonic := t.y[|t.y| - 1];
      var index := 1;
      while index < |t.x|
        invariant 1 <= index < |t.x|
        invariant Segment(t.x, raw, 1) == Segment(t.x, raw, index)
      {
        if raw <= t.x[index] {
          isotonic := Interpolate(raw, t.x[index - 1], t.x[index], t.y[index - 1], t.y[index]);
          break;
        }
        index := index + 1;
      }
    }
    var weight := Clamp(t.weight);
    return Blend(weight, isotonic, raw);
  }

  // ------------------------------------------------------------- interpolation

  /** An interpolated value lies between its ends. */
  lemma InterpolateBetween(p: real, x0: real, x1: real, y0: real, y1: real)
    requires x0 <= p <= x1 && y0 <= y1
    ensures y0 <= Interpolate(p, x0, x1, y0, y1) <= y1
  {
    if x0 < x1 {
      var f := (p - x0) / (x1 - x0);
      FractionInRange(p - x0, x1 - x0);
      PartOf(f, y1 - y0);
    }
  }

  lemma PartOf(f: real, d: real)
    requires 0.0 <= f <= 1.0 && 0.0 <= d
    ensures 0.0 <= f * d <= d
  {
    assert f * d <= 1.0 * d;
  }

  lemma FractionInRange(a: real, b: real)
    requires 0.0 <= a <= b && 0.0 < b
    ensures 0.0 <= a / b <= 1.0
  {
    var f := a / b;
    assert f * b == a;
    assert f < 0.0 ==> f * b < 0.0;
    assert f > 1.0 ==> f * b > b;
  }

  lemma InterpolateMonotone(p: real, q: real, x0: real, x1: real, y0: real, y1: real)
    requires x0 < p <= q <= x1 && y0 <= y1
    ensures Interpolate(p, x0, x1, y0, y1) <= Interpolate(q, x0, x1, y0, y1)
  {
    var w := x1 - x0;
    var f, g := (p - x0) / w, (q - x0) / w;
    assert g - f == (q - p) / w;
    FractionInRange(q - p, w);
    assert 0.0 <= (g - f) * (y1 - y0);
    assert g * (y1 - y0) - f * (y1 - y0) == (g - f) * (y1 - y0);
  }

  /** The isotonic estimate stays between the ends of the segment it came from. */
  lemma IsotonicInSegment(p: real, t: Thresholds, k: nat)
    requires Usable(t) && Nondecreasing(t.x) && Nondecreasing(t.y)
    requires t.x[0] < p < t.x[|t.x| - 1] && k == Segment(t.x, p, 1)
    ensures t.x[k - 1] < p <= t.x[k] && t.y[k - 1] <= Isotonic(p, t) <= t.y[k]
  {
    InterpolateBetween(p, t.x[k - 1], t.x[k], t.y[k - 1], t.y[k]);
  }

  /** Between two thresholds the estimate is the straight line through them, and outside the
      thresholds it is the nearest end's. */
  lemma IsotonicIsPiecewiseLinear(p: real, t: Thresholds, k: nat)
    requires Usable(t) && Nondecreasing(t.x)
    ensures p <= t.x[0] ==> Isotonic(p, t) == t.y[0]
    ensures p > t.x[0] && p >= t.x[|t.x| - 1] ==> Isotonic(p, t) == t.y[|t.y| - 1]
    ensures 0 < k < |t.x| && t.x[k - 1] < p <= t.x[k] && p < t.x[|t.x| - 1] ==>
              (Isotonic(p, t) - t.y[k - 1]) * (t.x[k] - t.x[k - 1]) == (p - t.x[k - 1]) * (t.y[k] - t.y[k - 1])
  {
    if 0 < k < |t.x| && t.x[k - 1] < p <= t.x[k] && p < t.x[|t.x| - 1] {
      assert t.x[0] <= t.x[k - 1];
      assert k == Segment(t.x, p, 1);
      InterpolateIsLinear(p, t.x[k - 1], t.x[k], t.y[k - 1], t.y[k]);
    }
  }

  lemma InterpolateIsLinear(p: real, x0: real, x1: real, y0: real, y1: real)
    requires x0 < x1
    ensures (Interpolate(p, x0, x1, y0, y1) - y0) * (x1 - x0) == (p - x0) * (y1 - y0)
  {
    var f := (p - x0) / (x1 - x0);
    assert f * (x1 - x0) == p - x0;
    Regroup(f, y1 - y0, x1 - x0);
  }

  lemma Regroup(a: real, b: real, c: real)
    ensures a * b * c == a * c * b
  {
  }

  /** The result is the weighted mean of that estimate and the score, both within [0, 1]; without
      usable thresholds it is the score. */
  lemma CalibratedIsTheWeightedMean(raw: real, t: Thresholds)
    ensures t.x == [] || |t.x| != |t.y| ==> Calibrated(raw, t) == Clamp(raw)
    ensures Usable(t) && 0.0 <= t.weight <= 1.0 && 0.0 <= raw <= 1.0 ==>
              Calibrated(raw, t) - raw == t.weight * (Isotonic(raw, t) - raw)
    ensures raw <= 0.0 ==> Calibrated(raw, t) == Calibrated(0.0, t)
    ensures raw >= 1.0 ==> Calibrated(raw, t) == Calibrated(1.0, t)
  {
    if Usable(t) && 0.0 <= t.weight <= 1.0 && 0.0 <= raw <= 1.0 {
      var e, w := Isotonic(raw, t), t.weight;
      assert (1.0 - w) * raw == raw - w * raw;
      assert w * (e - raw) == w * e - w * raw;
    }
  }

  lemma IsotonicInRange(p: real, t: Thresholds)
    requires Usable(t) && Fitted(t)
    ensures t.y[0] <= Isotonic(p, t) <= t.y[|t.y| - 1]
  {
    if t.x[0] < p < t.x[|t.x| - 1] { IsotonicInSegment(p, t, Segment(t.x, p, 1)); }
  }

  lemma IsotonicMonotone(p: real, q: real, t: Thresholds)
    requires Usable(t) && Fitted(t) && p <= q
    ensures Isotonic(p, t) <= Isotonic(q, t)
  {
    IsotonicInRange(p, t);
    IsotonicInRange(q, t);
    if t.x[0] < p && q < t.x[|t.x| - 1] {
      var i, j := Segment(t.x, p, 1), Segment(t.x, q, 1);
      IsotonicInSegment(p, t, i);
      IsotonicInSegment(q, t, j);
      if i == j {
        InterpolateMonotone(p, q, t.x[i - 1], t.x[i], t.y[i - 1], t.y[i]);
      } else {
        assert i < j;
      }
    }
  }

  // ------------------------------------------------------------------- results

  lemma BlendInRange(w: real, a: real, b: real)
    requires 0.0 <= w <= 1.0 && 0.0 <= a <= 1.0 && 0.0 <= b <= 1.0
    ensures 0.0 <= Blend(w, a, b) <= 1.0
  {
    assert 0.0 <= w * a <= w * 1.0;
    assert 0.0 <= (1.0 - w) * b <= (1.0 - w) * 1.0;
  }

  lemma ProductSign(a: real, b: real)
    requires 0.0 <= a && 0.0 <= b
    ensures 0.0 <= a * b && (0.0 < a && 0.0 < b ==> 0.0 < a * b)
  {
  }

  lemma BlendMonotone(w: real, a: real, b: real, c: real, d: real)
    requires 0.0 <= w <= 1.0 && a <= c && b <= d
    ensures Blend(w, a, b) <= Blend(w, c, d) && (w < 1.0 && b < d ==> Blend(w, a, b) < Blend(w, c, d))
  {
    ProductSign(w, c - a);
    ProductSign(1.0 - w, d - b);
    assert Blend(w, c, d) - Blend(w, a, b) == w * (c - a) + (1.0 - w) * (d - b);
  }

  /** A calibrated probability is a probability. */
  lemma CalibratedIsAProbability(raw: real, t: Thresholds)
    requires Fitted(t)
    ensures 0.0 <= Calibrated(raw, t) <= 1.0
  {
    if Usable(t) {
      IsotonicInRange(Clamp(raw), t);
      BlendInRange(Clamp(t.weight), Isotonic(Clamp(raw), t), Clamp(raw));
    }
  }

  /** Calibration never reverses two scores, and keeps different scores in [0, 1] different
      whenever the isotonic weight is below one. */
  lemma CalibrationPreservesRank(p: real, q: real, t: Thresholds)
    requires Fitted(t) && p <= q
    ensures Calibrated(p, t) <= Calibrated(q, t)
    ensures 0.0 <= p < q <= 1.0 && (t.weight < 1.0 || !Usable(t)) ==> Calibrated(p, t) < Calibrated(q, t)
  {
    if Usable(t) {
      IsotonicMonotone(Clamp(p), Clamp(q), t);
      BlendMonotone(Clamp(t.weight), Isotonic(Clamp(p), t), Clamp(p), Isotonic(Clamp(q), t), Clamp(q));
    }
  }

  /** At a weight of one the calibration is the isotonic estimate alone, which ties every two
      scores below its first threshold. */
  lemma FullWeightCanTie(p: real, q: real, t: Thresholds)
    requires Usable(t) && t.weight >= 1.0 && 0.0 <= p < q <= t.x[0] && q <= 1.0
    ensures Calibrated(p, t) == Calibrated(q, t) == t.y[0]
  {
  }

  /** Every fitted calibration of this weight keeps different scores in [0, 1] apart. */
  ghost predicate StrictAt(weight: real) {
    forall t, p, q {:trigger Calibrated(p, t), Calibrated(q, t)} |
      Usable(t) && Fitted(t) && t.weight == weight && 0.0 <= p < q <= 1.0 :: Calibrated(p, t) < Calibrated(q, t)
  }

  /** Exactly the weights below one preserve rank strictly, whatever the thresholds. */
  lemma StrictExactlyBelowFullWeight(weight: real)
    ensures StrictAt(weight) <==> weight < 1.0
  {
    if weight < 1.0 {
      forall t, p, q | Usable(t) && Fitted(t) && t.weight == weight && 0.0 <= p < q <= 1.0
        ensures Calibrated(p, t) < Calibrated(q, t)
      {
        CalibrationPreservesRank(p, q, t);
      }
    } else {
      var t := Thresholds([0.5, 1.0], [0.2, 0.8], weight);
      assert Fitted(t);
      FullWeightCanTie(0.1, 0.2, t);
      assert Calibrated(0.1, t) == Calibrated(0.2, t);
    }
  }
}
