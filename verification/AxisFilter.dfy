/** The two-state filter (position and velocity) that every coordinate of a box runs on its own. */
module AxisFilter {
  import opened RealArithmetic

  /** Position, velocity, and their 2x2 covariance block. */
  datatype Axis = Axis(pos: real, vel: real, pp: real, pv: real, vv: real)

  function AxisPredict(x: Axis, qp: real, qv: real): Axis {
    Axis(x.pos + x.vel, x.vel, x.pp + x.pv + x.pv + x.vv + qp, x.pv + x.vv, x.vv + qv)
  }

  function AxisUpdate(x: Axis, z: real, noise: real): Axis
    requires x.pp + noise != 0.0
  {
    var kp, kv := Over(x.pp, x.pp + noise), Over(x.pv, x.pp + noise);
    Axis(x.pos + Times(kp, z - x.pos), x.vel + Times(kv, z - x.pos),
         x.pp - Times(kp, x.pp), x.pv - Times(kp, x.pv), x.vv - Times(kv, x.pv))
  }

  /** The 2x2 block is positive semidefinite. */
  predicate Psd(x: Axis) {
    x.pp >= 0.0 && x.vv >= 0.0 && x.pv * x.pv <= x.pp * x.vv
  }

  lemma PredictKeepsPsd(x: Axis, qp: real, qv: real)
    requires Psd(x) && qp >= 0.0 && qv >= 0.0
    ensures Psd(AxisPredict(x, qp, qv))
  {
    TraceDominates(x.pp, x.pv, x.vv);
    var a, b, c := x.pp + x.pv + x.pv + x.vv, x.pv + x.vv, x.vv;
    assert a * c - b * b == x.pp * x.vv - x.pv * x.pv;
    assert (a + qp) * (c + qv) == a * c + a * qv + qp * c + qp * qv;
    assert a * qv >= 0.0 && qp * c >= 0.0 && qp * qv >= 0.0;
  }

  /** a + 2b + c is not negative for a positive semidefinite block. */
  lemma TraceDominates(a: real, b: real, c: real)
    requires a >= 0.0 && c >= 0.0 && b * b <= a * c
    ensures a + b + b + c >= 0.0
  {
    if a + b + b + c < 0.0 {
      SquareGrows(a + c, b + b);
      SumSquared(a, b, c);
    }
  }

  lemma SquareGrows(p: real, t: real)
    requires p >= 0.0 && p + t < 0.0
    ensures t * t > p * p
  {
    ProductNegative(p - t, p + t);
    assert (p - t) * (p + t) == p * p - t * t;
  }

  lemma SumSquared(a: real, b: real, c: real)
    requires b * b <= a * c
    ensures (b + b) * (b + b) <= (a + c) * (a + c)
  {
    assert (a + c) * (a + c) - 4.0 * (a * c) == (a - c) * (a - c);
    SquareNotNegative(a - c);
  }

  lemma UpdateKeepsPsd(x: Axis, z: real, noise: real)
    requires Psd(x) && noise > 0.0
    ensures Psd(AxisUpdate(x, z, noise))
    ensures AxisUpdate(x, z, noise).pp <= x.pp && AxisUpdate(x, z, noise).vv <= x.vv
  {
    hide Times, Over;
    var s := x.pp + noise;
    var rest := noise / s;
    var y := AxisUpdate(x, z, noise);
    Remainder(x.pp, noise, x.pp);
    Remainder(x.pp, noise, x.pv);
    VelocityBlock(x.pp, x.pv, x.vv, noise, y.vv);
    PosteriorBlock(x.pp, x.pv, x.vv, noise, s, rest, y.vv);
    Fraction(rest, x.pp);
    assert y.pp == Times(rest, x.pp) && y.pv == Times(rest, x.pv);
    Unfold(rest, x.pp, x.pv, y.vv);
  }

  lemma Unfold(rest: real, a: real, b: real, vv: real)
    ensures Times(rest, b) * Times(rest, b) == (rest * b) * (rest * b)
    ensures Times(rest, a) * vv == (rest * a) * vv
  {
  }

  lemma Remainder(a: real, noise: real, x: real)
    requires a >= 0.0 && noise > 0.0
    ensures x - Times(Over(a, a + noise), x) == Times(noise / (a + noise), x)
    ensures 0.0 <= noise / (a + noise) <= 1.0
  {
    Complement(a, noise);
    var k := Over(a, a + noise);
    assert (1.0 - k) * x == x - k * x;
  }

  lemma Complement(a: real, noise: real)
    requires a >= 0.0 && noise > 0.0
    ensures Over(a, a + noise) + noise / (a + noise) == 1.0
    ensures 0.0 <= Over(a, a + noise) <= 1.0
  {
  }

  lemma Fraction(k: real, d: real)
    requires 0.0 <= k <= 1.0 && d >= 0.0
    ensures 0.0 <= Times(k, d) <= d
    ensures Times(k, -d) == -Times(k, d)
    ensures d - Times(k, d) == Times(1.0 - k, d)
  {
    ProductNotNegative(k, d);
    ProductNotNegative(1.0 - k, d);
  }

  /** The velocity variance after an update, cleared of its fraction. */
  lemma VelocityBlock(a: real, b: real, c: real, noise: real, vv: real)
    requires a >= 0.0 && c >= 0.0 && noise > 0.0 && b * b <= a * c
    requires vv == c - Times(Over(b, a + noise), b)
    ensures vv * (a + noise) == (a * c - b * b) + c * noise
    ensures 0.0 <= vv <= c
  {
    var s := a + noise;
    var kv := b / s;
    assert kv * s == b;
    assert (kv * b) * s == b * b;
    assert vv * s == c * s - b * b;
    assert c * s == a * c + c * noise;
    assert vv * s >= 0.0;
    assert (kv * b) * s >= 0.0;
  }

  lemma PosteriorBlock(a: real, b: real, c: real, noise: real, s: real, rest: real, vv: real)
    requires a >= 0.0 && noise > 0.0 && s == a + noise && rest == noise / s
    requires b * b <= a * c
    requires vv * s == (a * c - b * b) + c * noise
    ensures (rest * b) * (rest * b) <= (rest * a) * vv
  {
    var d := a * c - b * b;
    assert rest * s == noise;
    // (rest a) vv s s - (rest b)^2 s s = rest (a d s + a c noise s - b^2 noise s ...) = noise * s * d
    assert ((rest * a) * vv) * s == (rest * a) * (d + c * noise);
    assert (rest * a) * (d + c * noise) * s == noise * a * (d + c * noise);
    assert ((rest * b) * (rest * b)) * s * s == (noise * b) * (noise * b);
    assert noise * a * (d + c * noise) - (noise * b) * (noise * b) == noise * (d * (a + noise));
    assert d * (a + noise) >= 0.0;
    assert noise * (d * (a + noise)) >= 0.0;
    var gap := (rest * a) * vv - (rest * b) * (rest * b);
    assert gap * s * s >= 0.0;
    assert gap >= 0.0;
  }

  /** The corrected coordinate lies between the predicted and the measured one. */
  lemma UpdateInterpolates(x: Axis, z: real, noise: real)
    requires x.pp >= 0.0 && noise > 0.0
    ensures var p := AxisUpdate(x, z, noise).pos; x.pos <= p <= z || z <= p <= x.pos
  {
    hide Times, Over;
    var k := Over(x.pp, x.pp + noise);
    Complement(x.pp, noise);
    if x.pos <= z {
      Fraction(k, z - x.pos);
    } else {
      Fraction(k, x.pos - z);
      assert z - x.pos == -(x.pos - z);
    }
  }

  // ---------- what prediction and correction mean

  /** The variance of a times the position plus b times the velocity. */
  function Spread(x: Axis, a: real, b: real): real {
    a * a * x.pp + 2.0 * a * b * x.pv + b * b * x.vv
  }

  /** A frame later the position has moved by the velocity, and every combination of the two spreads accordingly. */
  lemma PredictMeans(x: Axis, qp: real, qv: real, a: real, b: real)
    ensures var y := AxisPredict(x, qp, qv);
      && y.pos == x.pos + x.vel && y.vel == x.vel
      && Spread(y, a, b) == Spread(x, a, a + b) + a * a * qp + b * b * qv
  {
    var y := AxisPredict(x, qp, qv);
    var aa, ab, bb := a * a, a * b, b * b;
    assert 2.0 * a * b == 2.0 * ab && 2.0 * a * (a + b) == 2.0 * aa + 2.0 * ab;
    assert (a + b) * (a + b) == aa + 2.0 * ab + bb;
    SpreadOut(aa, ab, bb, x.pp, x.pv, x.vv, qp, qv);
  }

  lemma SpreadOut(aa: real, ab: real, bb: real, pp: real, pv: real, vv: real, qp: real, qv: real)
    ensures aa * (pp + pv + pv + vv + qp) + (2.0 * ab) * (pv + vv) + bb * (vv + qv)
         == aa * pp + (2.0 * aa + 2.0 * ab) * pv + (aa + 2.0 * ab + bb) * vv + aa * qp + bb * qv
  {
  }

  /** Prediction and measurement are weighted by each other's variance. */
  lemma UpdateWeighs(x: Axis, z: real, noise: real)
    requires x.pp + noise > 0.0
    ensures var y, d := AxisUpdate(x, z, noise), x.pp + noise;
      && y.pos * d == x.pos * noise + z * x.pp && (y.vel - x.vel) * d == x.pv * (z - x.pos)
      && y.pp * d == x.pp * noise && y.pv * d == x.pv * noise && (x.vv - y.vv) * d == x.pv * x.pv
  {
    var d := x.pp + noise;
    Share(x.pp, d, z - x.pos);
    Share(x.pv, d, z - x.pos);
    Share(x.pp, d, x.pp);
    Share(x.pp, d, x.pv);
    Share(x.pv, d, x.pv);
    hide Times, Over;
    assert x.pos * d == x.pos * x.pp + x.pos * noise;
  }

  lemma Share(a: real, d: real, y: real)
    requires d != 0.0
    ensures Times(Over(a, d), y) * d == a * y
  {
    assert a / d * d == a;
    assert a / d * y * d == (a / d * d) * y;
  }

  /** The variance of the weighted mean of prediction and measurement, w being the measurement's weight. */
  function MixedVariance(pp: real, noise: real, w: real): real {
    (1.0 - w) * (1.0 - w) * pp + w * w * noise
  }

  /** No other weighting of prediction and measurement has a smaller variance than the correction. */
  lemma UpdateIsBest(x: Axis, z: real, noise: real, w: real)
    requires x.pp >= 0.0 && noise > 0.0
    ensures AxisUpdate(x, z, noise).pp <= MixedVariance(x.pp, noise, w)
    ensures exists v: real ::
      AxisUpdate(x, z, noise).pos == (1.0 - v) * x.pos + v * z
      && AxisUpdate(x, z, noise).pp == MixedVariance(x.pp, noise, v)
  {
    var d, y := x.pp + noise, AxisUpdate(x, z, noise);
    var v := Over(x.pp, d);
    UpdateWeighs(x, z, noise);
    MixedExcess(x.pp, noise, v, w);
    MixedExcess(x.pp, noise, v, v);
    assert y.pos == (1.0 - v) * x.pos + v * z;
    assert MixedVariance(x.pp, noise, v) * d == y.pp * d;
    Cancel(MixedVariance(x.pp, noise, v), y.pp, d);
    BestOfAll(y.pp, MixedVariance(x.pp, noise, w), d);
  }

  lemma Cancel(a: real, b: real, d: real)
    requires d > 0.0 && a * d == b * d
    ensures a == b
  {
  }

  lemma BestOfAll(a: real, b: real, d: real)
    requires d > 0.0 && b * d >= a * d
    ensures a <= b
  {
  }

  /** How much another weighting loses. */
  lemma MixedExcess(pp: real, noise: real, v: real, w: real)
    requires pp + noise > 0.0 && v == Over(pp, pp + noise)
    ensures MixedVariance(pp, noise, w) * (pp + noise) == pp * noise
      + Times(w - v, pp + noise) * Times(w - v, pp + noise)
    ensures MixedVariance(pp, noise, w) * (pp + noise) >= pp * noise
  {
    var d := pp + noise;
    assert v * d == pp;
    var e := Times(w - v, d);
    assert e == w * d - pp;
    MixedSquare(pp, noise, w);
    SquareNotNegative(e);
  }

  lemma MixedSquare(pp: real, noise: real, w: real)
    ensures MixedVariance(pp, noise, w) * (pp + noise)
         == pp * noise + (w * (pp + noise) - pp) * (w * (pp + noise) - pp)
  {
    var ww := w * w;
    assert (1.0 - w) * (1.0 - w) == 1.0 - 2.0 * w + ww;
    var d := pp + noise;
    assert (w * d) * (w * d) == ww * (d * d);
    assert (w * d - pp) * (w * d - pp) == ww * (d * d) - 2.0 * (w * d * pp) + pp * pp;
    assert ((1.0 - 2.0 * w + ww) * pp + ww * noise) * d == (pp - 2.0 * (w * pp) + ww * d) * d;
    assert (pp - 2.0 * (w * pp) + ww * d) * d == pp * d - 2.0 * (w * pp * d) + ww * (d * d);
    assert pp * d == pp * pp + pp * noise;
    assert w * pp * d == w * d * pp;
  }
}
