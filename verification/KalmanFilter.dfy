/** The box filter of the tracker: eight state variables (four coordinates and their velocities) on dense matrices. */
module KalmanFilter {
  import opened RealArithmetic
  import opened GaussJordan
  import opened Vectors
  import opened AxisFilter

  type Vec8 = v: seq<real> | |v| == 8 witness seq(8, _ => 0.0)
  type Mat8 = m: seq<real> | |m| == 64 witness seq(64, _ => 0.0)

  datatype State = State(mean: Vec8, covariance: Mat8)

  function At8(m: Mat8, r: int, c: int): real
    requires 0 <= r < 8 && 0 <= c < 8
  {
    m[r * 8 + c]
  }

  function Height(mean: Vec8): real {
    if mean[3] < 0.000001 then 0.000001 else mean[3]
  }

  function MeasuredHeight(z: Vec4): real {
    if z[3] < 0.000001 then 0.000001 else z[3]
  }

  function Square(x: real): real {
    Times(x, x)
  }

  /** Standard deviations; index 2 and 6 belong to the aspect ratio, which does not scale with the height. */
  function InitialDeviation(h: real, i: int): real {
    if i == 2 then 0.01 else if i == 6 then 0.00001 else if i < 4 then 0.1 * h else 0.0625 * h
  }

  function ProcessDeviation(h: real, i: int): real {
    if i == 2 then 0.01 else if i == 6 then 0.00001 else if i < 4 then 0.05 * h else 0.00625 * h
  }

  function MeasurementDeviation(h: real, i: int): real {
    if i == 2 then 0.1 else 0.05 * h
  }

  // ---------- how the dense state splits into four axes

  /** The axes written in the diagonal, and in the position/velocity cross entries, of the dense state. */
  function AxisOf(s: State, i: int): Axis
    requires 0 <= i < 4
  {
    Axis(s.mean[i], s.mean[i + 4], At8(s.covariance, i, i), At8(s.covariance, i, i + 4),
         At8(s.covariance, i + 4, i + 4))
  }

  /** What entry (r, c) of the covariance is when nothing but the four 2x2 blocks is nonzero. */
  function BlockEntry(s: State, r: int, c: int): real
    requires 0 <= r < 8 && 0 <= c < 8
  {
    if r == c then (if r < 4 then AxisOf(s, r).pp else AxisOf(s, r - 4).vv)
    else if c == r + 4 then AxisOf(s, r).pv
    else if r == c + 4 then AxisOf(s, c).pv
    else 0.0
  }

  /** The covariance is symmetric and couples each coordinate with its own velocity only. */
  ghost predicate Splits(s: State) {
    forall r, c :: 0 <= r < 8 && 0 <= c < 8 ==> At8(s.covariance, r, c) == BlockEntry(s, r, c)
  }

  /** The invariant of every reachable filter state. */
  ghost predicate Sound(s: State) {
    Splits(s) && forall i :: 0 <= i < 4 ==> Psd(AxisOf(s, i))
  }

  ghost predicate Symmetric(m: Mat8) {
    forall r, c :: 0 <= r < 8 && 0 <= c < 8 ==> At8(m, r, c) == At8(m, c, r)
  }

  lemma SetAt8(m: Mat8, t: Mat8, r: int, c: int, x: real)
    requires 0 <= r < 8 && 0 <= c < 8 && t == m[r * 8 + c := x]
    ensures forall i, k :: 0 <= i < 8 && 0 <= k < 8 ==> At8(t, i, k) == if i == r && k == c then x else At8(m, i, k)
  {
  }

  // ---------- initiate

  /** The state a first measurement gives: at the measured place, without motion, uncertain in proportion to the
      height. */
  ghost predicate StartsAt(s: State, z: Vec4) {
    && (forall i :: 0 <= i < 8 ==> s.mean[i] == if i < 4 then z[i] else 0.0)
    && (forall r, c :: 0 <= r < 8 && 0 <= c < 8 ==>
          At8(s.covariance, r, c) == if r == c then Square(InitialDeviation(MeasuredHeight(z), r)) else 0.0)
  }

  method Initiate(z: Vec4) returns (s: State)
    ensures StartsAt(s, z) && Sound(s)
  {
    hide Square, InitialDeviation;
    var mean := new real[8](_ => 0.0);
    for i := 0 to 4
      invariant forall k :: 0 <= k < i ==> mean[k] == z[k]
      invariant forall k :: 4 <= k < 8 ==> mean[k] == 0.0
    {
      mean[i] := z[i];
    }
    for i := 4 to 8
      invariant forall k :: 0 <= k < 4 ==> mean[k] == z[k]
      invariant forall k :: 4 <= k < 8 ==> mean[k] == 0.0
    {
      mean[i] := 0.0;
    }
    var h := MeasuredHeight(z);
    var zero: Mat8 := seq(64, _ => 0.0);
    var cov := Spread(zero, seq(8, i => InitialDeviation(h, i)));
    s := State(mean[..], cov);
    forall i | 0 <= i < 4 ensures Psd(AxisOf(s, i)) {
      SquaresArePsd(InitialDeviation(h, i), InitialDeviation(h, i + 4));
      assert AxisOf(s, i).pv == 0.0;
    }
  }

  lemma SquaresArePsd(x: real, y: real)
    ensures Square(x) >= 0.0 && Square(y) >= 0.0 && 0.0 * 0.0 <= Square(x) * Square(y)
  {
    SquareNotNegative(x);
    SquareNotNegative(y);
    ProductNotNegative(Square(x), Square(y));
  }

  /** Adds the squared deviations to the diagonal. */
  method Spread(cov: Mat8, deviation: Vec8) returns (m: Mat8)
    ensures forall r, c :: 0 <= r < 8 && 0 <= c < 8 ==>
      At8(m, r, c) == if r == c then At8(cov, r, c) + Square(deviation[r]) else At8(cov, r, c)
  {
    hide Square;
    m := cov;
    for i := 0 to 8
      invariant forall r, c :: 0 <= r < 8 && 0 <= c < 8 ==>
        At8(m, r, c) == if r == c && r < i then At8(cov, r, c) + Square(deviation[r]) else At8(cov, r, c)
    {
      ghost var t := m;
      m := m[i * 8 + i := At8(m, i, i) + Square(deviation[i])];
      SetAt8(t, m, i, i, At8(t, i, i) + Square(deviation[i]));
    }
  }

  // ---------- predict

  /** Entry (r, c) of F P F^T for F = [I I; 0 I]. */
  function Carried(p: Mat8, r: int, c: int): real
    requires 0 <= r < 8 && 0 <= c < 8
  {
    HalfCarried(p, r, c) + if c < 4 then HalfCarried(p, r, c + 4) else 0.0
  }

  /** Entry i of F times the mean. */
  function CarriedMean(mean: Vec8, i: int): real
    requires 0 <= i < 8
  {
    mean[i] + if i < 4 then mean[i + 4] else 0.0
  }

  /** Entry (r, c) of F P. */
  function HalfCarried(p: Mat8, r: int, c: int): real
    requires 0 <= r < 8 && 0 <= c < 8
  {
    At8(p, r, c) + if r < 4 then At8(p, r + 4, c) else 0.0
  }

  function Motion(r: int, c: int): real {
    if r == c || c == r + 4 then 1.0 else 0.0
  }

  /** The motion matrix F. */
  method MotionMatrix() returns (f: array2<real>)
    ensures fresh(f) && f.Length0 == 8 && f.Length1 == 8
    ensures forall r, c :: 0 <= r < 8 && 0 <= c < 8 ==> f[r, c] == Motion(r, c)
  {
    f := new real[8, 8]((_, _) => 0.0);
    for i := 0 to 8
      invariant forall r, c :: 0 <= r < 8 && 0 <= c < 8 ==> f[r, c] == if r == c && r < i then 1.0 else 0.0
    {
      f[i, i] := 1.0;
    }
    for i := 0 to 4
      invariant forall r, c :: 0 <= r < 8 && 0 <= c < 8 ==>
        f[r, c] == if r == c || (c == r + 4 && r < i) then 1.0 else 0.0
    {
      f[i, i + 4] := 1.0;
    }
  }

  /** One entry of F P, summed over k as the code does. */
  method LeftSum(f: array2<real>, p: Mat8, r: int, c: int) returns (sum: real)
    requires f.Length0 == 8 && f.Length1 == 8
    requires forall i, k :: 0 <= i < 8 && 0 <= k < 8 ==> f[i, k] == Motion(i, k)
    requires 0 <= r < 8 && 0 <= c < 8
    ensures sum == HalfCarried(p, r, c)
  {
    sum := 0.0;
    for k := 0 to 8
      invariant sum == (if r < k then At8(p, r, c) else 0.0) + (if r + 4 < k then At8(p, r + 4, c) else 0.0)
    {
      Pick(f[r, k], At8(p, k, c));
      sum := sum + f[r, k] * p[k * 8 + c];
    }
  }

  lemma Pick(f: real, x: real)
    ensures f == 0.0 ==> f * x == 0.0 && x * f == 0.0
    ensures f == 1.0 ==> f * x == x && x * f == x
  {
  }

  method RightSum(t: array2<real>, f: array2<real>, p: Mat8, r: int, c: int) returns (sum: real)
    requires f.Length0 == 8 && f.Length1 == 8 && t.Length0 == 8 && t.Length1 == 8
    requires forall i, k :: 0 <= i < 8 && 0 <= k < 8 ==> f[i, k] == Motion(i, k)
    requires 0 <= r < 8 && 0 <= c < 8
    requires forall k :: 0 <= k < 8 ==> t[r, k] == HalfCarried(p, r, k)
    ensures sum == Carried(p, r, c)
  {
    sum := 0.0;
    for k := 0 to 8
      invariant sum == (if c < k then HalfCarried(p, r, c) else 0.0)
        + (if c + 4 < k then HalfCarried(p, r, c + 4) else 0.0)
    {
      Pick(f[c, k], t[r, k]);
      sum := sum + t[r, k] * f[c, k];
    }
  }

  /** F P F^T by two triple loops. */
  method Carry(p: Mat8) returns (m: Mat8)
    ensures forall r, c :: 0 <= r < 8 && 0 <= c < 8 ==> At8(m, r, c) == Carried(p, r, c)
  {
    hide HalfCarried, Motion;
    var f := MotionMatrix();
    var tmp := new real[8, 8]((_, _) => 0.0);
    for r := 0 to 8
      invariant forall i, k :: 0 <= i < 8 && 0 <= k < 8 ==> f[i, k] == Motion(i, k)
      invariant forall i, k :: 0 <= i < r && 0 <= k < 8 ==> tmp[i, k] == HalfCarried(p, i, k)
    {
      for c := 0 to 8
        invariant forall i, k :: 0 <= i < 8 && 0 <= k < 8 ==> f[i, k] == Motion(i, k)
        invariant forall i, k :: 0 <= i < r && 0 <= k < 8 ==> tmp[i, k] == HalfCarried(p, i, k)
        invariant forall k :: 0 <= k < c ==> tmp[r, k] == HalfCarried(p, r, k)
      {
        var sum := LeftSum(f, p, r, c);
        tmp[r, c] := sum;
      }
    }
    m := seq(64, _ => 0.0);
    for r := 0 to 8
      invariant forall i, k :: 0 <= i < 8 && 0 <= k < 8 ==> f[i, k] == Motion(i, k) && tmp[i, k] == HalfCarried(p, i, k)
      invariant forall i, k :: 0 <= i < r && 0 <= k < 8 ==> At8(m, i, k) == Carried(p, i, k)
    {
      for c := 0 to 8
        invariant forall i, k :: 0 <= i < 8 && 0 <= k < 8 ==>
          f[i, k] == Motion(i, k) && tmp[i, k] == HalfCarried(p, i, k)
        invariant forall i, k :: 0 <= i < r && 0 <= k < 8 ==> At8(m, i, k) == Carried(p, i, k)
        invariant forall k :: 0 <= k < c ==> At8(m, r, k) == Carried(p, r, k)
      {
        var sum := RightSum(tmp, f, p, r, c);
        SetAt8(m, m[r * 8 + c := sum], r, c, sum);
        m := m[r * 8 + c := sum];
      }
    }
  }

  /** Moves the state one frame on. On a split state the dense arithmetic is four scalar predictions. */
  method Predict(mean: Vec8, cov: Mat8) returns (s: State)
    ensures DensePrediction(State(mean, cov), s)
    ensures Splits(State(mean, cov)) ==> Splits(s) && forall i :: 0 <= i < 4 ==>
      AxisOf(s, i) == PredictedAxis(State(mean, cov), i)
    ensures Sound(State(mean, cov)) ==> Sound(s)
  {
    hide Square, ProcessDeviation, Carried, Splits, Psd;
    var m := mean;
    for i := 0 to 4
      invariant |m| == 8
      invariant forall k :: 0 <= k < 8 ==> m[k] == if k < i then CarriedMean(mean, k) else mean[k]
    {
      m := m[i := m[i] + mean[i + 4]];
    }
    var carried := Carry(cov);
    var h := Height(mean);
    var spread := Spread(carried, seq(8, i => ProcessDeviation(h, i)));
    s := State(m, spread);
    if Splits(State(mean, cov)) {
      PredictSplits(State(mean, cov), s);
    }
    if Sound(State(mean, cov)) {
      PredictIsSound(State(mean, cov), s);
    }
  }

  /** What the scalar filter predicts for coordinate i. */
  function PredictedAxis(s: State, i: int): Axis
    requires 0 <= i < 4
  {
    var h := Height(s.mean);
    AxisPredict(AxisOf(s, i), Square(ProcessDeviation(h, i)), Square(ProcessDeviation(h, i + 4)))
  }

  ghost predicate DensePrediction(s: State, t: State) {
    && (forall i :: 0 <= i < 8 ==> t.mean[i] == CarriedMean(s.mean, i))
    && (forall r, c :: 0 <= r < 8 && 0 <= c < 8 ==>
          At8(t.covariance, r, c)
          == if r == c then Carried(s.covariance, r, c) + Square(ProcessDeviation(Height(s.mean), r))
             else Carried(s.covariance, r, c))
  }

  lemma PredictSplits(s: State, t: State)
    requires Splits(s) && DensePrediction(s, t)
    ensures Splits(t) && forall i :: 0 <= i < 4 ==> AxisOf(t, i) == PredictedAxis(s, i)
  {
    hide Square, ProcessDeviation;
  }

  lemma PredictIsSound(s: State, t: State)
    requires Sound(s) && DensePrediction(s, t)
    ensures Sound(t)
  {
    hide Square, ProcessDeviation;
    PredictSplits(s, t);
    forall i | 0 <= i < 4 ensures Psd(AxisOf(t, i)) {
      var h := Height(s.mean);
      SquaresArePsd(ProcessDeviation(h, i), ProcessDeviation(h, i + 4));
      PredictKeepsPsd(AxisOf(s, i), Square(ProcessDeviation(h, i)), Square(ProcessDeviation(h, i + 4)));
    }
  }

  // ---------- update

  /** Threw stands for the exception about a singular projected covariance. */
  datatype Correction = Threw | Updated(state: State)

  /** Row r of the first four columns of the covariance. */
  function CrossRow(p: Mat8, r: int): Vec4
    requires 0 <= r < 8
  {
    [At8(p, r, 0), At8(p, r, 1), At8(p, r, 2), At8(p, r, 3)]
  }

  function Noise(mean: Vec8, i: int): real {
    Square(MeasurementDeviation(Height(mean), i))
  }

  /** The measurement covariance: the position block with the measurement noise on its diagonal. */
  ghost predicate Projects(mean: Vec8, p: Mat8, m: Mat4) {
    forall r, c :: 0 <= r < 4 && 0 <= c < 4 ==> At4(m, r, c) == At8(p, r, c) + if r == c then Noise(mean, r) else 0.0
  }

  method Project(mean: Vec8, p: Mat8) returns (m: Mat4)
    ensures Projects(mean, p, m)
  {
    hide Noise;
    m := seq(16, _ => 0.0);
    for r := 0 to 4
      invariant forall i, k :: 0 <= i < r && 0 <= k < 4 ==> At4(m, i, k) == At8(p, i, k)
    {
      for c := 0 to 4
        invariant forall i, k :: 0 <= i < r && 0 <= k < 4 ==> At4(m, i, k) == At8(p, i, k)
        invariant forall k :: 0 <= k < c ==> At4(m, r, k) == At8(p, r, k)
      {
        SetAt4(m, m[r * 4 + c := At8(p, r, c)], r, c, At8(p, r, c));
        m := m[r * 4 + c := At8(p, r, c)];
      }
    }
    for i := 0 to 4
      invariant forall r, c :: 0 <= r < 4 && 0 <= c < 4 ==>
        At4(m, r, c) == At8(p, r, c) + if r == c && r < i then Noise(mean, r) else 0.0
    {
      SetAt4(m, m[i * 4 + i := m[i * 4 + i] + Noise(mean, i)], i, i, At4(m, i, i) + Noise(mean, i));
      m := m[i * 4 + i := m[i * 4 + i] + Noise(mean, i)];
    }
  }

  /** A gain table: one row of four per state variable. */
  type Gain = g: seq<Vec4> | |g| == 8 witness seq(8, _ => ZERO4)

  const ZERO4: Vec4 := [0.0, 0.0, 0.0, 0.0]

  /** The first k terms of a dot product. */
  function Partial(p: Vec4, q: Vec4, k: int): real
    requires 0 <= k <= 4
  {
    if k == 0 then 0.0 else Partial(p, q, k - 1) + p[k - 1] * q[k - 1]
  }

  lemma PartialAll(p: Vec4, q: Vec4)
    ensures Partial(p, q, 4) == Dot(p, q)
  {
    assert Partial(p, q, 1) == p[0] * q[0];
    assert Partial(p, q, 2) == p[0] * q[0] + p[1] * q[1];
    assert Partial(p, q, 3) == p[0] * q[0] + p[1] * q[1] + p[2] * q[2];
  }

  method Summed(p: Vec4, q: Vec4) returns (sum: real)
    ensures sum == Dot(p, q)
  {
    sum := 0.0;
    for k := 0 to 4
      invariant sum == Partial(p, q, k)
    {
      sum := sum + p[k] * q[k];
    }
    PartialAll(p, q);
  }

  method ComputeGain(p: Mat8, inv: Mat4) returns (g: Gain)
    ensures forall r, c :: 0 <= r < 8 && 0 <= c < 4 ==> g[r][c] == Dot(CrossRow(p, r), Column(inv, c))
  {
    hide Dot, CrossRow, Column;
    g := seq(8, _ => ZERO4);
    for r := 0 to 8
      invariant forall i, c :: 0 <= i < r && 0 <= c < 4 ==> g[i][c] == Dot(CrossRow(p, i), Column(inv, c))
    {
      var row := ZERO4;
      for c := 0 to 4
        invariant forall k :: 0 <= k < c ==> row[k] == Dot(CrossRow(p, r), Column(inv, k))
      {
        var sum := Summed(CrossRow(p, r), Column(inv, c));
        row := row[c := sum];
      }
      g := g[r := row];
    }
  }

  method CorrectMean(mean: Vec8, g: Gain, innovation: Vec4) returns (m: Vec8)
    ensures forall r :: 0 <= r < 8 ==> m[r] == mean[r] + Dot(g[r], innovation)
  {
    hide Dot;
    m := mean;
    for r := 0 to 8
      invariant forall k :: 0 <= k < 8 ==> m[k] == if k < r then mean[k] + Dot(g[k], innovation) else mean[k]
    {
      var correction := Summed(g[r], innovation);
      m := m[r := m[r] + correction];
    }
  }

  method CorrectCovariance(p: Mat8, g: Gain) returns (m: Mat8)
    ensures forall r, c :: 0 <= r < 8 && 0 <= c < 8 ==> At8(m, r, c) == At8(p, r, c) - Dot(g[r], CrossRow(p, c))
  {
    hide Dot, CrossRow;
    m := seq(64, _ => 0.0);
    for r := 0 to 8
      invariant forall i, k :: 0 <= i < r && 0 <= k < 8 ==> At8(m, i, k) == At8(p, i, k) - Dot(g[i], CrossRow(p, k))
    {
      for c := 0 to 8
        invariant forall i, k :: 0 <= i < r && 0 <= k < 8 ==> At8(m, i, k) == At8(p, i, k) - Dot(g[i], CrossRow(p, k))
        invariant forall k :: 0 <= k < c ==> At8(m, r, k) == At8(p, r, k) - Dot(g[r], CrossRow(p, k))
      {
        var correction := Summed(g[r], CrossRow(p, c));
        SetAt8(m, m[r * 8 + c := At8(p, r, c) - correction], r, c, At8(p, r, c) - correction);
        m := m[r * 8 + c := At8(p, r, c) - correction];
      }
    }
  }

  /** Averages every pair of mirrored entries. */
  method Symmetrise(p: Mat8) returns (m: Mat8)
    ensures Symmetric(m)
    ensures forall r, c :: 0 <= r < 8 && 0 <= c < 8 ==>
      At8(m, r, c) == if r == c then At8(p, r, c) else 0.5 * (At8(p, r, c) + At8(p, c, r))
  {
    m := p;
    for r := 0 to 8
      invariant forall i, k :: 0 <= i < 8 && 0 <= k < 8 ==> At8(m, i, k) == Averaged(p, i, k, i < r || k < r)
    {
      for c := r + 1 to 8
        invariant forall i, k :: 0 <= i < 8 && 0 <= k < 8 ==>
          At8(m, i, k) == Averaged(p, i, k, i < r || k < r || (i == r && k < c) || (k == r && i < c))
      {
        var v := 0.5 * (At8(m, r, c) + At8(m, c, r));
        var t := m[r * 8 + c := v];
        SetAt8(m, t, r, c, v);
        SetAt8(t, t[c * 8 + r := v], c, r, v);
        m := t[c * 8 + r := v];
      }
    }
  }

  function Averaged(p: Mat8, r: int, c: int, done: bool): real
    requires 0 <= r < 8 && 0 <= c < 8
  {
    if r != c && done then 0.5 * (At8(p, r, c) + At8(p, c, r)) else At8(p, r, c)
  }

  /** What the scalar filter makes of coordinate i of a measurement. */
  function CorrectedAxis(s: State, z: Vec4, i: int): Axis
    requires 0 <= i < 4 && AxisOf(s, i).pp + Noise(s.mean, i) != 0.0
  {
    AxisUpdate(AxisOf(s, i), z[i], Noise(s.mean, i))
  }

  lemma NoiseIsPositive(mean: Vec8, i: int)
    ensures Noise(mean, i) > 0.0
  {
    var d := MeasurementDeviation(Height(mean), i);
    assert d > 0.0;
    PositiveSquare(d);
  }

  lemma PositiveSquare(d: real)
    requires d > 0.0
    ensures Square(d) > 0.0
  {
    ProductPositive(d, d);
  }

  /** The measurement covariance of a split state is diagonal. */
  lemma SplitProjection(s: State, m: Mat4)
    requires Splits(s) && Projects(s.mean, s.covariance, m)
    ensures Diagonal(m) && forall i :: 0 <= i < 4 ==> At4(m, i, i) == AxisOf(s, i).pp + Noise(s.mean, i)
  {
  }

  /** The inverse of a diagonal matrix is diagonal, with the reciprocals. */
  lemma DiagonalInverse(m: Mat4, inv: Mat4)
    requires Diagonal(m) && Inverts(inv, m) && forall i :: 0 <= i < 4 ==> At4(m, i, i) != 0.0
    ensures forall r, c :: 0 <= r < 4 && 0 <= c < 4 ==> At4(inv, r, c) == Over(Delta(r, c), At4(m, c, c))
  {
    hide Dot;
    forall r, c | 0 <= r < 4 && 0 <= c < 4 ensures At4(inv, r, c) == Over(Delta(r, c), At4(m, c, c)) {
      assert Product(inv, m, r, c) == Delta(r, c);
      DotSparse(Row(inv, r), Column(m, c), c);
      Quotient(At4(inv, r, c), At4(m, c, c), Delta(r, c));
    }
  }

  lemma Quotient(x: real, d: real, y: real)
    requires d != 0.0 && Times(x, d) == y
    ensures x == Over(y, d)
  {
  }

  /** A vector with one entry picks that entry. */
  lemma DotSparse(p: Vec4, q: Vec4, i: int)
    requires 0 <= i < 4 && forall k :: 0 <= k < 4 && k != i ==> q[k] == 0.0
    ensures Dot(p, q) == Times(p[i], q[i]) && Dot(q, p) == Times(q[i], p[i])
  {
  }

  function AxisIndex(r: int): int {
    if r < 4 then r else r - 4
  }

  /** Covariance of state variable r with the coordinate of its own axis. */
  function Coupling(s: State, r: int): real
    requires 0 <= r < 8
  {
    if r < 4 then AxisOf(s, r).pp else AxisOf(s, r - 4).pv
  }

  lemma CrossRowIsSparse(s: State, r: int)
    requires Splits(s) && 0 <= r < 8
    ensures CrossRow(s.covariance, r)[AxisIndex(r)] == Coupling(s, r)
    ensures forall k :: 0 <= k < 4 && k != AxisIndex(r) ==> CrossRow(s.covariance, r)[k] == 0.0
  {
  }

  /** No projected variance vanishes. */
  ghost predicate Invertible(s: State) {
    forall i :: 0 <= i < 4 ==> AxisOf(s, i).pp + Noise(s.mean, i) != 0.0
  }

  /** In a split state the gain couples each state variable with the innovation of its own axis only. */
  ghost predicate SparseGain(s: State, g: Gain)
    requires Invertible(s)
  {
    forall r, c :: 0 <= r < 8 && 0 <= c < 4 ==> g[r][c] == GainEntry(s, r, c)
  }

  ghost function GainEntry(s: State, r: int, c: int): real
    requires Invertible(s) && 0 <= r < 8 && 0 <= c < 4
  {
    if c == AxisIndex(r) then Over(Coupling(s, r), AxisOf(s, c).pp + Noise(s.mean, c)) else 0.0
  }

  lemma GainIsSparse(s: State, m: Mat4, inv: Mat4, g: Gain)
    requires Splits(s) && Projects(s.mean, s.covariance, m) && Inverts(inv, m)
    requires Invertible(s)
    requires forall r, c :: 0 <= r < 8 && 0 <= c < 4 ==> g[r][c] == Dot(CrossRow(s.covariance, r), Column(inv, c))
    ensures SparseGain(s, g)
  {
    hide Dot, Splits, Noise, Inverts, Coupling, CrossRow;
    SplitProjection(s, m);
    DiagonalInverse(m, inv);
    forall r, c | 0 <= r < 8 && 0 <= c < 4 ensures g[r][c] == GainEntry(s, r, c) {
      var i := AxisIndex(r);
      CrossRowIsSparse(s, r);
      var row := CrossRow(s.covariance, r);
      DotSparse(Column(inv, c), row, i);
      assert Column(inv, c)[i] == At4(inv, i, c) == Over(Delta(i, c), At4(m, c, c));
      assert g[r][c] == Times(row[i], Over(Delta(i, c), At4(m, c, c)));
      TimesReciprocal(row[i], At4(m, c, c));
    }
  }

  lemma TimesReciprocal(x: real, d: real)
    requires d != 0.0
    ensures Times(x, Over(1.0, d)) == Over(x, d)
    ensures Times(x, Over(0.0, d)) == 0.0
  {
  }

  /** The dense correction of mean and covariance, before the averaging. */
  ghost predicate DenseCorrection(s: State, z: Vec4, g: Gain, t: State) {
    && (forall r :: 0 <= r < 8 ==> t.mean[r] == s.mean[r] + Dot(g[r], Innovation(s.mean, z)))
    && (forall r, c :: 0 <= r < 8 && 0 <= c < 8 ==>
          At8(t.covariance, r, c) == At8(s.covariance, r, c) - Dot(g[r], CrossRow(s.covariance, c)))
  }

  function Innovation(mean: Vec8, z: Vec4): Vec4 {
    [z[0] - mean[0], z[1] - mean[1], z[2] - mean[2], z[3] - mean[3]]
  }

  lemma CorrectionTerm(s: State, g: Gain, r: int, c: int)
    requires Invertible(s)
    requires Splits(s) && SparseGain(s, g) && 0 <= r < 8 && 0 <= c < 8
    ensures Dot(g[r], CrossRow(s.covariance, c))
         == if AxisIndex(r) == AxisIndex(c) then Times(g[r][AxisIndex(r)], Coupling(s, c)) else 0.0
  {
    hide Dot, Splits, Noise, Coupling, CrossRow;
    CrossRowIsSparse(s, c);
    var row, i := CrossRow(s.covariance, c), AxisIndex(c);
    DotSparse(g[r], row, i);
    assert Dot(g[r], row) == Times(g[r][i], row[i]);
    TimesZero(row[i]);
  }

  lemma TimesZero(x: real)
    ensures Times(0.0, x) == 0.0
  {
  }

  /** Entry (r, c) of the corrected covariance of a split state. */
  function CorrectedEntry(s: State, g: Gain, r: int, c: int): real
    requires 0 <= r < 8 && 0 <= c < 8
  {
    BlockEntry(s, r, c) - if AxisIndex(r) == AxisIndex(c) then Times(g[r][AxisIndex(r)], Coupling(s, c)) else 0.0
  }

  lemma CorrectedEntries(s: State, z: Vec4, g: Gain, t: State)
    requires Invertible(s)
    requires Splits(s) && SparseGain(s, g) && DenseCorrection(s, z, g, t)
    ensures forall r, c :: 0 <= r < 8 && 0 <= c < 8 ==> At8(t.covariance, r, c) == CorrectedEntry(s, g, r, c)
    ensures forall r :: 0 <= r < 8 ==>
      t.mean[r] == s.mean[r] + Times(g[r][AxisIndex(r)], z[AxisIndex(r)] - s.mean[AxisIndex(r)])
  {
    hide Dot, Noise, CrossRow, Times, Over, BlockEntry, Coupling;
    forall r, c | 0 <= r < 8 && 0 <= c < 8 ensures At8(t.covariance, r, c) == CorrectedEntry(s, g, r, c) {
      CorrectionTerm(s, g, r, c);
    }
    forall r | 0 <= r < 8
      ensures t.mean[r] == s.mean[r] + Times(g[r][AxisIndex(r)], z[AxisIndex(r)] - s.mean[AxisIndex(r)])
    {
      DotSparse(Innovation(s.mean, z), g[r], AxisIndex(r));
    }
  }

  lemma CorrectionSplits(s: State, z: Vec4, g: Gain, t: State)
    requires Invertible(s)
    requires Splits(s) && SparseGain(s, g) && DenseCorrection(s, z, g, t)
    ensures Splits(t) && forall i :: 0 <= i < 4 ==> AxisOf(t, i) == CorrectedAxis(s, z, i)
  {
    hide Dot, Noise, CrossRow, Times, Over, DenseCorrection, Splits;
    CorrectedEntries(s, z, g, t);
    forall i | 0 <= i < 4 ensures AxisOf(t, i) == CorrectedAxis(s, z, i)
      && At8(t.covariance, i + 4, i) == AxisOf(t, i).pv {
      CorrectedOneAxis(s, z, g, t, i);
    }
    EntriesSplit(s, g, t);
  }

  lemma CorrectedOneAxis(s: State, z: Vec4, g: Gain, t: State, i: int)
    requires 0 <= i < 4
    requires Invertible(s)
    requires SparseGain(s, g)
    requires forall r, c :: 0 <= r < 8 && 0 <= c < 8 ==> At8(t.covariance, r, c) == CorrectedEntry(s, g, r, c)
    requires forall r :: 0 <= r < 8 ==>
      t.mean[r] == s.mean[r] + Times(g[r][AxisIndex(r)], z[AxisIndex(r)] - s.mean[AxisIndex(r)])
    ensures AxisOf(t, i) == CorrectedAxis(s, z, i) && At8(t.covariance, i + 4, i) == AxisOf(t, i).pv
  {
    hide Noise, Times, Over;
    var x := AxisOf(s, i);
    MirroredTerm(x.pp, x.pv, x.pp + Noise(s.mean, i));
    assert At8(t.covariance, i, i) == CorrectedEntry(s, g, i, i);
    assert At8(t.covariance, i + 4, i) == CorrectedEntry(s, g, i + 4, i);
    assert At8(t.covariance, i, i + 4) == CorrectedEntry(s, g, i, i + 4);
    assert At8(t.covariance, i + 4, i + 4) == CorrectedEntry(s, g, i + 4, i + 4);
  }

  lemma EntriesSplit(s: State, g: Gain, t: State)
    requires forall r, c :: 0 <= r < 8 && 0 <= c < 8 ==> At8(t.covariance, r, c) == CorrectedEntry(s, g, r, c)
    requires forall i :: 0 <= i < 4 ==> At8(t.covariance, i + 4, i) == AxisOf(t, i).pv
    ensures Splits(t)
  {
    hide Times;
    forall r, c | 0 <= r < 8 && 0 <= c < 8 ensures At8(t.covariance, r, c) == BlockEntry(t, r, c) {
      if AxisIndex(r) != AxisIndex(c) {
        assert At8(t.covariance, r, c) == CorrectedEntry(s, g, r, c);
      } else if r == c + 4 {
        assert At8(t.covariance, c + 4, c) == AxisOf(t, c).pv;
      }
    }
  }

  lemma MirroredTerm(pp: real, pv: real, d: real)
    requires d != 0.0
    ensures Times(Over(pp, d), pv) == Times(Over(pv, d), pp)
  {
    var e := 1.0 / d;
    assert pp / d == pp * e && pv / d == pv * e;
  }

  /** Corrects the state with a measurement. On a split state the dense arithmetic is four scalar corrections; it
      throws exactly when some projected variance is below the pivot limit. */
  method Update(mean: Vec8, cov: Mat8, z: Vec4) returns (r: Correction)
    ensures r.Updated? ==> Symmetric(r.state.covariance) && Corrects(State(mean, cov), z, r.state)
    ensures Sound(State(mean, cov)) ==> (r.Updated? <==> Accepts(State(mean, cov)))
  {
    hide Inverts, Sound, Symmetric, Projects;
    ghost var s := State(mean, cov);
    var projected := Project(mean, cov);
    var inversion := Invert4(projected);
    if Sound(s) {
      ProjectionAccepted(s, projected);
    }
    if inversion.Singular? {
      return Threw;
    }
    var gain := ComputeGain(cov, inversion.matrix);
    var m := CorrectMean(mean, gain, Innovation(mean, z));
    var raw := CorrectCovariance(cov, gain);
    var even := Symmetrise(raw);
    r := Updated(State(m, even));
    if Sound(s) {
      UpdateIsSound(s, z, projected, inversion.matrix, gain, State(m, raw), State(m, even));
    }
  }

  /** No projected variance is below the pivot limit. */
  ghost predicate Accepts(s: State) {
    forall i :: 0 <= i < 4 ==> AxisOf(s, i).pp + Noise(s.mean, i) >= PIVOT_LIMIT
  }

  /** From a sound state, t is sound again and each axis went through the scalar correction. */
  ghost predicate Corrects(s: State, z: Vec4, t: State) {
    Sound(s) ==> Sound(t) && forall i :: 0 <= i < 4 ==> CorrectsAxis(s, z, t, i)
  }

  /** Axis i of t is axis i of s after the scalar correction. */
  ghost predicate CorrectsAxis(s: State, z: Vec4, t: State, i: int)
    requires 0 <= i < 4
  {
    AxisOf(s, i).pp + Noise(s.mean, i) > 0.0 && AxisOf(t, i) == CorrectedAxis(s, z, i)
  }

  lemma ProjectionAccepted(s: State, m: Mat4)
    requires Sound(s) && Projects(s.mean, s.covariance, m)
    ensures Diagonal(m)
    ensures (forall i :: 0 <= i < 4 ==> Abs(At4(m, i, i)) >= PIVOT_LIMIT)
       <==> (forall i :: 0 <= i < 4 ==> AxisOf(s, i).pp + Noise(s.mean, i) >= PIVOT_LIMIT)
  {
    hide Noise;
    SplitProjection(s, m);
    forall i | 0 <= i < 4 ensures Abs(At4(m, i, i)) == AxisOf(s, i).pp + Noise(s.mean, i) {
      NoiseIsPositive(s.mean, i);
      assert Psd(AxisOf(s, i));
    }
  }

  lemma UpdateIsSound(s: State, z: Vec4, m: Mat4, inv: Mat4, g: Gain, raw: State, t: State)
    requires Sound(s) && Projects(s.mean, s.covariance, m) && Inverts(inv, m)
    requires forall r, c :: 0 <= r < 8 && 0 <= c < 4 ==> g[r][c] == Dot(CrossRow(s.covariance, r), Column(inv, c))
    requires DenseCorrection(s, z, g, raw)
    requires t.mean == raw.mean
    requires forall r, c :: 0 <= r < 8 && 0 <= c < 8 ==>
      At8(t.covariance, r, c)
      == if r == c then At8(raw.covariance, r, c) else 0.5 * (At8(raw.covariance, r, c) + At8(raw.covariance, c, r))
    ensures Sound(t) && forall i :: 0 <= i < 4 ==> CorrectsAxis(s, z, t, i)
  {
    hide Noise, Dot, CrossRow, Inverts, Projects, DenseCorrection, Times, Over, Psd;
    forall i | 0 <= i < 4 ensures AxisOf(s, i).pp + Noise(s.mean, i) > 0.0 {
      PositiveProjection(s, i);
    }
    GainIsSparse(s, m, inv, g);
    CorrectionSplits(s, z, g, raw);
    SymmetriseNothing(raw, t);
    forall i | 0 <= i < 4 ensures Psd(AxisOf(t, i)) && CorrectsAxis(s, z, t, i) {
      NoiseIsPositive(s.mean, i);
      UpdateKeepsPsd(AxisOf(s, i), z[i], Noise(s.mean, i));
    }
  }

  lemma PositiveProjection(s: State, i: int)
    requires Sound(s) && 0 <= i < 4
    ensures AxisOf(s, i).pp + Noise(s.mean, i) > 0.0
  {
    NoiseIsPositive(s.mean, i);
    assert Psd(AxisOf(s, i));
  }

  lemma SymmetriseNothing(raw: State, t: State)
    requires Splits(raw) && t.mean == raw.mean
    requires forall r, c :: 0 <= r < 8 && 0 <= c < 8 ==>
      At8(t.covariance, r, c)
      == if r == c then At8(raw.covariance, r, c) else 0.5 * (At8(raw.covariance, r, c) + At8(raw.covariance, c, r))
    ensures Splits(t) && forall i :: 0 <= i < 4 ==> AxisOf(t, i) == AxisOf(raw, i)
  {
  }

  // ---------- when the filter can throw

  /** Once the estimated height is at least 2e-5 pixels, no update of a reachable state throws. */
  lemma TallBoxesNeverThrow(s: State)
    requires Sound(s) && s.mean[3] >= 0.00002
    ensures Accepts(s)
  {
    forall i | 0 <= i < 4 ensures AxisOf(s, i).pp + Noise(s.mean, i) >= PIVOT_LIMIT {
      assert Psd(AxisOf(s, i));
      var d := MeasurementDeviation(Height(s.mean), i);
      SquareFloor(d, 0.000001);
    }
  }

  lemma SquareFloor(d: real, floor: real)
    requires 0.0 <= floor <= d
    ensures Square(d) >= floor * floor
  {
    assert d * d >= d * floor >= floor * floor;
  }

  /** The first update after a track was started throws exactly for boxes that are next to nothing high. */
  lemma FirstUpdateAccepts(z: Vec4, s: State)
    requires StartsAt(s, z)
    ensures Accepts(s) <==> 0.0125 * (MeasuredHeight(z) * MeasuredHeight(z)) >= PIVOT_LIMIT
  {
    var h := MeasuredHeight(z);
    assert Height(s.mean) == h;
    forall i | 0 <= i < 4 && i != 2 ensures AxisOf(s, i).pp + Noise(s.mean, i) == 0.0125 * (h * h) {
      assert Square(0.1 * h) == 0.01 * (h * h) && Square(0.05 * h) == 0.0025 * (h * h);
    }
    assert AxisOf(s, 2).pp + Noise(s.mean, 2) >= PIVOT_LIMIT by {
      assert Square(0.01) == 0.0001 && Square(0.1) == 0.01;
    }
    assert AxisOf(s, 0).pp + Noise(s.mean, 0) == 0.0125 * (h * h);
  }

  /** Started and moved on by one frame, in numbers: the variances of the coordinates and of their velocities, and what
      the next measurement adds, as multiples of the squared height; for the aspect ratio they are constants. */
  lemma FirstPredictionInNumbers(z: Vec4, s: State, t: State, i: int)
    requires StartsAt(s, z) && DensePrediction(s, t) && 0 <= i < 4
    ensures var h2 := MeasuredHeight(z) * MeasuredHeight(z);
      && t.mean[i] == z[i] && t.mean[i + 4] == 0.0
      && At8(t.covariance, i, i) == (if i == 2 then 0.0002000001 else 0.01640625 * h2)
      && At8(t.covariance, i + 4, i + 4) == (if i == 2 then 0.0000000002 else 0.0039453125 * h2)
      && At8(t.covariance, i, i + 4) == (if i == 2 then 0.0000000001 else 0.00390625 * h2)
      && Noise(s.mean, i) == (if i == 2 then 0.01 else 0.0025 * h2)
  {
    var h := MeasuredHeight(z);
    assert Height(s.mean) == h;
    DeviationsInNumbers(h);
    hide Square;
  }

  lemma DeviationsInNumbers(h: real)
    ensures Square(0.1 * h) == 0.01 * (h * h) && Square(0.0625 * h) == 0.00390625 * (h * h)
    ensures Square(0.05 * h) == 0.0025 * (h * h) && Square(0.00625 * h) == 0.0000390625 * (h * h)
    ensures Square(0.01) == 0.0001 && Square(0.00001) == 0.0000000001 && Square(0.1) == 0.01
  {
  }
}
