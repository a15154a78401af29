/** The similarity transform that brings five facial landmarks closest to where the recognizer expects them. */
module LandmarkAlignment {
  import opened RealArithmetic
  import opened Vectors
  import opened LinearSolve
  import opened SimilaritySystem

  datatype Point = Point(x: real, y: real)

  /** Where the landmarks should be in the 112x112 crop. */
  function Template(): seq<Point> {
    [Point(38.2946, 51.6963), Point(73.5318, 51.5014), Point(56.0252, 71.7366), Point(41.5493, 92.3655),
     Point(70.7299, 92.2041)]
  }

  /** The transform with parameters [a, b, tx, ty]. */
  function Moved(p: Vec4, q: Point): Point {
    Point(p[0] * q.x - p[1] * q.y + p[2], p[1] * q.x + p[0] * q.y + p[3])
  }

  function SquaredDistance(p: Point, q: Point): real {
    (p.x - q.x) * (p.x - q.x) + (p.y - q.y) * (p.y - q.y)
  }

  /** The summed squared distance of the moved points from their targets. */
  function SquaredError(source: seq<Point>, target: seq<Point>, p: Vec4): real
    requires |source| == |target|
  {
    if source == [] then 0.0 else
    var n := |source| - 1;
    SquaredError(source[..n], target[..n], p) + SquaredDistance(Moved(p, source[n]), target[n])
  }

  // ---------- observation equations

  /** What one landmark says about the parameters: one equation for each coordinate. */
  function XEquation(q: Point, t: Point): Equation {
    Equation([q.x, -q.y, 1.0, 0.0], t.x)
  }

  function YEquation(q: Point, t: Point): Equation {
    Equation([q.y, q.x, 0.0, 1.0], t.y)
  }

  function Observations(source: seq<Point>, target: seq<Point>): (eqs: seq<Equation>)
    requires |source| == |target|
  {
    if source == [] then [] else
    var n := |source| - 1;
    Observations(source[..n], target[..n]) + [XEquation(source[n], target[n])] + [YEquation(source[n], target[n])]
  }

  /** By how much the parameters miss the equation. */
  function Miss(e: Equation, p: Vec4): real {
    Dot(e.c, p) - e.rhs
  }

  function SquaredMisses(eqs: seq<Equation>, p: Vec4): real {
    if eqs == [] then 0.0 else
    SquaredMisses(eqs[..|eqs| - 1], p) + Times(Miss(eqs[|eqs| - 1], p), Miss(eqs[|eqs| - 1], p))
  }

  lemma {:induction false} ErrorIsMisses(source: seq<Point>, target: seq<Point>, p: Vec4)
    requires |source| == |target|
    ensures SquaredError(source, target, p) == SquaredMisses(Observations(source, target), p)
  {
    if source != [] {
      var n := |source| - 1;
      ErrorIsMisses(source[..n], target[..n], p);
      var rest := Observations(source[..n], target[..n]);
      var x, y := XEquation(source[n], target[n]), YEquation(source[n], target[n]);
      assert (rest + [x] + [y])[..|rest| + 1] == rest + [x];
      assert (rest + [x])[..|rest|] == rest;
      MissIsDistance(source[n], target[n], p);
    }
  }

  lemma MissIsDistance(q: Point, t: Point, p: Vec4)
    ensures SquaredDistance(Moved(p, q), t)
      == Times(Miss(XEquation(q, t), p), Miss(XEquation(q, t), p))
        + Times(Miss(YEquation(q, t), p), Miss(YEquation(q, t), p))
  {
    var m := Moved(p, q);
    assert Miss(XEquation(q, t), p) == m.x - t.x;
    assert Miss(YEquation(q, t), p) == m.y - t.y;
  }

  // ---------- normal equations

  /** The normal equations grow by one observation. */
  function Accumulated(normal: seq<Equation>, e: Equation): (r: seq<Equation>)
    requires |normal| == 4
    ensures |r| == 4
  {
    seq(4, i requires 0 <= i < 4 => AccumulatedRow(normal[i], e, i))
  }

  function AccumulatedRow(row: Equation, e: Equation, i: int): Equation
    requires 0 <= i < 4
  {
    Equation([row.c[0] + Times(e.c[i], e.c[0]), row.c[1] + Times(e.c[i], e.c[1]),
              row.c[2] + Times(e.c[i], e.c[2]), row.c[3] + Times(e.c[i], e.c[3])], row.rhs + Times(e.c[i], e.rhs))
  }

  function NoEquation(): Equation {
    Equation([0.0, 0.0, 0.0, 0.0], 0.0)
  }

  function Normal(eqs: seq<Equation>): (r: seq<Equation>)
    ensures |r| == 4
  {
    if eqs == [] then [NoEquation(), NoEquation(), NoEquation(), NoEquation()]
    else Accumulated(Normal(eqs[..|eqs| - 1]), eqs[|eqs| - 1])
  }

  /** How the misses pull at parameter i. */
  function Pull(eqs: seq<Equation>, p: Vec4, i: int): real
    requires 0 <= i < 4
  {
    if eqs == [] then 0.0 else
    Pull(eqs[..|eqs| - 1], p, i) + Times(eqs[|eqs| - 1].c[i], Miss(eqs[|eqs| - 1], p))
  }

  /** The normal equations say that nothing pulls. */
  lemma {:induction false} NormalMeansNoPull(eqs: seq<Equation>, p: Vec4, i: int)
    requires 0 <= i < 4
    ensures Miss(Normal(eqs)[i], p) == Pull(eqs, p, i)
  {
    if eqs == [] {
    } else {
      var front, e := eqs[..|eqs| - 1], eqs[|eqs| - 1];
      NormalMeansNoPull(front, p, i);
      RowMiss(Normal(front)[i], e, i, p);
    }
  }

  lemma RowMiss(row: Equation, e: Equation, i: int, p: Vec4)
    requires 0 <= i < 4
    ensures Miss(AccumulatedRow(row, e, i), p) == Miss(row, p) + Times(e.c[i], Miss(e, p))
  {
    hide Times, Dot;
    var x := e.c[i];
    DotReduced(row.c, e.c, p, -x);
    TimesNegated(x, e.c[0]);
    TimesNegated(x, e.c[1]);
    TimesNegated(x, e.c[2]);
    TimesNegated(x, e.c[3]);
    TimesNegated(x, Dot(e.c, p));
    TimesMinus(x, Dot(e.c, p), e.rhs);
    assert AccumulatedRow(row, e, i).c
        == [row.c[0] - Times(-x, e.c[0]), row.c[1] - Times(-x, e.c[1]), row.c[2] - Times(-x, e.c[2]),
            row.c[3] - Times(-x, e.c[3])];
  }

  lemma TimesNegated(x: real, y: real)
    ensures Times(-x, y) == -Times(x, y) && Times(x, -y) == -Times(x, y)
  {
  }

  lemma TimesMinus(x: real, y: real, z: real)
    ensures Times(x, y - z) == Times(x, y) - Times(x, z)
  {
  }

  // ---------- the shape of the normal equations

  function SumX(ps: seq<Point>): real {
    if ps == [] then 0.0 else SumX(ps[..|ps| - 1]) + ps[|ps| - 1].x
  }

  function SumY(ps: seq<Point>): real {
    if ps == [] then 0.0 else SumY(ps[..|ps| - 1]) + ps[|ps| - 1].y
  }

  function SumSquares(ps: seq<Point>): real {
    if ps == [] then 0.0 else
    var p := ps[|ps| - 1];
    SumSquares(ps[..|ps| - 1]) + (Times(p.x, p.x) + Times(p.y, p.y))
  }

  /** The normal equations of the first n points depend on three sums over them. */
  ghost predicate ShapedTo(source: seq<Point>, target: seq<Point>, n: nat)
    requires n <= |source| == |target|
  {
    Shaped(Normal(Observations(source[..n], target[..n])), SumSquares(source[..n]), SumX(source[..n]),
           SumY(source[..n]), n as real)
  }

  lemma {:induction false} NormalIsShaped(source: seq<Point>, target: seq<Point>, n: nat)
    requires n <= |source| == |target|
    ensures ShapedTo(source, target, n)
  {
    hide ShapedTo;
    if n == 0 {
      NothingIsShaped(source, target);
    } else {
      NormalIsShaped(source, target, n - 1);
      OneMoreIsShaped(source, target, n - 1);
    }
  }

  lemma NothingIsShaped(source: seq<Point>, target: seq<Point>)
    requires |source| == |target|
    ensures ShapedTo(source, target, 0)
  {
    assert source[..0] == [] && target[..0] == [];
  }

  lemma OneMoreIsShaped(source: seq<Point>, target: seq<Point>, n: nat)
    requires n < |source| == |target| && ShapedTo(source, target, n)
    ensures ShapedTo(source, target, n + 1)
  {
    hide Normal, Observations, Shaped, Accumulated, XEquation, YEquation, Times, SumX, SumY, SumSquares;
    NormalGrows(source, target, n);
    SumsGrow(source, n);
    ShapeGrows(Normal(Observations(source[..n], target[..n])), SumSquares(source[..n]), SumX(source[..n]),
               SumY(source[..n]), n as real, source[n], target[n]);
  }

  lemma SumsGrow(ps: seq<Point>, n: nat)
    requires n < |ps|
    ensures SumX(ps[..n + 1]) == SumX(ps[..n]) + ps[n].x && SumY(ps[..n + 1]) == SumY(ps[..n]) + ps[n].y
    ensures SumSquares(ps[..n + 1]) == SumSquares(ps[..n]) + (Times(ps[n].x, ps[n].x) + Times(ps[n].y, ps[n].y))
  {
    hide Times;
    assert ps[..n + 1][..n] == ps[..n];
  }

  lemma ShapeGrows(s: seq<Equation>, q: real, x: real, y: real, n: real, p: Point, t: Point)
    requires Shaped(s, q, x, y, n)
    ensures Shaped(Accumulated(Accumulated(s, XEquation(p, t)), YEquation(p, t)),
                   q + (Times(p.x, p.x) + Times(p.y, p.y)), x + p.x, y + p.y, n + 1.0)
  {
    hide Times;
    var e, f := XEquation(p, t), YEquation(p, t);
    var next := Accumulated(Accumulated(s, e), f);
    forall i | 0 <= i < 4 ensures next[i] == AccumulatedRow(AccumulatedRow(s[i], e, i), f, i) {
    }
    PointProducts(p.x);
    PointProducts(p.y);
    PointProducts(-p.y);
    PointProducts(1.0);
    CrossProducts(p.x, p.y);
    assert next[0].c == [q + (Times(p.x, p.x) + Times(p.y, p.y)), 0.0, x + p.x, y + p.y];
    assert next[1].c == [0.0, q + (Times(p.x, p.x) + Times(p.y, p.y)), -(y + p.y), x + p.x];
    assert next[2].c == [x + p.x, -(y + p.y), n + 1.0, 0.0];
    assert next[3].c == [y + p.y, x + p.x, 0.0, n + 1.0];
  }

  lemma PointProducts(x: real)
    ensures Times(x, 1.0) == x && Times(1.0, x) == x && Times(x, 0.0) == 0.0 && Times(0.0, x) == 0.0
      && Times(0.0, 0.0) == 0.0
  {
  }

  lemma CrossProducts(x: real, y: real)
    ensures Times(-y, -y) == Times(y, y) && Times(x, -y) == -Times(y, x) && Times(-y, x) == -Times(x, y)
    ensures Times(x, y) == Times(y, x)
  {
  }

  /** The squares of five points are at least a fifth of the squared sums. */
  lemma SquaresCoverSums(ps: seq<Point>)
    requires |ps| == 5
    ensures 5.0 * SumSquares(ps) >= Times(SumX(ps), SumX(ps)) + Times(SumY(ps), SumY(ps))
  {
    FiveSums(ps);
    FiveSquares(ps[0].x, ps[1].x, ps[2].x, ps[3].x, ps[4].x);
    FiveSquares(ps[0].y, ps[1].y, ps[2].y, ps[3].y, ps[4].y);
  }

  function Squares(a: real, b: real, c: real, d: real, e: real): real {
    Times(a, a) + Times(b, b) + Times(c, c) + Times(d, d) + Times(e, e)
  }

  lemma FiveSums(ps: seq<Point>)
    requires |ps| == 5
    ensures SumX(ps) == ps[0].x + ps[1].x + ps[2].x + ps[3].x + ps[4].x
    ensures SumY(ps) == ps[0].y + ps[1].y + ps[2].y + ps[3].y + ps[4].y
    ensures SumSquares(ps)
      == Squares(ps[0].x, ps[1].x, ps[2].x, ps[3].x, ps[4].x) + Squares(ps[0].y, ps[1].y, ps[2].y, ps[3].y, ps[4].y)
  {
    hide Times, SumX, SumY, SumSquares;
    SumsGrow(ps, 4);
    SumsGrow(ps, 3);
    SumsGrow(ps, 2);
    SumsGrow(ps, 1);
    SumsGrow(ps, 0);
    assert ps[..0] == [] && ps[..5] == ps;
    NoSums();
  }

  lemma NoSums()
    ensures SumX([]) == SumY([]) == SumSquares([]) == 0.0
  {
  }

  lemma FiveSquares(a: real, b: real, c: real, d: real, e: real)
    ensures 5.0 * Squares(a, b, c, d, e) >= Times(a + b + c + d + e, a + b + c + d + e)
  {
    var sum := a + b + c + d + e;
    var gaps := (a - b) * (a - b) + (a - c) * (a - c) + (a - d) * (a - d) + (a - e) * (a - e) + (b - c) * (b - c)
      + (b - d) * (b - d) + (b - e) * (b - e) + (c - d) * (c - d) + (c - e) * (c - e) + (d - e) * (d - e);
    assert 5.0 * (a * a + b * b + c * c + d * d + e * e) == sum * sum + gaps;
    assert gaps >= 0.0 by {
      SquareNotNegative(a - b);
      SquareNotNegative(a - c);
      SquareNotNegative(a - d);
      SquareNotNegative(a - e);
      SquareNotNegative(b - c);
      SquareNotNegative(b - d);
      SquareNotNegative(b - e);
      SquareNotNegative(c - d);
      SquareNotNegative(c - e);
      SquareNotNegative(d - e);
    }
  }

  // ---------- optimality

  function Plus(p: Vec4, d: Vec4): Vec4 {
    [p[0] + d[0], p[1] + d[1], p[2] + d[2], p[3] + d[3]]
  }

  function Minus(q: Vec4, p: Vec4): Vec4 {
    [q[0] - p[0], q[1] - p[1], q[2] - p[2], q[3] - p[3]]
  }

  lemma DotPlus(c: Vec4, p: Vec4, d: Vec4)
    ensures Dot(c, Plus(p, d)) == Dot(c, p) + Dot(c, d)
  {
  }

  /** The summed squares of the change a step makes to the equations. */
  function Spread(eqs: seq<Equation>, d: Vec4): real {
    if eqs == [] then 0.0 else
    Spread(eqs[..|eqs| - 1], d) + Times(Dot(eqs[|eqs| - 1].c, d), Dot(eqs[|eqs| - 1].c, d))
  }

  /** The pull of the misses along a step. */
  function Along(eqs: seq<Equation>, p: Vec4, d: Vec4): real {
    if eqs == [] then 0.0 else
    Along(eqs[..|eqs| - 1], p, d) + Times(Dot(eqs[|eqs| - 1].c, d), Miss(eqs[|eqs| - 1], p))
  }

  lemma {:induction false} AlongIsPull(eqs: seq<Equation>, p: Vec4, d: Vec4)
    ensures Along(eqs, p, d) == Dot([Pull(eqs, p, 0), Pull(eqs, p, 1), Pull(eqs, p, 2), Pull(eqs, p, 3)], d)
  {
    if eqs != [] {
      var front, e := eqs[..|eqs| - 1], eqs[|eqs| - 1];
      AlongIsPull(front, p, d);
      var m := Miss(e, p);
      PullStep([Pull(front, p, 0), Pull(front, p, 1), Pull(front, p, 2), Pull(front, p, 3)], e.c, m, d);
    }
  }

  lemma PullStep(g: Vec4, c: Vec4, m: real, d: Vec4)
    ensures Dot([g[0] + Times(c[0], m), g[1] + Times(c[1], m), g[2] + Times(c[2], m), g[3] + Times(c[3], m)], d)
      == Dot(g, d) + Times(Dot(c, d), m)
  {
    DotReduced(g, c, d, -m);
    assert forall j :: 0 <= j < 4 ==> Times(-m, c[j]) == -Times(c[j], m);
    assert Times(-m, Dot(c, d)) == -Times(Dot(c, d), m);
  }

  /** The error after a step: the old error, twice the pull along the step, and the spread of the step. */
  lemma {:induction false} MissesAfterStep(eqs: seq<Equation>, p: Vec4, d: Vec4)
    ensures SquaredMisses(eqs, Plus(p, d)) == SquaredMisses(eqs, p) + 2.0 * Along(eqs, p, d) + Spread(eqs, d)
  {
    if eqs != [] {
      var front, e := eqs[..|eqs| - 1], eqs[|eqs| - 1];
      MissesAfterStep(front, p, d);
      DotPlus(e.c, p, d);
      SquareOfSum(Miss(e, p), Dot(e.c, d));
    }
  }

  lemma SquareOfSum(x: real, y: real)
    ensures Times(x + y, x + y) == Times(x, x) + 2.0 * Times(y, x) + Times(y, y)
  {
  }

  lemma {:induction false} SpreadIsNotNegative(eqs: seq<Equation>, d: Vec4)
    ensures Spread(eqs, d) >= 0.0
  {
    if eqs != [] {
      SpreadIsNotNegative(eqs[..|eqs| - 1], d);
      SquareNotNegative(Dot(eqs[|eqs| - 1].c, d));
    }
  }

  /** A step that spreads nothing changes no miss, so it changes no pull. */
  lemma {:induction false} NoSpreadNoPull(eqs: seq<Equation>, p: Vec4, d: Vec4, i: int)
    requires Spread(eqs, d) == 0.0 && 0 <= i < 4
    ensures Pull(eqs, Plus(p, d), i) == Pull(eqs, p, i)
  {
    if eqs != [] {
      var front, e := eqs[..|eqs| - 1], eqs[|eqs| - 1];
      var x := Dot(e.c, d);
      SpreadIsNotNegative(front, d);
      SquareNotNegative(x);
      NoSpreadNoPull(front, p, d, i);
      DotPlus(e.c, p, d);
      ZeroSquare(x);
    }
  }

  lemma ZeroSquare(x: real)
    requires Times(x, x) == 0.0
    ensures x == 0.0
  {
    if x > 0.0 {
      ProductPositive(x, x);
    } else if x < 0.0 {
      TimesNegated(x, -x);
      TimesNegated(x, x);
      ProductPositive(-x, -x);
    }
  }

  /** Parameters that solve the normal equations miss least; if nothing else solves them, everything else misses
      more. */
  lemma NormalSolutionIsBest(eqs: seq<Equation>, p: Vec4, q: Vec4)
    requires AllSolve(Normal(eqs), p)
    ensures SquaredMisses(eqs, p) <= SquaredMisses(eqs, q)
    ensures SquaredMisses(eqs, p) == SquaredMisses(eqs, q) ==> AllSolve(Normal(eqs), q)
  {
    var d := Minus(q, p);
    assert Plus(p, d) == q;
    forall i | 0 <= i < 4 ensures Pull(eqs, p, i) == 0.0 {
      assert Solves(Normal(eqs)[i], p);
      NormalMeansNoPull(eqs, p, i);
    }
    AlongIsPull(eqs, p, d);
    MissesAfterStep(eqs, p, d);
    SpreadIsNotNegative(eqs, d);
    if SquaredMisses(eqs, p) == SquaredMisses(eqs, q) {
      forall i | 0 <= i < 4 ensures Solves(Normal(eqs)[i], q) {
        NoSpreadNoPull(eqs, p, d, i);
        NormalMeansNoPull(eqs, q, i);
      }
    }
  }

  // ---------- the estimate

  /** Row-major 2x3 matrix of an affine map. */
  datatype Affine = Affine(m00: real, m01: real, m02: real, m10: real, m11: real, m12: real)

  function Mapped(m: Affine, q: Point): Point {
    Point(Times(m.m00, q.x) + Times(m.m01, q.y) + m.m02, Times(m.m10, q.x) + Times(m.m11, q.y) + m.m12)
  }

  datatype Estimate = Threw | Estimate(forward: Affine, backward: Affine, parameters: Vec4, rmse: real)

  /** a*a + b*b. */
  function Denominator(p: Vec4): real {
    Times(p[0], p[0]) + Times(p[1], p[1])
  }

  function Forward(p: Vec4): Affine {
    Affine(p[0], -p[1], p[2], p[1], p[0], p[3])
  }

  function Backward(p: Vec4): Affine
    requires Denominator(p) != 0.0
  {
    var d := Denominator(p);
    var i00, i01, i10, i11 := Over(p[0], d), Over(p[1], d), Over(-p[1], d), Over(p[0], d);
    Affine(i00, i01, -(Times(i00, p[2]) + Times(i01, p[3])), i10, i11, -(Times(i10, p[2]) + Times(i11, p[3])))
  }

  /** The quotients are cosine and sine over the scale, and undo it. */
  lemma Unscale(a: real, b: real, d: real)
    requires d == Times(a, a) + Times(b, b) && d != 0.0
    ensures Over(-b, d) == -Over(b, d)
    ensures Times(Over(a, d), a) + Times(Over(b, d), b) == 1.0
    ensures Times(Over(a, d), b) == Times(Over(b, d), a)
  {
    var e := 1.0 / d;
    assert Over(a, d) == a * e && Over(b, d) == b * e && Over(-b, d) == -(b * e);
    assert a * e * a + b * e * b == (a * a + b * b) * e;
    assert d * e == 1.0;
    assert a * e * b == b * e * a;
  }

  /** The two maps undo each other, on every point, in both orders. */
  lemma MapsAreInverse(p: Vec4, q: Point)
    requires Denominator(p) != 0.0
    ensures Mapped(Backward(p), Mapped(Forward(p), q)) == q
    ensures Mapped(Forward(p), Mapped(Backward(p), q)) == q
    ensures Mapped(Forward(p), q) == Moved(p, q)
  {
    hide Mapped, Forward, Backward, Over, Inverse, Moved, Times;
    var c, s := Over(p[0], Denominator(p)), Over(p[1], Denominator(p));
    BackwardIs(p, c, s);
    ForwardMaps(p, q);
    ForwardMaps(p, Mapped(Backward(p), q));
    BackwardUndoes(p, c, s, q);
  }

  lemma BackwardUndoes(p: Vec4, c: real, s: real, q: Point)
    requires Denominator(p) != 0.0 && c == Over(p[0], Denominator(p)) && s == Over(p[1], Denominator(p))
    ensures Mapped(Inverse(c, s, p[2], p[3]), Moved(p, q)) == q
    ensures Moved(p, Mapped(Inverse(c, s, p[2], p[3]), q)) == q
  {
    hide Mapped, Over, Inverse, Times, Moved, Undone;
    Unscale(p[0], p[1], Denominator(p));
    UndoneFirst(p, c, s, q);
    UndoneLast(p, c, s, q);
    BackwardMaps(c, s, p[2], p[3], q);
    BackwardMaps(c, s, p[2], p[3], Moved(p, q));
  }

  /** The inverse with cosine and sine over the scale. */
  function Inverse(c: real, s: real, tx: real, ty: real): Affine {
    Affine(c, s, -(c * tx + s * ty), -s, c, -(-s * tx + c * ty))
  }

  lemma BackwardIs(p: Vec4, c: real, s: real)
    requires Denominator(p) != 0.0 && c == Over(p[0], Denominator(p)) && s == Over(p[1], Denominator(p))
    ensures Backward(p) == Inverse(c, s, p[2], p[3])
  {
    Unscale(p[0], p[1], Denominator(p));
  }

  /** What the inverse does to a point. */
  function Undone(c: real, s: real, tx: real, ty: real, q: Point): Point {
    Point(c * q.x + s * q.y - (c * tx + s * ty), -s * q.x + c * q.y - (-s * tx + c * ty))
  }

  lemma BackwardMaps(c: real, s: real, tx: real, ty: real, q: Point)
    ensures Mapped(Inverse(c, s, tx, ty), q) == Undone(c, s, tx, ty, q)
  {
    var m := Inverse(c, s, tx, ty);
    assert Times(m.m00, q.x) == c * q.x && Times(m.m01, q.y) == s * q.y;
    assert Times(m.m10, q.x) == -s * q.x && Times(m.m11, q.y) == c * q.y;
  }

  lemma ForwardMaps(p: Vec4, q: Point)
    ensures Mapped(Forward(p), q) == Moved(p, q)
  {
    assert Times(-p[1], q.y) == -(p[1] * q.y);
  }

  lemma UndoneFirst(p: Vec4, c: real, s: real, q: Point)
    requires Times(c, p[0]) + Times(s, p[1]) == 1.0 && Times(c, p[1]) == Times(s, p[0])
    ensures Undone(c, s, p[2], p[3], Moved(p, q)) == q
  {
    BackX(p[0], p[1], p[2], p[3], c, s, q.x, q.y);
    BackY(p[0], p[1], p[2], p[3], c, s, q.x, q.y);
    UnitTimes(c * p[0] + s * p[1], s * p[0] - c * p[1], q.x, q.y);
    UnitTimes(s * p[1] + c * p[0], c * p[1] - s * p[0], q.y, q.x);
  }

  lemma UnitTimes(one: real, zero: real, x: real, y: real)
    requires one == 1.0 && zero == 0.0
    ensures one * x + zero * y == x
  {
  }

  lemma BackX(a: real, b: real, tx: real, ty: real, c: real, s: real, x: real, y: real)
    ensures c * (a * x - b * y + tx) + s * (b * x + a * y + ty) - (c * tx + s * ty) == (c * a + s * b) * x
      + (s * a - c * b) * y
  {
  }

  lemma BackY(a: real, b: real, tx: real, ty: real, c: real, s: real, x: real, y: real)
    ensures -s * (a * x - b * y + tx) + c * (b * x + a * y + ty) - (-s * tx + c * ty) == (s * b + c * a) * y
      + (c * b - s * a) * x
  {
  }

  lemma UndoneLast(p: Vec4, c: real, s: real, q: Point)
    requires Times(c, p[0]) + Times(s, p[1]) == 1.0 && Times(c, p[1]) == Times(s, p[0])
    ensures Moved(p, Undone(c, s, p[2], p[3], q)) == q
  {
    var u, v := q.x - p[2], q.y - p[3];
    Shifted(c, s, p[2], p[3], q.x, q.y);
    Turned(p[0], p[1], c, s, u, v);
    UnitTimes(c * p[0] + s * p[1], s * p[0] - c * p[1], u, v);
    UnitTimes(s * p[1] + c * p[0], c * p[1] - s * p[0], v, u);
  }

  lemma Shifted(c: real, s: real, tx: real, ty: real, x: real, y: real)
    ensures c * x + s * y - (c * tx + s * ty) == c * (x - tx) + s * (y - ty)
    ensures -s * x + c * y - (-s * tx + c * ty) == -s * (x - tx) + c * (y - ty)
  {
  }

  lemma Turned(a: real, b: real, c: real, s: real, u: real, v: real)
    ensures a * (c * u + s * v) - b * (-s * u + c * v) == (c * a + s * b) * u + (s * a - c * b) * v
    ensures b * (c * u + s * v) + a * (-s * u + c * v) == (s * b + c * a) * v + (c * b - s * a) * u
  {
  }

  /** One observation more, entry by entry. */
  method Accumulate(normal: array<Equation>, e: Equation)
    requires normal.Length == 4
    modifies normal
    ensures normal[..] == Accumulated(old(normal[..]), e)
  {
    hide Times;
    ghost var was := normal[..];
    for i := 0 to 4
      invariant forall k :: 0 <= k < i ==> normal[k] == AccumulatedRow(was[k], e, k)
      invariant forall k :: i <= k < 4 ==> normal[k] == was[k]
    {
      var row := normal[i];
      var c := row.c;
      for j := 0 to 4
        invariant forall k :: 0 <= k < 4 ==> c[k] == if k < j then row.c[k] + Times(e.c[i], e.c[k]) else row.c[k]
      {
        c := c[j := c[j] + Times(e.c[i], e.c[j])];
      }
      normal[i] := Equation(c, row.rhs + Times(e.c[i], e.rhs));
      assert normal[i] == AccumulatedRow(was[i], e, i);
    }
  }

  /** All observations of the landmarks, accumulated. */
  method NormalEquations(landmarks: seq<Point>) returns (normal: seq<Equation>)
    requires |landmarks| == 5
    ensures normal == Normal(Observations(landmarks, Template()))
  {
    hide AccumulatedRow;
    var sums := new Equation[4](_ => NoEquation());
    var target := Template();
    for i := 0 to 5
      invariant sums[..] == Normal(Observations(landmarks[..i], target[..i]))
    {
      var x, y := XEquation(landmarks[i], target[i]), YEquation(landmarks[i], target[i]);
      NormalGrows(landmarks, target, i);
      Accumulate(sums, x);
      Accumulate(sums, y);
    }
    assert landmarks[..5] == landmarks && target[..5] == target;
    normal := sums[..];
  }

  lemma NormalGrows(landmarks: seq<Point>, target: seq<Point>, i: nat)
    requires i < |landmarks| == |target|
    ensures Normal(Observations(landmarks[..i + 1], target[..i + 1]))
      == Accumulated(Accumulated(Normal(Observations(landmarks[..i], target[..i])), XEquation(landmarks[i], target[i])),
                     YEquation(landmarks[i], target[i]))
  {
    hide AccumulatedRow, XEquation, YEquation;
    var rest := Observations(landmarks[..i], target[..i]);
    var x, y := XEquation(landmarks[i], target[i]), YEquation(landmarks[i], target[i]);
    assert landmarks[..i + 1][..i] == landmarks[..i] && target[..i + 1][..i] == target[..i];
    assert (rest + [x] + [y])[..|rest| + 1] == rest + [x];
    assert (rest + [x])[..|rest|] == rest;
  }

  method SumOfSquares(landmarks: seq<Point>, p: Vec4) returns (sq: real)
    requires |landmarks| == 5
    ensures sq == SquaredError(landmarks, Template(), p) >= 0.0
  {
    hide SquaredDistance, Moved;
    var target := Template();
    sq := 0.0;
    for i := 0 to 5
      invariant sq == SquaredError(landmarks[..i], target[..i], p) >= 0.0
    {
      assert landmarks[..i + 1][..i] == landmarks[..i] && target[..i + 1][..i] == target[..i];
      DistanceNotNegative(Moved(p, landmarks[i]), target[i]);
      sq := sq + SquaredDistance(Moved(p, landmarks[i]), target[i]);
    }
    assert landmarks[..5] == landmarks && target[..5] == target;
  }

  lemma DistanceNotNegative(p: Point, q: Point)
    ensures SquaredDistance(p, q) >= 0.0
  {
    SquareNotNegative(p.x - q.x);
    SquareNotNegative(p.y - q.y);
  }

  /** p moves the landmarks closer to the template than any other parameters do. */
  ghost predicate Closest(landmarks: seq<Point>, p: Vec4)
    requires |landmarks| == 5
  {
    forall q: Vec4 :: q != p ==> SquaredError(landmarks, Template(), p) < SquaredError(landmarks, Template(), q)
  }

  /** The maps undo each other. */
  ghost predicate Inverses(m: Affine, n: Affine) {
    forall q: Point :: Mapped(n, Mapped(m, q)) == q && Mapped(m, Mapped(n, q)) == q
  }

  /** The normal equations of the landmarks. */
  function NormalOf(landmarks: seq<Point>): (r: seq<Equation>)
    requires |landmarks| == 5
    ensures |r| == 4
  {
    Normal(Observations(landmarks, Template()))
  }

  /** Landmarks for which the solver finds parameters, and of a usable scale. */
  predicate Usable(landmarks: seq<Point>)
    requires |landmarks| == 5
  {
    var s := Solved(NormalOf(landmarks));
    s.Solution? && Denominator(s.p) >= SMALLEST_SCALE
  }

  /** Landmarks for which the solver is exact: the coordinates do not add up to more than their squares, and not to
      something tiny that is not zero. */
  predicate RegularLandmarks(landmarks: seq<Point>) {
    Regular(SumSquares(landmarks), SumX(landmarks), SumY(landmarks))
  }

  /** Five landmarks that are not all close to one point, nor to the origin. */
  predicate SpreadOut(landmarks: seq<Point>) {
    var q := SumSquares(landmarks);
    q >= SMALLEST_PIVOT && Residual(q, SumX(landmarks), SumY(landmarks), 5.0) >= SMALLEST_PIVOT
  }

  const SMALLEST_SCALE := 0.000000000001

  lemma ResidualTimes(q: real, x: real, y: real)
    requires q > 0.0 && 5.0 * q >= Times(x, x) + Times(y, y)
    ensures Residual(q, x, y, 5.0) >= 0.0
  {
    var r := Residual(q, x, y, 5.0);
    OverTimes(x, q);
    OverTimes(y, q);
    assert r * q == 5.0 * q - Times(x, x) - Times(y, y);
    if r < 0.0 {
      ProductNegative(q, r);
    }
  }

  lemma OverTimes(x: real, q: real)
    requires q != 0.0
    ensures Times(x, Over(x, q)) * q == Times(x, x)
  {
    var z := Over(x, q);
    assert z * q == x;
    assert x * z * q == x * (z * q);
  }

  /** For regular landmarks the solver is exact, and finds a solution exactly when they are spread out. */
  lemma RegularIsExact(landmarks: seq<Point>)
    requires |landmarks| == 5 && RegularLandmarks(landmarks)
    ensures Exact(NormalOf(landmarks)) && (Solved(NormalOf(landmarks)).Solution? <==> SpreadOut(landmarks))
  {
    hide Normal, Observations, Solved, Exact, Shaped, Regular, Residual, SumX, SumY, SumSquares;
    var q, x, y := SumSquares(landmarks), SumX(landmarks), SumY(landmarks);
    NormalIsShaped(landmarks, Template(), 5);
    assert landmarks[..5] == landmarks && Template()[..5] == Template();
    RegularSystem(NormalOf(landmarks), q, x, y, 5.0);
    if q >= SMALLEST_PIVOT {
      SquaresCoverSums(landmarks);
      ResidualTimes(q, x, y);
    }
  }

  /** Landmarks a few pixels from the origin are regular unless their coordinates add up to next to nothing. */
  lemma FarIsRegular(landmarks: seq<Point>)
    requires |landmarks| == 5 && SumSquares(landmarks) >= 5.0
    ensures RegularLandmarks(landmarks)
      <==> Sizable(SumX(landmarks), SumSquares(landmarks)) && Sizable(SumY(landmarks), SumSquares(landmarks))
  {
    hide SumX, SumY, SumSquares, Sizable;
    var q, x, y := SumSquares(landmarks), SumX(landmarks), SumY(landmarks);
    SquaresCoverSums(landmarks);
    SquareNotNegative(x);
    SquareNotNegative(y);
    BoundedRoot(x, q);
    BoundedRoot(y, q);
  }

  lemma BoundedRoot(x: real, q: real)
    requires q >= 5.0 && Times(x, x) <= 5.0 * q
    ensures Abs(x) <= q
  {
    assert 5.0 * q <= q * q by {
      ProductNotNegative(q - 5.0, q);
    }
    var a := Abs(x);
    assert a * a == x * x && Times(a - q, a + q) == a * a - q * q;
    if a > q {
      ProductPositive(a - q, a + q);
    }
  }

  /** The landmarks of the template itself are regular, spread out and usable: they are brought onto themselves. */
  lemma TemplateIsUsable()
    ensures |Template()| == 5 && RegularLandmarks(Template()) && SpreadOut(Template()) && Usable(Template())
    ensures Solved(NormalOf(Template())) == Solution([1.0, 0.0, 0.0, 0.0])
  {
    hide Normal, Observations, Solved, Exact, Closest, SumX, SumY, SumSquares, SquaredError;
    TemplateSums();
    RegularIsExact(Template());
    var p, one: Vec4 := Solved(NormalOf(Template())).p, [1.0, 0.0, 0.0, 0.0];
    SolvedIsUnique(NormalOf(Template()));
    OnlySolutionIsClosest(Template(), p);
    NoErrorOnItself();
    ErrorNotNegative(Template(), Template(), p);
    if p != one {
      StrictlyCloser(Template(), p, one);
    }
  }

  lemma StrictlyCloser(landmarks: seq<Point>, p: Vec4, q: Vec4)
    requires |landmarks| == 5 && Closest(landmarks, p) && p != q
    ensures SquaredError(landmarks, Template(), p) < SquaredError(landmarks, Template(), q)
  {
    hide SquaredError;
  }

  lemma TemplateSums()
    ensures SumX(Template()) == 280.1308 && SumY(Template()) == 359.5039 && SumSquares(Template()) == 44245.31118221
    ensures RegularLandmarks(Template()) && SpreadOut(Template())
  {
    FiveSums(Template());
  }

  lemma NoErrorOnItself()
    ensures SquaredError(Template(), Template(), [1.0, 0.0, 0.0, 0.0]) == 0.0
  {
    ErrorOnItself(Template());
  }

  lemma {:induction false} ErrorOnItself(ps: seq<Point>)
    ensures SquaredError(ps, ps, [1.0, 0.0, 0.0, 0.0]) == 0.0
  {
    if ps != [] {
      ErrorOnItself(ps[..|ps| - 1]);
    }
  }

  lemma {:induction false} ErrorNotNegative(source: seq<Point>, target: seq<Point>, p: Vec4)
    requires |source| == |target|
    ensures SquaredError(source, target, p) >= 0.0
  {
    hide SquaredDistance, Moved;
    if source != [] {
      var n := |source| - 1;
      ErrorNotNegative(source[..n], target[..n], p);
      DistanceNotNegative(Moved(p, source[n]), target[n]);
    }
  }

  lemma CloserThan(landmarks: seq<Point>, p: Vec4, q: Vec4)
    requires |landmarks| == 5 && AllSolve(NormalOf(landmarks), p) && !AllSolve(NormalOf(landmarks), q)
    ensures SquaredError(landmarks, Template(), p) < SquaredError(landmarks, Template(), q)
  {
    hide Normal, SquaredError, AllSolve;
    ErrorIsMisses(landmarks, Template(), p);
    ErrorIsMisses(landmarks, Template(), q);
    NormalSolutionIsBest(Observations(landmarks, Template()), p, q);
  }

  /** Parameters that are the only solution of the normal equations are better than all others. */
  lemma OnlySolutionIsClosest(landmarks: seq<Point>, p: Vec4)
    requires |landmarks| == 5 && forall q: Vec4 :: AllSolve(NormalOf(landmarks), q) <==> q == p
    ensures Closest(landmarks, p)
  {
    hide Normal, SquaredError, AllSolve, NormalOf;
    assert AllSolve(NormalOf(landmarks), p);
    forall q: Vec4 | q != p ensures SquaredError(landmarks, Template(), p) < SquaredError(landmarks, Template(), q) {
      assert !AllSolve(NormalOf(landmarks), q);
      CloserThan(landmarks, p, q);
    }
  }

  /** For regular landmarks the transform is usable exactly when they are spread out and the best parameters are not
      almost zero in scale. */
  lemma UsableIff(landmarks: seq<Point>)
    requires |landmarks| == 5 && RegularLandmarks(landmarks)
    ensures Usable(landmarks) <==>
      SpreadOut(landmarks) && exists p: Vec4 :: Closest(landmarks, p) && Denominator(p) >= SMALLEST_SCALE
  {
    hide Normal, Solved, Exact, Closest, RegularLandmarks, SpreadOut, Denominator;
    RegularIsExact(landmarks);
    if SpreadOut(landmarks) {
      var p := Solved(NormalOf(landmarks)).p;
      SolvedIsUnique(NormalOf(landmarks));
      OnlySolutionIsClosest(landmarks, p);
      forall q: Vec4 | Closest(landmarks, q) ensures q == p {
        OneIsClosest(landmarks, p, q);
      }
    }
  }

  lemma OneIsClosest(landmarks: seq<Point>, p: Vec4, q: Vec4)
    requires |landmarks| == 5 && Closest(landmarks, p) && Closest(landmarks, q)
    ensures p == q
  {
    if p != q {
      StrictlyCloser(landmarks, p, q);
      StrictlyCloser(landmarks, q, p);
    }
  }

  // ---------- the same in terms of maps

  /** Where the landmarks should be, as published. */
  predicate Published(ps: seq<Point>) {
    ps == [Point(38.2946, 51.6963), Point(73.5318, 51.5014), Point(56.0252, 71.7366), Point(41.5493, 92.3655),
           Point(70.7299, 92.2041)]
  }

  /** The map changes all distances in one proportion and mirrors nothing. */
  ghost predicate Similarity(m: Affine) {
    && m.m00 * m.m11 - m.m01 * m.m10 >= 0.0
    && exists k: real :: Scales(m, k)
  }

  ghost predicate Scales(m: Affine, k: real) {
    forall q: Point, r: Point :: SquaredDistance(Mapped(m, q), Mapped(m, r)) == k * SquaredDistance(q, r)
  }

  /** The summed squared distances of the five mapped landmarks from their places. */
  function MapError(landmarks: seq<Point>, places: seq<Point>, m: Affine): real
    requires |landmarks| == |places| == 5
  {
    SquaredDistance(Mapped(m, landmarks[0]), places[0]) + SquaredDistance(Mapped(m, landmarks[1]), places[1])
    + SquaredDistance(Mapped(m, landmarks[2]), places[2]) + SquaredDistance(Mapped(m, landmarks[3]), places[3])
    + SquaredDistance(Mapped(m, landmarks[4]), places[4])
  }

  /** Every other similarity leaves the landmarks farther from where they should be. */
  ghost predicate ClosestSimilarity(landmarks: seq<Point>, m: Affine)
    requires |landmarks| == 5
  {
    Similarity(m) && forall places: seq<Point>, n: Affine :: Published(places) && Similarity(n) && n != m ==>
      MapError(landmarks, places, m) < MapError(landmarks, places, n)
  }

  /** The maps of the four parameters are the similarities. */
  lemma ForwardIsSimilarity(p: Vec4)
    ensures Similarity(Forward(p))
  {
    var m := Forward(p);
    assert m.m00 * m.m11 - m.m01 * m.m10 == p[0] * p[0] + p[1] * p[1];
    SquareNotNegative(p[0]);
    SquareNotNegative(p[1]);
    forall q: Point, r: Point
      ensures SquaredDistance(Mapped(m, q), Mapped(m, r)) == (p[0] * p[0] + p[1] * p[1]) * SquaredDistance(q, r)
    {
      ForwardMaps(p, q);
      ForwardMaps(p, r);
      MovedDistance(p[0], p[1], q.x - r.x, q.y - r.y);
      var a, b := Moved(p, q), Moved(p, r);
      assert a.x - b.x == p[0] * (q.x - r.x) - p[1] * (q.y - r.y);
      assert a.y - b.y == p[1] * (q.x - r.x) + p[0] * (q.y - r.y);
    }
    assert Scales(m, p[0] * p[0] + p[1] * p[1]);
  }

  lemma MovedDistance(a: real, b: real, u: real, v: real)
    ensures (a * u - b * v) * (a * u - b * v) + (b * u + a * v) * (b * u + a * v) == (a * a + b * b) * (u * u + v * v)
  {
    var aa, bb, uu, vv := a * a, b * b, u * u, v * v;
    assert (a * u) * (a * u) == aa * uu && (b * v) * (b * v) == bb * vv;
    assert (b * u) * (b * u) == bb * uu && (a * v) * (a * v) == aa * vv;
    assert (a * u) * (b * v) == (b * u) * (a * v);
    BinomialSquares(a * u, b * v, b * u, a * v);
  }

  lemma BinomialSquares(e: real, f: real, g: real, h: real)
    requires e * f == g * h
    ensures (e - f) * (e - f) + (g + h) * (g + h) == e * e + f * f + g * g + h * h
  {
  }

  lemma SimilarityIsForward(m: Affine)
    requires Similarity(m)
    ensures m == Forward([m.m00, m.m10, m.m02, m.m12])
  {
    var k: real :| Scales(m, k);
    var a, b, c, d := m.m00, m.m01, m.m10, m.m11;
    UnitDistances(m, k);
    var det := a * d - b * c;
    Lagrange(a, b, c, d, k);
    RootIsUnique(det, k);
    assert (a - d) * (a - d) + (b + c) * (b + c) == (a * a + c * c) + (b * b + d * d) - 2.0 * det;
    SquareNotNegative(a - d);
    SquareNotNegative(b + c);
    ZeroSquare(a - d);
    ZeroSquare(b + c);
  }

  lemma UnitDistances(m: Affine, k: real)
    requires Scales(m, k)
    ensures m.m00 * m.m00 + m.m10 * m.m10 == k && m.m01 * m.m01 + m.m11 * m.m11 == k
    ensures m.m00 * m.m01 + m.m10 * m.m11 == 0.0
  {
    ScaledFromOrigin(m, k, 1.0, 0.0);
    ScaledFromOrigin(m, k, 0.0, 1.0);
    ScaledFromOrigin(m, k, 1.0, 1.0);
    SumSquare(m.m00, m.m01);
    SumSquare(m.m10, m.m11);
  }

  lemma ScaledFromOrigin(m: Affine, k: real, x: real, y: real)
    requires Scales(m, k)
    ensures var u, v := m.m00 * x + m.m01 * y, m.m10 * x + m.m11 * y; u * u + v * v == k * (x * x + y * y)
  {
    var o, q := Point(0.0, 0.0), Point(x, y);
    DistanceFromOrigin(m, x, y);
    FromOrigin(x, y);
    hide SquaredDistance, Mapped;
    assert SquaredDistance(Mapped(m, q), Mapped(m, o)) == k * SquaredDistance(q, o);
  }

  lemma FromOrigin(x: real, y: real)
    ensures SquaredDistance(Point(x, y), Point(0.0, 0.0)) == x * x + y * y
  {
  }

  lemma DistanceFromOrigin(m: Affine, x: real, y: real)
    ensures var u, v := m.m00 * x + m.m01 * y, m.m10 * x + m.m11 * y;
      SquaredDistance(Mapped(m, Point(x, y)), Mapped(m, Point(0.0, 0.0))) == u * u + v * v
  {
    assert Times(m.m00, 0.0) == 0.0 && Times(m.m01, 0.0) == 0.0 && Times(m.m10, 0.0) == 0.0 && Times(m.m11, 0.0) == 0.0;
  }

  lemma SumSquare(a: real, b: real)
    ensures (a + b) * (a + b) == a * a + 2.0 * (a * b) + b * b
  {
  }

  lemma Lagrange(a: real, b: real, c: real, d: real, k: real)
    requires a * a + c * c == k && b * b + d * d == k && a * b + c * d == 0.0
    ensures (a * d - b * c) * (a * d - b * c) == k * k
  {
    var aa, bb, cc, dd := a * a, b * b, c * c, d * d;
    assert (a * d) * (a * d) == aa * dd && (b * c) * (b * c) == bb * cc;
    assert (a * b) * (a * b) == aa * bb && (c * d) * (c * d) == cc * dd;
    assert (a * d) * (b * c) == (a * b) * (c * d);
    SumSquare(a * d, -(b * c));
    SumSquare(a * b, c * d);
    assert (aa + cc) * (bb + dd) == aa * bb + aa * dd + cc * bb + cc * dd;
  }

  lemma RootIsUnique(x: real, k: real)
    requires x >= 0.0 && k >= 0.0 && x * x == k * k
    ensures x == k
  {
    assert Times(x - k, x + k) == x * x - k * k;
    if x > k {
      ProductPositive(x - k, x + k);
    } else if x < k {
      assert Times(k - x, x + k) == k * k - x * x;
      ProductPositive(k - x, x + k);
    }
  }

  lemma ErrorIsMapError(landmarks: seq<Point>, p: Vec4)
    requires |landmarks| == 5
    ensures Published(Template()) && SquaredError(landmarks, Template(), p)
      == MapError(landmarks, Template(), Forward(p))
  {
    hide SquaredDistance, Moved, Mapped, Forward, Template;
    var t := Template();
    TemplateIsPublished();
    forall i | 0 <= i < 5 ensures Mapped(Forward(p), landmarks[i]) == Moved(p, landmarks[i]) {
      ForwardMaps(p, landmarks[i]);
    }
    ErrorGrows(landmarks, t, p, 4);
    ErrorGrows(landmarks, t, p, 3);
    ErrorGrows(landmarks, t, p, 2);
    ErrorGrows(landmarks, t, p, 1);
    ErrorGrows(landmarks, t, p, 0);
    assert landmarks[..5] == landmarks && t[..5] == t;
    assert SquaredError(landmarks[..0], t[..0], p) == 0.0;
  }

  lemma TemplateIsPublished()
    ensures Published(Template())
  {
  }

  lemma ErrorGrows(source: seq<Point>, target: seq<Point>, p: Vec4, n: nat)
    requires n < |source| == |target|
    ensures SquaredError(source[..n + 1], target[..n + 1], p)
         == SquaredError(source[..n], target[..n], p) + SquaredDistance(Moved(p, source[n]), target[n])
  {
    hide SquaredDistance, Moved;
    assert source[..n + 1][..n] == source[..n] && target[..n + 1][..n] == target[..n];
  }

  /** The best parameters give the best similarity. */
  lemma ClosestIsClosestSimilarity(landmarks: seq<Point>, p: Vec4)
    requires |landmarks| == 5 && Closest(landmarks, p)
    ensures ClosestSimilarity(landmarks, Forward(p))
  {
    hide Similarity, MapError, SquaredError, Template, Closest;
    ForwardIsSimilarity(p);
    ErrorIsMapError(landmarks, p);
    forall places: seq<Point>, n: Affine | Published(places) && Similarity(n) && n != Forward(p)
      ensures MapError(landmarks, places, Forward(p)) < MapError(landmarks, places, n)
    {
      SimilarityIsForward(n);
      var q: Vec4 := [n.m00, n.m10, n.m02, n.m12];
      ErrorIsMapError(landmarks, q);
      StrictlyCloser(landmarks, p, q);
    }
  }

  /** The published landmarks themselves are brought onto themselves: the best map moves nothing. */
  lemma PublishedStayInPlace(ps: seq<Point>)
    requires Published(ps)
    ensures Solved(NormalOf(ps)) == Solution([1.0, 0.0, 0.0, 0.0])
    ensures var m := Affine(1.0, 0.0, 0.0, 0.0, 1.0, 0.0);
      ClosestSimilarity(ps, m) && MapError(ps, ps, m) == 0.0 && forall q: Point :: Mapped(m, q) == q
  {
    hide Normal, Observations, Solved, Exact, Closest, SumX, SumY, SumSquares, SquaredError, ClosestSimilarity,
         MapError;
    var one: Vec4 := [1.0, 0.0, 0.0, 0.0];
    TemplateIsUsable();
    assert ps == Template();
    TemplateSums();
    RegularIsExact(Template());
    SolvedIsUnique(NormalOf(Template()));
    OnlySolutionIsClosest(Template(), one);
    ClosestIsClosestSimilarity(Template(), one);
    ErrorIsMapError(ps, one);
    NoErrorOnItself();
    forall q: Point ensures Mapped(Affine(1.0, 0.0, 0.0, 0.0, 1.0, 0.0), q) == q {
      ForwardMaps(one, q);
    }
  }

  /** The transform for the landmarks. */
  method EstimateTransform(landmarks: seq<Point>, width: nat, height: nat, root: real -> real) returns (r: Estimate)
    requires |landmarks| == 5 && IsRoot(root)
    ensures r.Threw? <==> width != 112 || height != 112 || !Usable(landmarks)
    ensures r.Estimate? ==> Solved(NormalOf(landmarks)) == Solution(r.parameters)
    ensures r.Estimate? ==> r.forward == Forward(r.parameters) && Inverses(r.forward, r.backward)
    ensures r.Estimate? && Exact(NormalOf(landmarks)) ==> Closest(landmarks, r.parameters)
    ensures r.Estimate? && RegularLandmarks(landmarks) ==> Closest(landmarks, r.parameters)
    ensures r.Estimate? && RegularLandmarks(landmarks) ==> ClosestSimilarity(landmarks, r.forward)
    ensures RegularLandmarks(landmarks) && width == height == 112 ==>
      (r.Estimate? <==>
         SpreadOut(landmarks) && exists p: Vec4 :: Closest(landmarks, p) && Denominator(p) >= SMALLEST_SCALE)
    ensures r.Estimate? ==>
      r.rmse >= 0.0 && 5.0 * (r.rmse * r.rmse) == SquaredError(landmarks, Template(), r.parameters)
  {
    hide Normal, SquaredError, AllSolve, Denominator, Backward, Forward, Exact, Solved, Closest, RegularLandmarks,
         SpreadOut, ClosestSimilarity;
    if width != 112 || height != 112 {
      return Threw;
    }
    if RegularLandmarks(landmarks) {
      RegularIsExact(landmarks);
      UsableIff(landmarks);
    }
    var normal := NormalEquations(landmarks);
    var solution := Solve4(normal);
    if solution.Degenerate? {
      return Threw;
    }
    var p := solution.p;
    if Denominator(p) < SMALLEST_SCALE {
      return Threw;
    }
    var sq := SumOfSquares(landmarks, p);
    r := Estimate(Forward(p), Backward(p), p, root(sq / 5.0));
    forall q: Point ensures Mapped(r.backward, Mapped(r.forward, q)) == q
      && Mapped(r.forward, Mapped(r.backward, q)) == q {
      MapsAreInverse(p, q);
    }
    if Exact(normal) {
      OnlySolutionIsClosest(landmarks, p);
      ClosestIsClosestSimilarity(landmarks, p);
    }
  }
}
