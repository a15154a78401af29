/** Inner products, lengths, and vectors of length one. */
module UnitVectors {
  import opened RealArithmetic
  import opened Sums

  function Dot(a: seq<real>, b: seq<real>): real
    requires |a| == |b|
  {
    if a == [] then 0.0 else Dot(a[..|a| - 1], b[..|b| - 1]) + a[|a| - 1] * b[|b| - 1]
  }

  function Scaled(a: seq<real>, f: real): (r: seq<real>)
    ensures |r| == |a|
  {
    seq(|a|, i requires 0 <= i < |a| => a[i] * f)
  }

  lemma ScaledFront(a: seq<real>, f: real, n: nat)
    requires n <= |a|
    ensures Scaled(a, f)[..n] == Scaled(a[..n], f)
  {
    var front, all := Scaled(a[..n], f), Scaled(a, f)[..n];
    assert |front| == |all|;
    forall i | 0 <= i < n ensures front[i] == all[i] {
      assert a[..n][i] == a[i];
    }
  }

  lemma {:induction false} DotScales(a: seq<real>, b: seq<real>, f: real)
    requires |a| == |b|
    ensures Dot(Scaled(a, f), b) == f * Dot(a, b) && Dot(b, Scaled(a, f)) == f * Dot(b, a)
  {
    if a != [] {
      var n := |a| - 1;
      DotScales(a[..n], b[..n], f);
      ScaledFront(a, f, n);
      assert a[n] * f * b[n] == f * (a[n] * b[n]);
      assert b[n] * (a[n] * f) == f * (b[n] * a[n]);
    }
  }

  lemma {:induction false} SquareIsNonNegative(a: seq<real>)
    ensures Dot(a, a) >= 0.0
  {
    if a != [] {
      SquareIsNonNegative(a[..|a| - 1]);
    }
  }

  lemma {:induction false} DotBetween(a: seq<real>, b: seq<real>)
    requires |a| == |b|
    ensures -(Dot(a, a) + Dot(b, b)) <= 2.0 * Dot(a, b) <= Dot(a, a) + Dot(b, b)
  {
    if a != [] {
      var n := |a| - 1;
      DotBetween(a[..n], b[..n]);
      var x, y := a[n], b[n];
      SquareNotNegative(x - y);
      SquareNotNegative(x + y);
      assert (x - y) * (x - y) == x * x - 2.0 * (x * y) + y * y;
      assert (x + y) * (x + y) == x * x + 2.0 * (x * y) + y * y;
    }
  }

  function Norm(a: seq<real>, root: real -> real): real {
    root(Dot(a, a))
  }

  /** Shorter vectors have no direction. */
  const SMALLEST_NORM := 0.000000000001

  function Unit(a: seq<real>, root: real -> real): (u: seq<real>)
    requires Norm(a, root) >= SMALLEST_NORM
    ensures |u| == |a|
  {
    Scaled(a, 1.0 / Norm(a, root))
  }

  lemma UnitHasLengthOne(a: seq<real>, root: real -> real)
    requires IsRoot(root) && Norm(a, root) >= SMALLEST_NORM
    ensures Dot(Unit(a, root), Unit(a, root)) == 1.0
  {
    var n, f := Norm(a, root), 1.0 / Norm(a, root);
    SquareIsNonNegative(a);
    DotScales(a, a, f);
    DotScales(a, Unit(a, root), f);
    assert Dot(Unit(a, root), Unit(a, root)) == f * (f * Dot(a, a));
    assert f * n == 1.0;
    assert f * (f * (n * n)) == (f * n) * (f * n);
  }

  lemma RootOfOne(root: real -> real)
    requires IsRoot(root)
    ensures root(1.0) == 1.0
  {
    var r := root(1.0);
    assert r >= 0.0 && r * r == 1.0;
    assert Times(r - 1.0, r + 1.0) == r * r - 1.0 && Times(1.0 - r, 1.0 + r) == 1.0 - r * r;
    if r > 1.0 {
      ProductPositive(r - 1.0, r + 1.0);
    } else if r < 1.0 {
      ProductPositive(1.0 - r, 1.0 + r);
    }
  }

  /** Normalising a second time changes nothing. */
  lemma UnitOfUnit(a: seq<real>, root: real -> real)
    requires IsRoot(root) && Norm(a, root) >= SMALLEST_NORM
    ensures Norm(Unit(a, root), root) == 1.0 && Unit(Unit(a, root), root) == Unit(a, root)
  {
    var u := Unit(a, root);
    UnitHasLengthOne(a, root);
    RootOfOne(root);
    hide Dot;
    assert forall i :: 0 <= i < |u| ==> u[i] * (1.0 / 1.0) == u[i];
    assert Unit(u, root) == u;
  }

  function SquaredDifferences(a: seq<real>, b: seq<real>): (r: seq<real>)
    requires |a| == |b|
    ensures |r| == |a|
  {
    seq(|a|, i requires 0 <= i < |a| => (a[i] - b[i]) * (a[i] - b[i]))
  }

  lemma DifferencesFront(a: seq<real>, b: seq<real>, n: nat)
    requires |a| == |b| && n <= |a|
    ensures SquaredDifferences(a, b)[..n] == SquaredDifferences(a[..n], b[..n])
  {
    var front, all := SquaredDifferences(a[..n], b[..n]), SquaredDifferences(a, b)[..n];
    forall i | 0 <= i < n ensures front[i] == all[i] {
      assert a[..n][i] == a[i] && b[..n][i] == b[i];
    }
  }

  /** The squared distance of two points. */
  function SquaredDistance(a: seq<real>, b: seq<real>): real
    requires |a| == |b|
  {
    Sum(SquaredDifferences(a, b))
  }

  /** Inner products in terms of distances: the nearer, the larger. */
  lemma {:induction false} DistanceAndDot(a: seq<real>, b: seq<real>)
    requires |a| == |b|
    ensures SquaredDistance(a, b) == Dot(a, a) - 2.0 * Dot(a, b) + Dot(b, b)
  {
    if a != [] {
      var n := |a| - 1;
      DistanceAndDot(a[..n], b[..n]);
      DifferencesFront(a, b, n);
      var x, y := a[n], b[n];
      assert (x - y) * (x - y) == x * x - 2.0 * (x * y) + y * y;
    }
  }

  /** The length of a vector is its distance from the origin. */
  lemma DotWithItself(a: seq<real>, origin: seq<real>)
    requires |origin| == |a| && forall i :: 0 <= i < |a| ==> origin[i] == 0.0
    ensures Dot(a, a) == SquaredDistance(a, origin)
  {
    DistanceAndDot(a, origin);
    DotWithOrigin(a, origin);
    DotWithOrigin(origin, origin);
  }

  lemma {:induction false} DotWithOrigin(a: seq<real>, origin: seq<real>)
    requires |origin| == |a| && forall i :: 0 <= i < |a| ==> origin[i] == 0.0
    ensures Dot(a, origin) == 0.0
  {
    if a != [] {
      var n := |a| - 1;
      DotWithOrigin(a[..n], origin[..n]);
    }
  }

  /** Normalising keeps the direction: the unit vector times the length is the vector, and the length is the distance
      from the origin. */
  lemma UnitKeepsDirection(a: seq<real>, origin: seq<real>, root: real -> real)
    requires |origin| == |a| && forall i :: 0 <= i < |a| ==> origin[i] == 0.0
    requires IsRoot(root) && Norm(a, root) >= SMALLEST_NORM
    ensures forall i :: 0 <= i < |a| ==> Unit(a, root)[i] * Norm(a, root) == a[i]
    ensures Norm(a, root) * Norm(a, root) == SquaredDistance(a, origin)
  {
    SquareIsNonNegative(a);
    DotWithItself(a, origin);
    hide Dot, SquaredDistance;
    var n := Norm(a, root);
    forall i | 0 <= i < |a| ensures Unit(a, root)[i] * n == a[i] {
      assert a[i] * (1.0 / n) * n == a[i] * ((1.0 / n) * n);
    }
  }
}
