/** Vectors of four numbers and their inner product. */
module Vectors {
  import opened RealArithmetic

  type Vec4 = v: seq<real> | |v| == 4 witness [0.0, 0.0, 0.0, 0.0]

  function Dot(p: Vec4, q: Vec4): real {
    p[0] * q[0] + p[1] * q[1] + p[2] * q[2] + p[3] * q[3]
  }

  ghost function SwapAt(p: Vec4, i: int, j: int): Vec4
    requires 0 <= i < 4 && 0 <= j < 4
  {
    p[i := p[j]][j := p[i]]
  }

  lemma DotSwap(p: Vec4, q: Vec4, i: int, j: int)
    requires 0 <= i < 4 && 0 <= j < 4
    ensures Dot(SwapAt(p, i, j), SwapAt(q, i, j)) == Dot(p, q)
  {
  }

  ghost function ScaleAt(p: Vec4, i: int, d: real): Vec4
    requires 0 <= i < 4
  {
    p[i := Times(p[i], d)]
  }

  ghost function DivideAt(p: Vec4, i: int, d: real): Vec4
    requires 0 <= i < 4 && d != 0.0
  {
    p[i := Over(p[i], d)]
  }

  ghost function AddAt(p: Vec4, i: int, k: int, x: real): Vec4
    requires 0 <= i < 4 && 0 <= k < 4
  {
    p[k := p[k] + Times(x, p[i])]
  }

  ghost function SubtractAt(p: Vec4, i: int, k: int, x: real): Vec4
    requires 0 <= i < 4 && 0 <= k < 4
  {
    p[i := p[i] - Times(x, p[k])]
  }

  lemma DotRescale(p: Vec4, q: Vec4, i: int, d: real)
    requires 0 <= i < 4 && d != 0.0
    ensures Dot(ScaleAt(p, i, d), DivideAt(q, i, d)) == Dot(p, q)
  {
    var y := q[i] / d;
    assert y * d == q[i];
    assert (p[i] * d) * y == p[i] * q[i];
  }

  lemma DotTransfer(p: Vec4, q: Vec4, i: int, k: int, x: real)
    requires 0 <= i < 4 && 0 <= k < 4 && i != k
    ensures Dot(AddAt(p, i, k, x), SubtractAt(q, i, k, x)) == Dot(p, q)
  {
    assert p[i] * (q[i] - x * q[k]) + (p[k] + x * p[i]) * q[k] == p[i] * q[i] + p[k] * q[k];
  }

  lemma DotDivided(p: Vec4, q: Vec4, d: real)
    requires d != 0.0
    ensures Dot([Over(p[0], d), Over(p[1], d), Over(p[2], d), Over(p[3], d)], q) == Over(Dot(p, q), d)
  {
    var e := 1.0 / d;
    assert p[0] / d == p[0] * e && p[1] / d == p[1] * e && p[2] / d == p[2] * e && p[3] / d == p[3] * e;
    assert (p[0] * q[0] + p[1] * q[1] + p[2] * q[2] + p[3] * q[3]) / d
        == (p[0] * q[0] + p[1] * q[1] + p[2] * q[2] + p[3] * q[3]) * e;
  }

  lemma DotReduced(p: Vec4, z: Vec4, q: Vec4, x: real)
    ensures Dot([p[0] - Times(x, z[0]), p[1] - Times(x, z[1]), p[2] - Times(x, z[2]), p[3] - Times(x, z[3])], q)
         == Dot(p, q) - Times(x, Dot(z, q))
  {
  }

  function Delta(r: int, c: int): real {
    if r == c then 1.0 else 0.0
  }

  lemma DotUnit(p: Vec4, c: int)
    requires 0 <= c < 4
    ensures Dot(p, [Delta(0, c), Delta(1, c), Delta(2, c), Delta(3, c)]) == p[c]
    ensures Dot([Delta(c, 0), Delta(c, 1), Delta(c, 2), Delta(c, 3)], p) == p[c]
  {
  }

  /** The first entry from n on and before m of the largest absolute value. */
  function FirstLargest(v: Vec4, n: nat, m: nat): (p: nat)
    requires n < m <= 4
    ensures n <= p < m
    ensures forall r :: n <= r < m ==> Abs(v[r]) <= Abs(v[p])
    ensures forall r :: n <= r < p ==> Abs(v[r]) < Abs(v[p])
  {
    if m == n + 1 then n else
    var p := FirstLargest(v, n, m - 1);
    if Abs(v[m - 1]) > Abs(v[p]) then m - 1 else p
  }
}
