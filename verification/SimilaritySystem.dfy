/** The normal equations of a similarity transform, whatever the points: how elimination goes through them. */
module SimilaritySystem {
  import opened RealArithmetic
  import opened Vectors
  import opened LinearSolve

  /** The shape of the system: the summed squares q of the coordinates, their sums x and y, and the number n of
      points. */
  predicate Shaped(s: seq<Equation>, q: real, x: real, y: real, n: real) {
    && |s| == 4
    && s[0].c == [q, 0.0, x, y]
    && s[1].c == [0.0, q, -y, x]
    && s[2].c == [x, -y, n, 0.0]
    && s[3].c == [y, x, 0.0, n]
  }

  /** Zero, or not small next to q. */
  predicate Sizable(x: real, q: real) {
    x == 0.0 || Abs(x) >= Times(SKIPPED, Max(1.0, q))
  }

  predicate Regular(q: real, x: real, y: real) {
    Abs(x) <= q && Abs(y) <= q && Sizable(x, q) && Sizable(y, q)
  }

  /** What is left for the last two pivots. */
  function Residual(q: real, x: real, y: real, n: real): real
    requires q != 0.0
  {
    n - Times(x, Over(x, q)) - Times(y, Over(y, q))
  }

  lemma SizableIsSized(x: real, q: real)
    requires q > 0.0
    ensures Sizable(x, q) <==> Sized(x) && Sized(Over(x, q))
  {
    var z := Over(x, q);
    assert x == Times(z, q);
    if x >= 0.0 {
      SizedFactor(z, q);
    } else {
      SizedFactor(-z, q);
    }
  }

  lemma SizedFactor(z: real, q: real)
    requires q > 0.0 && Times(z, q) >= 0.0
    ensures z >= 0.0 && (z == 0.0 <==> Times(z, q) == 0.0)
    ensures z >= SKIPPED <==> Times(z, q) >= Times(SKIPPED, q)
  {
    if z < 0.0 {
      ProductNegative(q, z);
    }
    if z > 0.0 {
      ProductPositive(z, q);
    }
    var w := z - SKIPPED;
    assert Times(w, q) == Times(z, q) - Times(SKIPPED, q);
    if w < 0.0 {
      ProductNegative(q, w);
    } else {
      ProductNotNegative(w, q);
    }
  }

  // ---------- the columns one by one

  predicate AfterOne(s: seq<Equation>, q: real, x: real, y: real, n: real)
    requires q != 0.0
  {
    var u, v := Over(x, q), Over(y, q);
    && |s| == 4
    && s[0].c == [1.0, 0.0, u, v]
    && s[1].c == [0.0, q, -y, x]
    && s[2].c == [0.0, -y, n - Times(x, u), -Times(x, v)]
    && s[3].c == [0.0, x, -Times(y, u), n - Times(y, v)]
  }

  predicate AfterTwo(s: seq<Equation>, u: real, v: real, d: real) {
    && |s| == 4
    && s[0].c == [1.0, 0.0, u, v]
    && s[1].c == [0.0, 1.0, -v, u]
    && s[2].c == [0.0, 0.0, d, 0.0]
    && s[3].c == [0.0, 0.0, 0.0, d]
  }

  predicate AfterThree(s: seq<Equation>, u: real, v: real, d: real) {
    && |s| == 4
    && s[0].c == [1.0, 0.0, 0.0, v]
    && s[1].c == [0.0, 1.0, 0.0, u]
    && s[2].c == [0.0, 0.0, 1.0, 0.0]
    && s[3].c == [0.0, 0.0, 0.0, d]
  }

  lemma OverEntries(d: real, y: real)
    requires d != 0.0
    ensures Over(d, d) == 1.0 && Over(0.0, d) == 0.0 && Over(-y, d) == -Over(y, d)
  {
    OverItself(d);
    OverNegated(y, d);
  }

  lemma OverNegated(y: real, d: real)
    requires d != 0.0
    ensures Over(-y, d) == -Over(y, d)
  {
    var e := 1.0 / d;
    assert y / d == y * e && (-y) / d == (-y) * e;
  }

  lemma TimesEntries(x: real, v: real)
    ensures Times(x, 1.0) == x && Times(x, 0.0) == 0.0 && Times(x, -v) == -Times(x, v)
  {
  }

  lemma FirstColumn(s: seq<Equation>, q: real, x: real, y: real, n: real)
    requires Shaped(s, q, x, y, n) && Abs(x) <= q && Abs(y) <= q && Sized(x) && Sized(y) && q >= SMALLEST_PIVOT
    ensures ExactAt(s, 0) && OneColumn(s, 0).System? && AfterOne(OneColumn(s, 0).rows, q, x, y, n)
  {
    hide Normed, Reduced, Times, Over, OneColumn, ExactAt;
    assert Times(0.0, Over(x, q)) == 0.0 && Times(0.0, Over(y, q)) == 0.0 by {
      SecondEntries(q, x, y);
    }
    PlainColumn(s, 0);
    FirstPivotRow(q, x, y);
    FirstRow([0.0, q, -y, x], q, x, y);
    FirstRow([x, -y, n, 0.0], q, x, y);
    FirstRow([y, x, 0.0, n], q, x, y);
  }

  lemma FirstPivotRow(q: real, x: real, y: real)
    requires q != 0.0
    ensures Normed([q, 0.0, x, y], 0) == [1.0, 0.0, Over(x, q), Over(y, q)]
  {
    hide Over;
    OverEntries(q, y);
  }

  lemma FirstRow(c: Vec4, q: real, x: real, y: real)
    requires q != 0.0
    ensures Reduced(c, [q, 0.0, x, y], 0)
      == [0.0, c[1], c[2] - Times(c[0], Over(x, q)), c[3] - Times(c[0], Over(y, q))]
  {
    hide Times, Over;
    OverEntries(q, y);
    TimesEntries(c[0], 0.0);
  }

  lemma SecondColumn(s: seq<Equation>, q: real, x: real, y: real, n: real)
    requires q != 0.0 && AfterOne(s, q, x, y, n) && Abs(x) <= q && Abs(y) <= q && Sized(x) && Sized(y)
      && q >= SMALLEST_PIVOT
    ensures ExactAt(s, 1) && OneColumn(s, 1).System?
    ensures AfterTwo(OneColumn(s, 1).rows, Over(x, q), Over(y, q), Residual(q, x, y, n))
  {
    hide Times, Over, Normed, Reduced, OneColumn, ExactAt;
    PlainColumn(s, 1);
    SecondPivotRow(q, x, y);
    SecondRow(s[0].c, q, x, y);
    SecondRow(s[2].c, q, x, y);
    SecondRow(s[3].c, q, x, y);
    SecondEntries(q, x, y);
  }

  lemma SecondPivotRow(q: real, x: real, y: real)
    requires q != 0.0
    ensures Normed([0.0, q, -y, x], 1) == [0.0, 1.0, -Over(y, q), Over(x, q)]
  {
    hide Over;
    OverEntries(q, y);
  }

  lemma SecondRow(c: Vec4, q: real, x: real, y: real)
    requires q != 0.0
    ensures Reduced(c, [0.0, q, -y, x], 1)
      == [c[0], 0.0, c[2] + Times(c[1], Over(y, q)), c[3] - Times(c[1], Over(x, q))]
  {
    hide Times, Over;
    OverEntries(q, y);
    TimesEntries(c[1], Over(y, q));
  }

  lemma SecondEntries(q: real, x: real, y: real)
    requires q != 0.0
    ensures var u, v := Over(x, q), Over(y, q);
      && Times(0.0, u) == 0.0 && Times(0.0, v) == 0.0
      && Times(-y, v) == -Times(y, v) && Times(-y, u) == -Times(x, v) && Times(x, v) == Times(y, u)
  {
    var u, v := Over(x, q), Over(y, q);
    var e := 1.0 / q;
    assert u == x * e && v == y * e;
    assert x * v == y * u;
  }

  lemma ThirdColumn(s: seq<Equation>, u: real, v: real, d: real)
    requires AfterTwo(s, u, v, d) && Abs(d) >= SMALLEST_PIVOT && Sized(u) && Sized(v)
    ensures ExactAt(s, 2) && OneColumn(s, 2).System? && AfterThree(OneColumn(s, 2).rows, u, v, d)
  {
    hide Times, Over, Normed, Reduced;
    SizedNegated(v);
    PlainColumn(s, 2);
    ThirdPivotRow(d);
    ThirdRow(s[0].c, d);
    ThirdRow(s[1].c, d);
    ThirdRow(s[3].c, d);
  }

  lemma ThirdPivotRow(d: real)
    requires d != 0.0
    ensures Normed([0.0, 0.0, d, 0.0], 2) == [0.0, 0.0, 1.0, 0.0]
  {
    hide Over;
    OverEntries(d, 0.0);
  }

  lemma ThirdRow(c: Vec4, d: real)
    requires d != 0.0
    ensures Reduced(c, [0.0, 0.0, d, 0.0], 2) == [c[0], c[1], 0.0, c[3]]
  {
    hide Times, Over;
    OverEntries(d, 0.0);
    TimesEntries(c[2], 0.0);
  }

  lemma FourthColumn(s: seq<Equation>, u: real, v: real, d: real)
    requires AfterThree(s, u, v, d) && Abs(d) >= SMALLEST_PIVOT && Sized(u) && Sized(v)
    ensures ExactAt(s, 3) && OneColumn(s, 3).System?
  {
    PlainColumn(s, 3);
  }

  // ---------- the whole system

  /** With no point pair of coordinates summing up to more than the squares, elimination meets its pivots in place: it
      is exact unless a sum is small and not zero, and it fails only for squares or a residual below the pivot limit. */
  lemma RegularSystem(s: seq<Equation>, q: real, x: real, y: real, n: real)
    requires |s| == 4 && Shaped(s, q, x, y, n) && Regular(q, x, y)
    ensures Exact(s)
    ensures Solved(s).Solution? <==> q >= SMALLEST_PIVOT && Abs(Residual(q, x, y, n)) >= SMALLEST_PIVOT
  {
    hide Shaped, AfterOne, AfterTwo, AfterThree, OneColumn, ExactAt, Sized, Sizable, Residual, Over;
    if q < SMALLEST_PIVOT {
      StuckAtFirst(s, q, x, y, n);
      return;
    }
    SizableIsSized(x, q);
    SizableIsSized(y, q);
    var u, v, d := Over(x, q), Over(y, q), Residual(q, x, y, n);
    FirstTwo(s, q, x, y, n);
    var two := Eliminated(s, 2).rows;
    if Abs(d) < SMALLEST_PIVOT {
      StuckAtThird(s, two, u, v, d);
    } else {
      LastTwo(s, two, u, v, d);
    }
  }

  lemma StuckAtFirst(s: seq<Equation>, q: real, x: real, y: real, n: real)
    requires Shaped(s, q, x, y, n) && Abs(x) <= q && Abs(y) <= q && q < SMALLEST_PIVOT
    ensures Exact(s) && Solved(s).Degenerate?
  {
    hide OneColumn, ExactAt;
    NoPivot(s, 0);
    NextColumn(s, 0, s);
    StuckFrom(s, 1);
  }

  lemma StuckFrom(s: seq<Equation>, n: nat)
    requires |s| == 4 && n <= 4 && Eliminated(s, n).Stuck? && ExactTo(s, n)
    ensures Exact(s) && Solved(s).Degenerate?
  {
    hide OneColumn, ExactAt, Eliminated;
    forall m: nat | n <= m <= 4 ensures Eliminated(s, m).Stuck? {
      StuckStays(s, n, m);
    }
  }

  lemma FirstTwo(s: seq<Equation>, q: real, x: real, y: real, n: real)
    requires |s| == 4 && Shaped(s, q, x, y, n) && Abs(x) <= q && Abs(y) <= q && Sized(x) && Sized(y)
      && q >= SMALLEST_PIVOT
    ensures ExactTo(s, 2) && Eliminated(s, 2).System?
    ensures AfterTwo(Eliminated(s, 2).rows, Over(x, q), Over(y, q), Residual(q, x, y, n))
  {
    hide Shaped, AfterOne, AfterTwo, OneColumn, ExactAt, Sized, Residual, Over;
    FirstColumn(s, q, x, y, n);
    NextColumn(s, 0, s);
    var t := OneColumn(s, 0).rows;
    SecondColumn(t, q, x, y, n);
    NextColumn(s, 1, t);
  }

  lemma StuckAtThird(s: seq<Equation>, two: seq<Equation>, u: real, v: real, d: real)
    requires |s| == 4 && Eliminated(s, 2) == System(two) && ExactTo(s, 2) && AfterTwo(two, u, v, d)
      && Abs(d) < SMALLEST_PIVOT
    ensures Exact(s) && Solved(s).Degenerate?
  {
    hide OneColumn, ExactAt, ExactTo, Eliminated;
    NoPivot(two, 2);
    NextColumn(s, 2, two);
    StuckFrom(s, 3);
  }

  lemma LastTwo(s: seq<Equation>, two: seq<Equation>, u: real, v: real, d: real)
    requires |s| == 4 && Eliminated(s, 2) == System(two) && ExactTo(s, 2) && AfterTwo(two, u, v, d)
      && Abs(d) >= SMALLEST_PIVOT
    requires Sized(u) && Sized(v)
    ensures Exact(s) && Solved(s).Solution?
  {
    hide AfterTwo, AfterThree, OneColumn, ExactAt, Sized, ExactTo, Eliminated;
    ThirdColumn(two, u, v, d);
    NextColumn(s, 2, two);
    var t := OneColumn(two, 2).rows;
    FourthColumn(t, u, v, d);
    NextColumn(s, 3, t);
  }

  /** Where elimination can go through, it is exact only for sums that are zero or sizable. */
  lemma ExactIffSizable(s: seq<Equation>, q: real, x: real, y: real, n: real)
    requires Shaped(s, q, x, y, n) && Abs(x) <= q && Abs(y) <= q && q >= SMALLEST_PIVOT
    requires Abs(Residual(q, x, y, n)) >= SMALLEST_PIVOT
    ensures Exact(s) <==> Sizable(x, q) && Sizable(y, q)
  {
    hide OneColumn, ExactAt, Sized, Sizable, Residual, Over;
    SizableIsSized(x, q);
    SizableIsSized(y, q);
    if !Sized(x) {
      SmallEntrySkipped(s, 0, 2);
      InexactAt(s, 0);
    } else if !Sized(y) {
      SmallEntrySkipped(s, 0, 3);
      InexactAt(s, 0);
    } else {
      FirstTwo(s, q, x, y, n);
      var two := Eliminated(s, 2).rows;
      if !Sized(Over(x, q)) {
        SmallEntrySkipped(two, 2, 0);
        InexactAt(s, 2);
      } else if !Sized(Over(y, q)) {
        SizedNegated(Over(y, q));
        SmallEntrySkipped(two, 2, 1);
        InexactAt(s, 2);
      } else {
        LastTwo(s, two, Over(x, q), Over(y, q), Residual(q, x, y, n));
      }
    }
  }

  lemma SizedNegated(x: real)
    ensures Sized(-x) == Sized(x)
  {
  }

  lemma InexactAt(s: seq<Equation>, n: nat)
    requires |s| == 4 && n < 4 && Eliminated(s, n).System? && !ExactAt(Eliminated(s, n).rows, n)
    ensures !Exact(s)
  {
  }
}
