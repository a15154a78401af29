/** Four linear equations in four unknowns, solved by elimination with partial pivoting. */
module LinearSolve {
  import opened RealArithmetic
  import opened Vectors

  datatype Equation = Equation(c: Vec4, rhs: real)

  ghost predicate Solves(e: Equation, p: Vec4) {
    Dot(e.c, p) == e.rhs
  }

  ghost predicate AllSolve(s: seq<Equation>, p: Vec4) {
    forall r :: 0 <= r < |s| ==> Solves(s[r], p)
  }

  /** Both systems have the same solutions. */
  ghost predicate SameSolutions(s: seq<Equation>, t: seq<Equation>) {
    forall p: Vec4 :: AllSolve(s, p) <==> AllSolve(t, p)
  }

  /** The first n columns are those of the identity. */
  ghost predicate UnitColumns(s: seq<Equation>, n: int) {
    |s| == 4 && 0 <= n <= 4 && forall r, j :: 0 <= r < 4 && 0 <= j < n ==> s[r].c[j] == Delta(r, j)
  }

  // ---------- row operations and what they leave alone

  /** The row divided by d from column n on. */
  function Divided(e: Equation, n: nat, d: real): Equation
    requires d != 0.0
  {
    Equation(seq(4, j requires 0 <= j < 4 => if j < n then e.c[j] else Over(e.c[j], d)), Over(e.rhs, d))
  }

  lemma DividedSolves(e: Equation, n: nat, d: real, p: Vec4)
    requires d != 0.0 && n < 4 && forall j :: 0 <= j < n ==> e.c[j] == 0.0
    ensures Solves(e, p) <==> Solves(Divided(e, n, d), p)
  {
    var f := Divided(e, n, d);
    DotDivided(e.c, p, d);
    assert forall j :: 0 <= j < n ==> f.c[j] == Over(e.c[j], d);
    assert f.c == [Over(e.c[0], d), Over(e.c[1], d), Over(e.c[2], d), Over(e.c[3], d)];
    OverIsInjective(Dot(e.c, p), e.rhs, d);
  }

  lemma OverIsInjective(x: real, y: real, d: real)
    requires d != 0.0
    ensures Over(x, d) == Over(y, d) <==> x == y
  {
    assert Over(x, d) * d == x && Over(y, d) * d == y;
  }

  /** The row minus x times the row z from column n on. */
  function Lessened(e: Equation, z: Equation, n: nat, x: real): Equation {
    Equation(seq(4, j requires 0 <= j < 4 => if j < n then e.c[j] else e.c[j] - Times(x, z.c[j])),
             e.rhs - Times(x, z.rhs))
  }

  lemma LessenedSolves(e: Equation, z: Equation, n: nat, x: real, p: Vec4)
    requires n < 4 && Solves(z, p) && forall j :: 0 <= j < n ==> z.c[j] == 0.0
    ensures Solves(e, p) <==> Solves(Lessened(e, z, n, x), p)
  {
    var f := Lessened(e, z, n, x);
    DotReduced(e.c, z.c, p, x);
    assert forall j :: 0 <= j < n ==> Times(x, z.c[j]) == 0.0;
    assert f.c == [e.c[0] - Times(x, z.c[0]), e.c[1] - Times(x, z.c[1]), e.c[2] - Times(x, z.c[2]),
                   e.c[3] - Times(x, z.c[3])];
  }

  /** Below this a factor is skipped. */
  const SKIPPED := 0.000000000000000001
  /** Below this no pivot is usable. */
  const SMALLEST_PIVOT := 0.0000000001

  /** The row with its entry in column n taken away, unless that is too small to bother. */
  function Cleared(e: Equation, z: Equation, n: nat): Equation
    requires n < 4
  {
    if Abs(e.c[n]) < SKIPPED then e else Lessened(e, z, n, e.c[n])
  }

  function ClearedColumn(s: seq<Equation>, n: nat): seq<Equation>
    requires |s| == 4 && n < 4
  {
    seq(4, r requires 0 <= r < 4 => if r == n then s[r] else Cleared(s[r], s[n], n))
  }

  /** No entry of the column is too small to bother and yet not zero. */
  ghost predicate NothingSkipped(s: seq<Equation>, n: nat)
    requires |s| == 4 && n < 4
  {
    forall r :: 0 <= r < 4 && r != n && Abs(s[r].c[n]) < SKIPPED ==> s[r].c[n] == 0.0
  }

  function Swapped(s: seq<Equation>, i: nat, j: nat): seq<Equation>
    requires i < |s| && j < |s|
  {
    s[i := s[j]][j := s[i]]
  }

  function CoefficientsOf(s: seq<Equation>, col: nat): Vec4
    requires |s| == 4 && col < 4
  {
    [s[0].c[col], s[1].c[col], s[2].c[col], s[3].c[col]]
  }

  /** The first row from col on whose entry in column col is the largest. */
  function PivotRow(s: seq<Equation>, col: nat): (p: nat)
    requires |s| == 4 && col < 4
    ensures col <= p < 4
  {
    FirstLargest(CoefficientsOf(s, col), col, 4)
  }

  /** The pivot row in its place. */
  function Pivoted(s: seq<Equation>, col: nat): (t: seq<Equation>)
    requires |s| == 4 && col < 4
    ensures |t| == 4 && Abs(t[col].c[col]) == Abs(s[PivotRow(s, col)].c[col])
  {
    Swapped(s, PivotRow(s, col), col)
  }

  /** The pivot row divided by its pivot. */
  function Scaled(s: seq<Equation>, col: nat): (t: seq<Equation>)
    requires |s| == 4 && col < 4 && s[col].c[col] != 0.0
    ensures |t| == 4 && t[col].c[col] == 1.0
  {
    var d := s[col].c[col];
    OverItself(d);
    s[col := Divided(s[col], col, d)]
  }

  lemma OverItself(d: real)
    requires d != 0.0
    ensures Over(d, d) == 1.0
  {
  }

  datatype System = Stuck | System(rows: seq<Equation>)

  predicate Usable(s: System) {
    s.System? ==> |s.rows| == 4
  }

  /** The system after the first n columns, stuck where no usable pivot was left. */
  function Eliminated(s: seq<Equation>, n: nat): (t: System)
    requires |s| == 4 && n <= 4
    ensures Usable(t)
  {
    if n == 0 then System(s) else
    var t := Eliminated(s, n - 1);
    if t.Stuck? then Stuck else OneColumn(t.rows, n - 1)
  }

  function OneColumn(s: seq<Equation>, col: nat): (t: System)
    requires |s| == 4 && col < 4
    ensures Usable(t)
  {
    var p := Pivoted(s, col);
    if Abs(p[col].c[col]) < SMALLEST_PIVOT then Stuck else System(ClearedColumn(Scaled(p, col), col))
  }

  /** In none of the first n columns a small factor that is not zero is skipped. */
  ghost predicate ExactTo(s: seq<Equation>, n: nat)
    requires |s| == 4 && n <= 4
  {
    forall col: nat :: col < n && Eliminated(s, col).System? ==> ExactAt(Eliminated(s, col).rows, col)
  }

  ghost predicate ExactAt(s: seq<Equation>, col: nat)
    requires |s| == 4 && col < 4
  {
    var p := Pivoted(s, col);
    Abs(p[col].c[col]) >= SMALLEST_PIVOT ==> NothingSkipped(Scaled(p, col), col)
  }

  ghost predicate Exact(s: seq<Equation>)
    requires |s| == 4
  {
    ExactTo(s, 4)
  }

  datatype Solution = Degenerate | Solution(p: Vec4)

  /** The right-hand sides after all four columns. */
  function Solved(s: seq<Equation>): Solution
    requires |s| == 4
  {
    match Eliminated(s, 4)
    case Stuck => Degenerate
    case System(t) => Solution([t[0].rhs, t[1].rhs, t[2].rhs, t[3].rhs])
  }

  // ---------- the solutions stay the same

  lemma SwapSolves(s: seq<Equation>, i: nat, j: nat)
    requires |s| == 4 && i < 4 && j < 4
    ensures SameSolutions(s, Swapped(s, i, j))
  {
    hide Solves;
    var t := Swapped(s, i, j);
    forall p: Vec4 ensures AllSolve(s, p) <==> AllSolve(t, p) {
      assert forall r :: 0 <= r < 4 ==> t[r] == s[if r == i then j else if r == j then i else r];
      assert forall r :: 0 <= r < 4 ==> s[r] == t[if r == i then j else if r == j then i else r];
    }
  }

  lemma PivotSolves(s: seq<Equation>, col: nat)
    requires UnitColumns(s, col) && col < 4
    ensures SameSolutions(s, Pivoted(s, col)) && UnitColumns(Pivoted(s, col), col)
  {
    hide SameSolutions;
    SwapSolves(s, PivotRow(s, col), col);
  }

  lemma ScaleSolves(s: seq<Equation>, col: nat)
    requires UnitColumns(s, col) && col < 4 && s[col].c[col] != 0.0
    ensures SameSolutions(s, Scaled(s, col)) && UnitColumns(Scaled(s, col), col)
  {
    hide Solves, Divided;
    var d, t := s[col].c[col], Scaled(s, col);
    forall p: Vec4 ensures AllSolve(s, p) <==> AllSolve(t, p) {
      DividedSolves(s[col], col, d, p);
      assert forall r :: 0 <= r < 4 && r != col ==> t[r] == s[r];
    }
    forall r, j | 0 <= r < 4 && 0 <= j < col ensures t[r].c[j] == Delta(r, j) {
      if r == col {
        DividedBefore(s[col], col, d, j);
      }
    }
  }

  lemma DividedBefore(e: Equation, n: nat, d: real, j: nat)
    requires d != 0.0 && j < n <= 4
    ensures Divided(e, n, d).c[j] == e.c[j]
  {
  }

  lemma ClearSolves(s: seq<Equation>, col: nat)
    requires UnitColumns(s, col) && col < 4 && s[col].c[col] == 1.0
    ensures SameSolutions(s, ClearedColumn(s, col))
  {
    hide Solves, Lessened;
    var t := ClearedColumn(s, col);
    forall p: Vec4 ensures AllSolve(s, p) <==> AllSolve(t, p) {
      assert t[col] == s[col];
      if Solves(s[col], p) {
        forall r | 0 <= r < 4 ensures Solves(s[r], p) <==> Solves(t[r], p) {
          LessenedSolves(s[r], s[col], col, s[r].c[col], p);
        }
      }
    }
  }

  lemma ClearGrows(s: seq<Equation>, col: nat)
    requires UnitColumns(s, col) && col < 4 && s[col].c[col] == 1.0 && NothingSkipped(s, col)
    ensures UnitColumns(ClearedColumn(s, col), col + 1)
  {
    var t := ClearedColumn(s, col);
    forall r, j | 0 <= r < 4 && 0 <= j <= col ensures t[r].c[j] == Delta(r, j) {
      if r != col && j == col {
        LessenedAt(s[r], s[col], col);
      }
    }
  }

  lemma LessenedAt(e: Equation, z: Equation, n: nat)
    requires n < 4 && z.c[n] == 1.0
    ensures Lessened(e, z, n, e.c[n]).c[n] == 0.0
  {
  }

  lemma SameThrough(s: seq<Equation>, t: seq<Equation>, u: seq<Equation>)
    requires SameSolutions(s, t) && SameSolutions(t, u)
    ensures SameSolutions(s, u)
  {
    hide AllSolve;
  }

  lemma ColumnSolves(s: seq<Equation>, col: nat)
    requires |s| == 4 && UnitColumns(s, col) && col < 4 && OneColumn(s, col).System? && ExactAt(s, col)
    ensures SameSolutions(s, OneColumn(s, col).rows) && UnitColumns(OneColumn(s, col).rows, col + 1)
  {
    hide SameSolutions, UnitColumns, Scaled, Pivoted, ClearedColumn, NothingSkipped;
    var t := Pivoted(s, col);
    var u := Scaled(t, col);
    PivotSolves(s, col);
    ScaleSolves(t, col);
    ClearSolves(u, col);
    ClearGrows(u, col);
    SameThrough(s, t, u);
    SameThrough(s, u, ClearedColumn(u, col));
  }

  /** Elimination keeps the solutions and turns column after column into one of the identity. */
  lemma {:induction false} EliminationSolves(s: seq<Equation>, n: nat)
    requires |s| == 4 && n <= 4 && ExactTo(s, n) && Eliminated(s, n).System?
    ensures SameSolutions(s, Eliminated(s, n).rows) && UnitColumns(Eliminated(s, n).rows, n)
  {
    hide SameSolutions, UnitColumns, OneColumn, ExactAt;
    if n == 0 {
      SameAsItself(s);
    } else {
      var t := Eliminated(s, n - 1);
      EliminationSolves(s, n - 1);
      assert ExactAt(t.rows, n - 1);
      ColumnSolves(t.rows, n - 1);
      SameThrough(s, t.rows, Eliminated(s, n).rows);
    }
  }

  lemma SameAsItself(s: seq<Equation>)
    requires |s| == 4
    ensures SameSolutions(s, s) && UnitColumns(s, 0)
  {
  }

  /** Where nothing was skipped that is not zero, the result is the one and only solution. */
  lemma SolvedIsUnique(s: seq<Equation>)
    requires |s| == 4 && Exact(s) && Solved(s).Solution?
    ensures forall p: Vec4 :: AllSolve(s, p) <==> p == Solved(s).p
  {
    hide AllSolve, UnitColumns, ExactTo, Eliminated;
    EliminationSolves(s, 4);
    IdentitySolves(Eliminated(s, 4).rows, Solved(s).p);
  }

  lemma IdentitySolves(s: seq<Equation>, q: Vec4)
    requires UnitColumns(s, 4) && q == [s[0].rhs, s[1].rhs, s[2].rhs, s[3].rhs]
    ensures forall p: Vec4 :: AllSolve(s, p) <==> p == q
  {
    forall p: Vec4 ensures AllSolve(s, p) <==> p == q {
      forall r | 0 <= r < 4 ensures Solves(s[r], p) <==> p[r] == q[r] {
        assert s[r].c == [Delta(r, 0), Delta(r, 1), Delta(r, 2), Delta(r, 3)];
        DotUnit(p, r);
      }
      if AllSolve(s, p) {
        assert Solves(s[0], p) && Solves(s[1], p) && Solves(s[2], p) && Solves(s[3], p);
        assert p == q;
      }
    }
  }

  // ---------- where the pivots are in place already

  /** Zero, or too large to be skipped. */
  predicate Sized(x: real) {
    x == 0.0 || Abs(x) >= SKIPPED
  }

  /** The pivot row z of column n, divided by its pivot. */
  function Normed(z: Vec4, n: nat): Vec4
    requires n < 4 && z[n] != 0.0
  {
    seq(4, j requires 0 <= j < 4 => if j < n then z[j] else Over(z[j], z[n]))
  }

  /** Another row c once column n is cleared with the pivot row z. */
  function Reduced(c: Vec4, z: Vec4, n: nat): Vec4
    requires n < 4 && z[n] != 0.0
  {
    seq(4, j requires 0 <= j < 4 => if j < n then c[j] else c[j] - Times(c[n], Over(z[j], z[n])))
  }

  /** The largest entry of column n, from the diagonal down, is on the diagonal. */
  predicate PivotInPlace(s: seq<Equation>, n: nat)
    requires |s| == 4 && n < 4
  {
    forall r :: n <= r < 4 ==> Abs(s[r].c[n]) <= Abs(s[n].c[n])
  }

  lemma PivotStays(s: seq<Equation>, n: nat)
    requires |s| == 4 && n < 4 && PivotInPlace(s, n)
    ensures Pivoted(s, n) == s
  {
    var v := CoefficientsOf(s, n);
    assert forall r :: 0 <= r < 4 ==> v[r] == s[r].c[n];
    assert PivotRow(s, n) == n;
  }

  lemma ClearedEntry(e: Equation, z: Equation, n: nat, j: nat)
    requires n < 4 && j < 4 && Sized(e.c[n])
    ensures Cleared(e, z, n).c[j] == if j < n then e.c[j] else e.c[j] - Times(e.c[n], z.c[j])
  {
  }

  lemma ScaledRows(s: seq<Equation>, n: nat)
    requires |s| == 4 && n < 4 && s[n].c[n] != 0.0
    ensures var t := Scaled(s, n);
      && (forall r :: 0 <= r < 4 && r != n ==> t[r] == s[r])
      && (forall j :: 0 <= j < 4 ==> t[n].c[j] == if j < n then s[n].c[j] else Over(s[n].c[j], s[n].c[n]))
  {
  }

  /** A column whose pivot is in place and usable, and whose other entries are zero or sizable, is done exactly. */
  lemma PlainColumn(s: seq<Equation>, n: nat)
    requires |s| == 4 && n < 4 && PivotInPlace(s, n) && Abs(s[n].c[n]) >= SMALLEST_PIVOT
    requires forall r :: 0 <= r < 4 && r != n ==> Sized(s[r].c[n])
    ensures ExactAt(s, n) && OneColumn(s, n).System?
    ensures forall r :: 0 <= r < 4 ==>
      OneColumn(s, n).rows[r].c == if r == n then Normed(s[n].c, n) else Reduced(s[r].c, s[n].c, n)
  {
    hide Times, Over, Cleared, Scaled, Pivoted;
    PivotStays(s, n);
    ScaledRows(s, n);
    var t := Scaled(s, n);
    forall r | 0 <= r < 4
      ensures ClearedColumn(t, n)[r].c == if r == n then Normed(s[n].c, n) else Reduced(s[r].c, s[n].c, n)
    {
      if r != n {
        forall j | 0 <= j < 4 ensures Cleared(t[r], t[n], n).c[j] == Reduced(s[r].c, s[n].c, n)[j] {
          ClearedEntry(t[r], t[n], n, j);
        }
      }
    }
  }

  /** One column more. */
  lemma NextColumn(s: seq<Equation>, n: nat, t: seq<Equation>)
    requires |s| == 4 && n < 4 && Eliminated(s, n) == System(t) && ExactTo(s, n) && ExactAt(t, n)
    ensures Eliminated(s, n + 1) == OneColumn(t, n) && ExactTo(s, n + 1)
  {
    hide OneColumn, ExactAt;
  }

  /** Without a usable pivot the column is not done, and nothing was skipped either. */
  lemma NoPivot(s: seq<Equation>, n: nat)
    requires |s| == 4 && n < 4 && PivotInPlace(s, n) && Abs(s[n].c[n]) < SMALLEST_PIVOT
    ensures ExactAt(s, n) && OneColumn(s, n).Stuck?
  {
    PivotStays(s, n);
  }

  /** A small entry that is not zero makes the column inexact. */
  lemma SmallEntrySkipped(s: seq<Equation>, n: nat, r: nat)
    requires |s| == 4 && n < 4 && r < 4 && r != n && PivotInPlace(s, n) && Abs(s[n].c[n]) >= SMALLEST_PIVOT
    requires !Sized(s[r].c[n])
    ensures !ExactAt(s, n)
  {
    PivotStays(s, n);
    ScaledRows(s, n);
    assert Scaled(s, n)[r].c[n] == s[r].c[n];
  }

  // ---------- the algorithm

  method FindLargest(eqs: array<Equation>, col: nat) returns (pivot: nat, best: real)
    requires eqs.Length == 4 && col < 4
    ensures pivot == PivotRow(eqs[..], col) && best == Abs(eqs[pivot].c[col])
  {
    ghost var v := CoefficientsOf(eqs[..], col);
    assert forall r :: 0 <= r < 4 ==> v[r] == eqs[r].c[col];
    hide CoefficientsOf;
    pivot, best := col, Abs(eqs[col].c[col]);
    for r := col + 1 to 4
      invariant pivot == FirstLargest(v, col, r) && best == Abs(v[pivot])
    {
      var candidate := Abs(eqs[r].c[col]);
      if candidate > best {
        pivot, best := r, candidate;
      }
    }
  }

  method DivideEquation(e: Equation, col: nat, d: real) returns (f: Equation)
    requires col < 4 && d != 0.0
    ensures f == Divided(e, col, d)
  {
    hide Over;
    var c := e.c;
    for j := col to 4
      invariant forall k :: 0 <= k < 4 ==> c[k] == if col <= k < j then Over(e.c[k], d) else e.c[k]
    {
      c := c[j := Over(c[j], d)];
    }
    f := Equation(c, Over(e.rhs, d));
    assert c == Divided(e, col, d).c;
  }

  method LessenEquation(e: Equation, z: Equation, col: nat, x: real) returns (f: Equation)
    requires col < 4
    ensures f == Lessened(e, z, col, x)
  {
    hide Times;
    var c := e.c;
    for j := col to 4
      invariant forall k :: 0 <= k < 4 ==> c[k] == if col <= k < j then e.c[k] - Times(x, z.c[k]) else e.c[k]
    {
      c := c[j := c[j] - Times(x, z.c[j])];
    }
    f := Equation(c, e.rhs - Times(x, z.rhs));
    assert c == Lessened(e, z, col, x).c;
  }

  /** Clears column col outside its pivot row. */
  method ClearColumn(eqs: array<Equation>, col: nat)
    requires eqs.Length == 4 && col < 4
    modifies eqs
    ensures eqs[..] == ClearedColumn(old(eqs[..]), col)
  {
    hide Lessened;
    ghost var was := eqs[..];
    for r := 0 to 4
      invariant forall k :: 0 <= k < 4 ==> eqs[k] == if k < r then ClearedColumn(was, col)[k] else was[k]
    {
      if r == col {
        continue;
      }
      var factor := eqs[r].c[col];
      if Abs(factor) < SKIPPED {
        continue;
      }
      var f := LessenEquation(eqs[r], eqs[col], col, factor);
      eqs[r] := f;
    }
  }

  /** One column: pivot, swap, divide, clear. ok is false where no usable pivot is left. */
  method DoColumn(eqs: array<Equation>, col: nat) returns (ok: bool)
    requires eqs.Length == 4 && col < 4
    modifies eqs
    ensures ok <==> OneColumn(old(eqs[..]), col).System?
    ensures ok ==> eqs[..] == OneColumn(old(eqs[..]), col).rows
  {
    hide ClearedColumn, Divided, PivotRow;
    ghost var s := eqs[..];
    var pivot, best := FindLargest(eqs, col);
    if best < SMALLEST_PIVOT {
      return false;
    }
    if pivot != col {
      eqs[pivot], eqs[col] := eqs[col], eqs[pivot];
    }
    assert eqs[..] == Pivoted(s, col);
    var d := eqs[col].c[col];
    var f := DivideEquation(eqs[col], col, d);
    eqs[col] := f;
    assert eqs[..] == Scaled(Pivoted(s, col), col);
    ClearColumn(eqs, col);
    ok := true;
  }

  /** Solves the system. Where nothing nonzero was skipped, the result is its one and only solution. */
  method Solve4(input: seq<Equation>) returns (r: Solution)
    requires |input| == 4
    ensures r == Solved(input)
    ensures r.Solution? && Exact(input) ==> forall p: Vec4 :: AllSolve(input, p) <==> p == r.p
  {
    hide AllSolve, OneColumn, ExactTo;
    var eqs := new Equation[4](i requires 0 <= i < 4 => input[i]);
    assert eqs[..] == input;
    for col := 0 to 4
      invariant Eliminated(input, col) == System(eqs[..])
    {
      var ok := DoColumn(eqs, col);
      if !ok {
        StuckStays(input, col + 1, 4);
        return Degenerate;
      }
    }
    r := Solution([eqs[0].rhs, eqs[1].rhs, eqs[2].rhs, eqs[3].rhs]);
    if Exact(input) {
      SolvedIsUnique(input);
    }
  }

  lemma {:induction false} StuckStays(s: seq<Equation>, n: nat, m: nat)
    requires |s| == 4 && n <= m <= 4 && Eliminated(s, n).Stuck?
    ensures Eliminated(s, m).Stuck?
  {
    if n < m {
      StuckStays(s, n, m - 1);
    }
  }
}
