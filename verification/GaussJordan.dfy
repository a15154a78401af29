/** Inversion of a 4x4 matrix by Gauss-Jordan elimination with partial pivoting, in place on [A | I]. */
module GaussJordan {
  import opened RealArithmetic
  import opened Vectors

  type Mat4 = m: seq<real> | |m| == 16 witness seq(16, _ => 0.0)

  /** 4x4 matrices and the 4x8 working matrix are flat and row-major. */
  function At4(m: Mat4, r: int, c: int): real
    requires 0 <= r < 4 && 0 <= c < 4
  {
    m[r * 4 + c]
  }

  function Aug(m: seq<real>, r: int, c: int): real
    requires |m| == 32 && 0 <= r < 4 && 0 <= c < 8
  {
    m[r * 8 + c]
  }

  function Row(m: Mat4, r: int): Vec4
    requires 0 <= r < 4
  {
    [At4(m, r, 0), At4(m, r, 1), At4(m, r, 2), At4(m, r, 3)]
  }

  function Column(m: Mat4, c: int): Vec4
    requires 0 <= c < 4
  {
    [At4(m, 0, c), At4(m, 1, c), At4(m, 2, c), At4(m, 3, c)]
  }

  function RightRow(w: seq<real>, r: int): Vec4
    requires |w| == 32 && 0 <= r < 4
  {
    [Aug(w, r, 4), Aug(w, r, 5), Aug(w, r, 6), Aug(w, r, 7)]
  }

  function AugColumn(w: seq<real>, c: int): Vec4
    requires |w| == 32 && 0 <= c < 8
  {
    [Aug(w, 0, c), Aug(w, 1, c), Aug(w, 2, c), Aug(w, 3, c)]
  }

  // ---------- what inversion means

  function Product(a: Mat4, b: Mat4, r: int, c: int): real
    requires 0 <= r < 4 && 0 <= c < 4
  {
    Dot(Row(a, r), Column(b, c))
  }

  /** a times b is the identity. */
  ghost predicate Inverts(a: Mat4, b: Mat4)
  {
    forall r, c :: 0 <= r < 4 && 0 <= c < 4 ==> Product(a, b, r, c) == Delta(r, c)
  }

  ghost predicate Diagonal(a: Mat4)
  {
    forall r, c :: 0 <= r < 4 && 0 <= c < 4 && r != c ==> At4(a, r, c) == 0.0
  }

  // ---------- the two relations every row operation keeps

  /** Row r, column c of: left half = right half * A. */
  ghost predicate FromRight(w: seq<real>, a: Mat4, r: int, c: int)
    requires |w| == 32 && 0 <= r < 4 && 0 <= c < 4
  {
    Aug(w, r, c) == Dot(RightRow(w, r), Column(a, c))
  }

  /** Row r, column c of: f * working matrix = [A | I]. */
  ghost predicate Restores(f: Mat4, w: seq<real>, a: Mat4, r: int, c: int)
    requires |w| == 32 && 0 <= r < 4 && 0 <= c < 8
  {
    Dot(Row(f, r), AugColumn(w, c)) == if c < 4 then At4(a, r, c) else Delta(r, c - 4)
  }

  ghost predicate Linked(f: Mat4, w: seq<real>, a: Mat4) {
    && |w| == 32
    && (forall r, c :: 0 <= r < 4 && 0 <= c < 4 ==> FromRight(w, a, r, c))
    && (forall r, c :: 0 <= r < 4 && 0 <= c < 8 ==> Restores(f, w, a, r, c))
  }

  /** The first n columns of the left half are those of the identity. */
  ghost predicate Cleared(w: seq<real>, n: int)
    requires |w| == 32 && n <= 4
  {
    forall r, c :: 0 <= r < 4 && 0 <= c < n ==> Aug(w, r, c) == Delta(r, c)
  }

  /** A diagonal matrix stays diagonal while its columns are cleared. */
  ghost predicate StaysDiagonal(w: seq<real>, a: Mat4, n: int)
    requires |w| == 32 && n >= 0
  {
    forall r, c :: 0 <= r < 4 && n <= c < 4 ==> Aug(w, r, c) == (if r == c then At4(a, r, c) else 0.0)
  }

  ghost predicate Swapped(w: seq<real>, t: seq<real>, i: int, j: int)
    requires 0 <= i < 4 && 0 <= j < 4
  {
    && |w| == 32 && |t| == 32
    && (forall r, c :: 0 <= r < 4 && 0 <= c < 8 ==>
          Aug(t, r, c) == Aug(w, if r == i then j else if r == j then i else r, c))
  }

  ghost predicate Scaled(w: seq<real>, t: seq<real>, i: int, d: real)
    requires d != 0.0
  {
    && |w| == 32 && |t| == 32
    && (forall r, c :: 0 <= r < 4 && 0 <= c < 8 ==>
          Aug(t, r, c) == if r == i then Over(Aug(w, r, c), d) else Aug(w, r, c))
  }

  ghost predicate Reduced(w: seq<real>, t: seq<real>, i: int, k: int, x: real)
    requires 0 <= k < 4
  {
    && |w| == 32 && |t| == 32
    && (forall r, c :: 0 <= r < 4 && 0 <= c < 8 ==>
          Aug(t, r, c) == if r == i then Aug(w, r, c) - Times(x, Aug(w, k, c)) else Aug(w, r, c))
  }

  ghost function Tabulate(h: int -> Vec4): (m: Mat4)
    ensures forall r :: 0 <= r < 4 ==> Row(m, r) == h(r)
  {
    h(0) + h(1) + h(2) + h(3)
  }

  /** Swapping two rows is undone by swapping two columns of the factor. */
  ghost function SwapColumns(f: Mat4, i: int, j: int): (g: Mat4)
    requires 0 <= i < 4 && 0 <= j < 4
    ensures forall r :: 0 <= r < 4 ==> Row(g, r) == SwapAt(Row(f, r), i, j)
  {
    Tabulate(r => if 0 <= r < 4 then SwapAt(Row(f, r), i, j) else [0.0, 0.0, 0.0, 0.0])
  }

  ghost function ScaleColumn(f: Mat4, i: int, d: real): (g: Mat4)
    requires 0 <= i < 4
    ensures forall r :: 0 <= r < 4 ==> Row(g, r) == ScaleAt(Row(f, r), i, d)
  {
    Tabulate(r => if 0 <= r < 4 then ScaleAt(Row(f, r), i, d) else [0.0, 0.0, 0.0, 0.0])
  }

  ghost function AddColumn(f: Mat4, i: int, k: int, x: real): (g: Mat4)
    requires 0 <= i < 4 && 0 <= k < 4
    ensures forall r :: 0 <= r < 4 ==> Row(g, r) == AddAt(Row(f, r), i, k, x)
  {
    Tabulate(r => if 0 <= r < 4 then AddAt(Row(f, r), i, k, x) else [0.0, 0.0, 0.0, 0.0])
  }

  lemma SwapKeeps(f: Mat4, w: seq<real>, a: Mat4, t: seq<real>, i: int, j: int)
    requires Linked(f, w, a) && 0 <= i < 4 && 0 <= j < 4 && Swapped(w, t, i, j)
    ensures Linked(SwapColumns(f, i, j), t, a)
  {
    hide Dot, SwapColumns;
    var g := SwapColumns(f, i, j);
    forall r, c | 0 <= r < 4 && 0 <= c < 4 ensures FromRight(t, a, r, c) {
      var from := if r == i then j else if r == j then i else r;
      assert FromRight(w, a, from, c);
      assert RightRow(t, r) == RightRow(w, from);
    }
    forall r, c | 0 <= r < 4 && 0 <= c < 8 ensures Restores(g, t, a, r, c) {
      assert Restores(f, w, a, r, c);
      DotSwap(Row(f, r), AugColumn(w, c), i, j);
      assert AugColumn(t, c) == SwapAt(AugColumn(w, c), i, j);
    }
  }

  lemma ScaleKeeps(f: Mat4, w: seq<real>, a: Mat4, t: seq<real>, i: int, d: real)
    requires Linked(f, w, a) && 0 <= i < 4 && d != 0.0 && Scaled(w, t, i, d)
    ensures Linked(ScaleColumn(f, i, d), t, a)
  {
    hide Dot, ScaleColumn, Times, Over;
    var g := ScaleColumn(f, i, d);
    forall r, c | 0 <= r < 4 && 0 <= c < 4 ensures FromRight(t, a, r, c) {
      assert FromRight(w, a, r, c);
      if r == i {
        var p := RightRow(w, r);
        DotDivided(p, Column(a, c), d);
        assert RightRow(t, r) == [Over(p[0], d), Over(p[1], d), Over(p[2], d), Over(p[3], d)];
      } else {
        assert RightRow(t, r) == RightRow(w, r);
      }
    }
    forall r, c | 0 <= r < 4 && 0 <= c < 8 ensures Restores(g, t, a, r, c) {
      assert Restores(f, w, a, r, c);
      DotRescale(Row(f, r), AugColumn(w, c), i, d);
      assert AugColumn(t, c) == DivideAt(AugColumn(w, c), i, d);
    }
  }

  lemma ReduceKeeps(f: Mat4, w: seq<real>, a: Mat4, t: seq<real>, i: int, k: int, x: real)
    requires Linked(f, w, a) && 0 <= i < 4 && 0 <= k < 4 && i != k && Reduced(w, t, i, k, x)
    ensures Linked(AddColumn(f, i, k, x), t, a)
  {
    hide Dot, AddColumn, Times, Over;
    var g := AddColumn(f, i, k, x);
    forall r, c | 0 <= r < 4 && 0 <= c < 4 ensures FromRight(t, a, r, c) {
      assert FromRight(w, a, r, c) && FromRight(w, a, k, c);
      if r == i {
        var p, z := RightRow(w, r), RightRow(w, k);
        DotReduced(p, z, Column(a, c), x);
        assert RightRow(t, r) == [p[0] - Times(x, z[0]), p[1] - Times(x, z[1]), p[2] - Times(x, z[2]),
                                  p[3] - Times(x, z[3])];
      } else {
        assert RightRow(t, r) == RightRow(w, r);
      }
    }
    forall r, c | 0 <= r < 4 && 0 <= c < 8 ensures Restores(g, t, a, r, c) {
      assert Restores(f, w, a, r, c);
      DotTransfer(Row(f, r), AugColumn(w, c), i, k, x);
      assert AugColumn(t, c) == SubtractAt(AugColumn(w, c), i, k, x);
    }
  }

  /** A cleared left half makes the right half the inverse, on both sides. */
  lemma ClearedInverts(f: Mat4, w: seq<real>, a: Mat4, inv: Mat4)
    requires Linked(f, w, a) && Cleared(w, 4)
    requires forall r, c :: 0 <= r < 4 && 0 <= c < 4 ==> At4(inv, r, c) == Aug(w, r, c + 4)
    ensures Inverts(inv, a) && Inverts(a, inv)
  {
    hide Dot;
    forall r, c | 0 <= r < 4 && 0 <= c < 4 ensures Product(inv, a, r, c) == Delta(r, c) {
      assert FromRight(w, a, r, c);
      assert Row(inv, r) == RightRow(w, r);
    }
    forall r, c | 0 <= r < 4 && 0 <= c < 4 ensures At4(f, r, c) == At4(a, r, c) {
      assert Restores(f, w, a, r, c);
      DotUnit(Row(f, r), c);
      assert AugColumn(w, c) == [Delta(0, c), Delta(1, c), Delta(2, c), Delta(3, c)];
    }
    forall r, c | 0 <= r < 4 && 0 <= c < 4 ensures Product(a, inv, r, c) == Delta(r, c) {
      assert Restores(f, w, a, r, c + 4);
      assert AugColumn(w, c + 4) == Column(inv, c);
      assert Row(a, r) == Row(f, r);
    }
  }

  /** The pivot of column n is one: row n is ready to clear its column elsewhere. */
  ghost predicate PivotReady(w: seq<real>, n: int)
    requires |w| == 32 && 0 <= n < 4
  {
    Cleared(w, n) && Aug(w, n, n) == 1.0
  }

  /** Column n is already cleared in the rows above m. */
  ghost predicate ClearedAbove(w: seq<real>, n: int, m: int)
    requires |w| == 32 && 0 <= n < 4 && 0 <= m <= 4
  {
    PivotReady(w, n) && forall r :: 0 <= r < m ==> Aug(w, r, n) == Delta(r, n)
  }

  /** What a diagonal matrix looks like once row n has been divided by its pivot. */
  ghost predicate DiagonalPivot(w: seq<real>, a: Mat4, n: int)
    requires |w| == 32 && 0 <= n < 4
  {
    && StaysDiagonal(w, a, n + 1)
    && (forall r :: 0 <= r < 4 && r != n ==> Aug(w, r, n) == 0.0)
  }

  lemma SwapKeepsCleared(w: seq<real>, t: seq<real>, n: int, j: int)
    requires 0 <= n <= j < 4 && Swapped(w, t, n, j) && Cleared(w, n)
    ensures Cleared(t, n)
  {
  }

  lemma ScaleReady(w: seq<real>, t: seq<real>, a: Mat4, n: int, d: real)
    requires 0 <= n < 4 && |w| == 32 && d == Aug(w, n, n) && d != 0.0 && Scaled(w, t, n, d) && Cleared(w, n)
    ensures ClearedAbove(t, n, 0)
    ensures StaysDiagonal(w, a, n) ==> DiagonalPivot(t, a, n)
  {
    forall r, c | 0 <= r < 4 && 0 <= c < n ensures Aug(t, r, c) == Delta(r, c) {
      assert Aug(w, r, c) == Delta(r, c);
    }
    forall r, c | 0 <= r < 4 && n + 1 <= c < 4 && StaysDiagonal(w, a, n)
      ensures Aug(t, r, c) == if r == c then At4(a, r, c) else 0.0
    {
      assert Aug(w, r, c) == if r == c then At4(a, r, c) else 0.0;
    }
  }

  lemma ReduceClears(w: seq<real>, t: seq<real>, a: Mat4, n: int, r: int)
    requires 0 <= n < 4 && 0 <= r < 4 && r != n && |w| == 32
    requires Reduced(w, t, r, n, Aug(w, r, n)) && ClearedAbove(w, n, r)
    ensures ClearedAbove(t, n, r + 1)
    ensures DiagonalPivot(w, a, n) ==> DiagonalPivot(t, a, n)
  {
    var x := Aug(w, r, n);
    forall i, c | 0 <= i < 4 && 0 <= c < n ensures Aug(t, i, c) == Delta(i, c) {
      assert Aug(w, i, c) == Delta(i, c) && Aug(w, n, c) == Delta(n, c);
      assert Times(x, 0.0) == 0.0;
    }
    assert Times(x, 1.0) == x;
    forall i, c | 0 <= i < 4 && n + 1 <= c < 4 && DiagonalPivot(w, a, n)
      ensures Aug(t, i, c) == if i == c then At4(a, i, c) else 0.0
    {
      assert Aug(w, i, c) == if i == c then At4(a, i, c) else 0.0;
      assert Times(0.0, Aug(w, n, c)) == 0.0;
    }
  }

  // ---------- how far elimination gets

  const PIVOT_LIMIT: real := 0.000000000001

  function PivotRow(w: seq<real>, n: nat): (p: nat)
    requires |w| == 32 && n < 4
    ensures n <= p < 4
  {
    FirstLargest(AugColumn(w, n), n, 4)
  }

  /** The only entry that is not zero is the pivot. */
  lemma PivotOfDiagonal(w: seq<real>, a: Mat4, n: nat)
    requires |w| == 32 && n < 4 && StaysDiagonal(w, a, n)
    ensures Abs(Aug(w, PivotRow(w, n), n)) == Abs(At4(a, n, n))
  {
    assert AugColumn(w, n)[n] == Aug(w, n, n) == At4(a, n, n);
    var p := PivotRow(w, n);
    assert AugColumn(w, n)[p] == Aug(w, p, n);
  }

  predicate HasPivot(w: seq<real>, n: nat)
    requires |w| == 32 && n < 4
  {
    Abs(Aug(w, PivotRow(w, n), n)) >= PIVOT_LIMIT
  }

  /** Row r, column c once the pivot row is in place. */
  function Exchanged(w: seq<real>, n: nat, r: int, c: int): real
    requires |w| == 32 && n < 4 && 0 <= r < 4 && 0 <= c < 8
  {
    var p := PivotRow(w, n);
    Aug(w, if r == n then p else if r == p then n else r, c)
  }

  /** Row r, column c once column n is cleared. */
  function Cell(w: seq<real>, n: nat, r: int, c: int): real
    requires |w| == 32 && n < 4 && HasPivot(w, n) && 0 <= r < 4 && 0 <= c < 8
  {
    var top := Over(Exchanged(w, n, n, c), Exchanged(w, n, n, n));
    if r == n then top else Exchanged(w, n, r, c) - Times(Exchanged(w, n, r, n), top)
  }

  function OneColumn(w: seq<real>, n: nat): (t: seq<real>)
    requires |w| == 32 && n < 4 && HasPivot(w, n)
    ensures |t| == 32
  {
    seq(32, i requires 0 <= i < 32 => Cell(w, n, i / 8, i % 8))
  }

  function Augmented(a: Mat4): (t: seq<real>)
    ensures |t| == 32
  {
    seq(32, i requires 0 <= i < 32 => if i % 8 < 4 then At4(a, i / 8, i % 8) else Delta(i / 8, i % 8 - 4))
  }

  datatype Progress = Stuck | Reached(w: seq<real>)

  /** [A | I] after the first n columns, stuck where every entry left to choose from was below the limit. */
  function Eliminated(a: Mat4, n: nat): (t: Progress)
    requires n <= 4
    ensures t.Reached? ==> |t.w| == 32
  {
    if n == 0 then Reached(Augmented(a)) else
    var t := Eliminated(a, n - 1);
    if t.Stuck? || !HasPivot(t.w, n - 1) then Stuck else Reached(OneColumn(t.w, n - 1))
  }

  lemma {:induction false} StuckStays(a: Mat4, n: nat, m: nat)
    requires n <= m <= 4 && Eliminated(a, n).Stuck?
    ensures Eliminated(a, m).Stuck?
  {
    if n < m {
      StuckStays(a, n, m - 1);
    }
  }

  /** Column n is cleared in the rows before m, and nothing else has changed. */
  ghost predicate ReducedTo(w: seq<real>, t: seq<real>, n: int, m: int)
    requires 0 <= n < 4
  {
    && |w| == 32 && |t| == 32
    && (forall r, c :: 0 <= r < 4 && 0 <= c < 8 ==>
          Aug(t, r, c) == if r < m && r != n then Aug(w, r, c) - Times(Aug(w, r, n), Aug(w, n, c)) else Aug(w, r, c))
  }

  lemma ReducedOneMore(w: seq<real>, t: seq<real>, u: seq<real>, n: int, r: int)
    requires 0 <= n < 4 && 0 <= r < 4 && r != n && ReducedTo(w, t, n, r) && Reduced(t, u, r, n, Aug(t, r, n))
    ensures ReducedTo(w, u, n, r + 1)
  {
    hide Times;
    forall i, c | 0 <= i < 4 && 0 <= c < 8
      ensures Aug(u, i, c) == if i < r + 1 && i != n then Aug(w, i, c) - Times(Aug(w, i, n), Aug(w, n, c))
        else Aug(w, i, c)
    {
      assert Aug(t, n, c) == Aug(w, n, c) && Aug(t, r, n) == Aug(w, r, n);
    }
  }

  lemma ColumnDone(s: seq<real>, t: seq<real>, u: seq<real>, w: seq<real>, n: nat)
    requires |s| == 32 && n < 4 && HasPivot(s, n) && Swapped(s, t, n, PivotRow(s, n))
    requires Aug(t, n, n) != 0.0 && Scaled(t, u, n, Aug(t, n, n)) && ReducedTo(u, w, n, 4)
    ensures w == OneColumn(s, n)
  {
    hide Times, Over, PivotRow;
    forall i | 0 <= i < 32 ensures w[i] == OneColumn(s, n)[i] {
      var r, c := i / 8, i % 8;
      assert Aug(w, r, c) == Cell(s, n, r, c) by {
        assert Aug(t, n, c) == Exchanged(s, n, n, c) && Aug(t, r, c) == Exchanged(s, n, r, c);
        assert Aug(t, n, n) == Exchanged(s, n, n, n) && Aug(t, r, n) == Exchanged(s, n, r, n);
        assert Aug(u, r, n) == if r == n then Over(Aug(t, r, n), Aug(t, n, n)) else Aug(t, r, n);
        assert Aug(u, n, c) == Over(Aug(t, n, c), Aug(t, n, n));
        assert Aug(u, r, c) == if r == n then Over(Aug(t, r, c), Aug(t, n, n)) else Aug(t, r, c);
      }
    }
  }

  // ---------- the code

  lemma SetAug(w: seq<real>, t: seq<real>, r: int, c: int, x: real)
    requires |w| == 32 && 0 <= r < 4 && 0 <= c < 8 && t == w[r * 8 + c := x]
    ensures forall i, k :: 0 <= i < 4 && 0 <= k < 8 ==> Aug(t, i, k) == if i == r && k == c then x else Aug(w, i, k)
  {
  }

  lemma SetAt4(m: Mat4, t: Mat4, r: int, c: int, x: real)
    requires 0 <= r < 4 && 0 <= c < 4 && t == m[r * 4 + c := x]
    ensures forall i, k :: 0 <= i < 4 && 0 <= k < 4 ==> At4(t, i, k) == if i == r && k == c then x else At4(m, i, k)
  {
  }

  method FindPivot(w: array<real>, n: nat) returns (pivot: nat, best: real)
    requires w.Length == 32 && n < 4
    ensures pivot == PivotRow(w[..], n) && best == Abs(Aug(w[..], pivot, n))
  {
    ghost var v := AugColumn(w[..], n);
    assert forall r :: 0 <= r < 4 ==> v[r] == w[r * 8 + n] == Aug(w[..], r, n);
    hide AugColumn, Aug;
    pivot, best := n, Abs(w[n * 8 + n]);
    for r := n + 1 to 4
      invariant pivot == FirstLargest(v, n, r) && best == Abs(v[pivot])
    {
      var value := Abs(w[r * 8 + n]);
      if value > best {
        pivot, best := r, value;
      }
    }
  }

  method SwapRows(w: array<real>, i: int, j: int)
    requires w.Length == 32 && 0 <= i < 4 && 0 <= j < 4 && i != j
    modifies w
    ensures Swapped(old(w[..]), w[..], i, j)
  {
    ghost var s := w[..];
    for c := 0 to 8
      invariant forall r, k :: 0 <= r < 4 && 0 <= k < 8 ==>
        Aug(w[..], r, k) == Aug(s, if k >= c then r else if r == i then j else if r == j then i else r, k)
    {
      assert Aug(w[..], i, c) == Aug(s, i, c) && Aug(w[..], j, c) == Aug(s, j, c);
      ghost var t := w[..];
      ghost var m := t[i * 8 + c := t[j * 8 + c]];
      w[i * 8 + c], w[j * 8 + c] := w[j * 8 + c], w[i * 8 + c];
      SetAug(t, m, i, c, t[j * 8 + c]);
      SetAug(m, w[..], j, c, t[i * 8 + c]);
    }
  }

  method DivideRow(w: array<real>, i: int, d: real)
    requires w.Length == 32 && 0 <= i < 4 && d != 0.0
    modifies w
    ensures Scaled(old(w[..]), w[..], i, d)
  {
    hide Over;
    ghost var s := w[..];
    for c := 0 to 8
      invariant forall r, k :: 0 <= r < 4 && 0 <= k < 8 ==>
        Aug(w[..], r, k) == if r == i && k < c then Over(Aug(s, r, k), d) else Aug(s, r, k)
    {
      assert Aug(w[..], i, c) == Aug(s, i, c);
      w[i * 8 + c] := Over(w[i * 8 + c], d);
    }
  }

  method ReduceRow(w: array<real>, i: int, n: int, x: real)
    requires w.Length == 32 && 0 <= i < 4 && 0 <= n < 4 && i != n
    modifies w
    ensures Reduced(old(w[..]), w[..], i, n, x)
  {
    hide Times;
    ghost var s := w[..];
    for c := 0 to 8
      invariant forall r, k :: 0 <= r < 4 && 0 <= k < 8 ==>
        Aug(w[..], r, k) == if r == i && k < c then Aug(s, r, k) - Times(x, Aug(s, n, k)) else Aug(s, r, k)
    {
      assert Aug(w[..], i, c) == Aug(s, i, c) && Aug(w[..], n, c) == Aug(s, n, c);
      w[i * 8 + c] := w[i * 8 + c] - Times(x, w[n * 8 + c]);
    }
  }

  /** Clears column n in every row but n. */
  method ClearColumn(w: array<real>, n: int, ghost f: Mat4, ghost a: Mat4) returns (ghost g: Mat4)
    requires w.Length == 32 && 0 <= n < 4
    requires Linked(f, w[..], a) && ClearedAbove(w[..], n, 0)
    modifies w
    ensures Linked(g, w[..], a) && Cleared(w[..], n + 1) && ReducedTo(old(w[..]), w[..], n, 4)
    ensures old(DiagonalPivot(w[..], a, n)) ==> StaysDiagonal(w[..], a, n + 1)
  {
    hide Linked, Reduced;
    g := f;
    ghost var was := w[..];
    for r := 0 to 4
      invariant Linked(g, w[..], a) && ClearedAbove(w[..], n, r) && ReducedTo(was, w[..], n, r)
      invariant old(DiagonalPivot(w[..], a, n)) ==> DiagonalPivot(w[..], a, n)
    {
      if r == n {
        continue;
      }
      ghost var s := w[..];
      var factor := w[r * 8 + n];
      ReduceRow(w, r, n, factor);
      ReduceKeeps(g, s, a, w[..], r, n, factor);
      ReduceClears(s, w[..], a, n, r);
      ReducedOneMore(was, s, w[..], n, r);
      g := AddColumn(g, r, n, factor);
    }
  }

  /** Inverse stands for the returned matrix, Singular for the exception about a vanishing pivot. */
  datatype Inversion = Singular | Inverse(matrix: Mat4)

  /** One column: find the pivot, bring it up, divide its row, clear the rest. */
  method DoColumn(w: array<real>, n: nat, ghost f: Mat4, ghost a: Mat4) returns (ok: bool, ghost g: Mat4)
    requires w.Length == 32 && n < 4
    requires Linked(f, w[..], a) && Cleared(w[..], n)
    requires Diagonal(a) ==> StaysDiagonal(w[..], a, n)
    modifies w
    ensures ok <==> HasPivot(old(w[..]), n)
    ensures ok ==> w[..] == OneColumn(old(w[..]), n)
    ensures ok ==> Linked(g, w[..], a) && Cleared(w[..], n + 1)
    ensures ok && Diagonal(a) ==> StaysDiagonal(w[..], a, n + 1)
    ensures Diagonal(a) ==> (ok <==> Abs(At4(a, n, n)) >= PIVOT_LIMIT)
  {
    hide Linked, Scaled, ReducedTo, OneColumn;
    g := f;
    ghost var was := w[..];
    var pivot, best := FindPivot(w, n);
    if Diagonal(a) {
      PivotOfDiagonal(was, a, n);
    }
    if best < PIVOT_LIMIT {
      return false, g;
    }
    if pivot != n {
      ghost var s := w[..];
      SwapRows(w, n, pivot);
      SwapKeeps(g, s, a, w[..], n, pivot);
      SwapKeepsCleared(s, w[..], n, pivot);
      SwapMoves(s, w[..], n, pivot);
      g := SwapColumns(g, n, pivot);
    }
    var div := w[n * 8 + n];
    ghost var s := w[..];
    DivideRow(w, n, div);
    ScaleKeeps(g, s, a, w[..], n, div);
    ScaleReady(s, w[..], a, n, div);
    ghost var u := w[..];
    g := ClearColumn(w, n, ScaleColumn(g, n, div), a);
    ColumnDone(was, s, u, w[..], n);
    ok := true;
  }

  lemma SwapMoves(w: seq<real>, t: seq<real>, n: int, j: int)
    requires 0 <= n < 4 && 0 <= j < 4 && Swapped(w, t, n, j)
    ensures Aug(t, n, n) == Aug(w, j, n)
  {
  }

  ghost function Identity(): Mat4 {
    [1.0, 0.0, 0.0, 0.0, 0.0, 1.0, 0.0, 0.0, 0.0, 0.0, 1.0, 0.0, 0.0, 0.0, 0.0, 1.0]
  }

  /** [A | I]. */
  method Augment(a: Mat4) returns (w: array<real>)
    ensures fresh(w) && w.Length == 32
    ensures Linked(Identity(), w[..], a) && StaysDiagonal(w[..], a, 0) == Diagonal(a)
    ensures w[..] == Augmented(a)
  {
    w := new real[32](_ => 0.0);
    for r := 0 to 4
      invariant forall i, k :: 0 <= i < r && 0 <= k < 8 ==>
        Aug(w[..], i, k) == if k < 4 then At4(a, i, k) else Delta(i, k - 4)
    {
      for c := 0 to 4
        invariant forall i, k :: 0 <= i < r && 0 <= k < 8 ==>
          Aug(w[..], i, k) == if k < 4 then At4(a, i, k) else Delta(i, k - 4)
        invariant forall k :: 0 <= k < 8 && (k < c || 4 <= k < c + 4) ==>
          Aug(w[..], r, k) == if k < 4 then At4(a, r, k) else Delta(r, k - 4)
      {
        ghost var t := w[..];
        w[r * 8 + c] := a[r * 4 + c];
        ghost var m := w[..];
        w[r * 8 + 4 + c] := if r == c then 1.0 else 0.0;
        SetAug(t, m, r, c, a[r * 4 + c]);
        SetAug(m, w[..], r, c + 4, Delta(r, c));
      }
    }
    StartLinked(w[..], a);
    forall i | 0 <= i < 32 ensures w[i] == Augmented(a)[i] {
      assert w[i] == Aug(w[..], i / 8, i % 8);
    }
  }

  lemma StartLinked(w: seq<real>, a: Mat4)
    requires |w| == 32
    requires forall i, k :: 0 <= i < 4 && 0 <= k < 8 ==> Aug(w, i, k) == if k < 4 then At4(a, i, k) else Delta(i, k - 4)
    ensures Linked(Identity(), w, a) && StaysDiagonal(w, a, 0) == Diagonal(a)
  {
    hide Dot;
    forall r, c | 0 <= r < 4 && 0 <= c < 4 ensures FromRight(w, a, r, c) {
      DotUnit(Column(a, c), r);
      assert RightRow(w, r) == [Delta(r, 0), Delta(r, 1), Delta(r, 2), Delta(r, 3)];
    }
    forall r, c | 0 <= r < 4 && 0 <= c < 8 ensures Restores(Identity(), w, a, r, c) {
      DotUnit(AugColumn(w, c), r);
      assert Row(Identity(), r) == [Delta(r, 0), Delta(r, 1), Delta(r, 2), Delta(r, 3)];
    }
    if Diagonal(a) {
      assert StaysDiagonal(w, a, 0);
    } else {
      var r, c :| 0 <= r < 4 && 0 <= c < 4 && r != c && At4(a, r, c) != 0.0;
      assert Aug(w, r, c) != 0.0;
    }
  }

  /** Gauss-Jordan inversion. Whatever is returned is a true inverse, on both sides; a matrix is refused exactly when
      elimination finds no pivot in some column, a diagonal one when some diagonal entry is below the pivot limit. */
  method Invert4(input: Mat4) returns (r: Inversion)
    ensures r.Inverse? <==> Eliminated(input, 4).Reached?
    ensures r.Inverse? ==> Inverts(r.matrix, input) && Inverts(input, r.matrix)
    ensures Diagonal(input) ==> (r.Inverse? <==> forall i :: 0 <= i < 4 ==> Abs(At4(input, i, i)) >= PIVOT_LIMIT)
  {
    hide Linked, OneColumn, HasPivot;
    var w := Augment(input);
    ghost var f := Identity();
    for n := 0 to 4
      invariant Linked(f, w[..], input) && Cleared(w[..], n) && Eliminated(input, n) == Reached(w[..])
      invariant Diagonal(input) ==> StaysDiagonal(w[..], input, n)
      invariant Diagonal(input) ==> forall i :: 0 <= i < n ==> Abs(At4(input, i, i)) >= PIVOT_LIMIT
    {
      var ok;
      ok, f := DoColumn(w, n, f, input);
      if !ok {
        StuckStays(input, n + 1, 4);
        return Singular;
      }
    }
    var inv := CopyRight(w);
    ClearedInverts(f, w[..], input, inv);
    r := Inverse(inv);
  }

  method CopyRight(w: array<real>) returns (m: Mat4)
    requires w.Length == 32
    ensures forall r, c :: 0 <= r < 4 && 0 <= c < 4 ==> At4(m, r, c) == Aug(w[..], r, c + 4)
  {
    var inv := new real[16](_ => 0.0);
    for r := 0 to 4
      invariant forall i, k :: 0 <= i < r && 0 <= k < 4 ==> At4(inv[..], i, k) == Aug(w[..], i, k + 4)
    {
      for c := 0 to 4
        invariant forall i, k :: 0 <= i < r && 0 <= k < 4 ==> At4(inv[..], i, k) == Aug(w[..], i, k + 4)
        invariant forall k :: 0 <= k < c ==> At4(inv[..], r, k) == Aug(w[..], r, k + 4)
      {
        ghost var t: Mat4 := inv[..];
        inv[r * 4 + c] := w[r * 8 + 4 + c];
        SetAt4(t, inv[..], r, c, Aug(w[..], r, c + 4));
      }
    }
    m := inv[..];
  }
}
