/** The rectangular Hungarian algorithm over a 1-indexed cost function, working in place on its arrays. */
module Hungarian {
  import opened AssignmentProblem

  /** A shortest-path label; unlabelled columns are infinitely far. */
  datatype Distance = Infinity | Known(d: real)

  predicate Closer(x: Distance, y: Distance) {
    x.Known? && (y.Infinity? || x.d < y.d)
  }

  /** The arrays during the search that seats row i, and the order in which columns were used. */
  datatype Snapshot = Snapshot(
    u: seq<real>, v: seq<real>, p: seq<nat>, way: seq<nat>, minv: seq<Distance>, used: seq<bool>,
    rank: seq<nat>, count: nat)

  ghost predicate SameSize(s: Snapshot) {
    |s.v| == |s.p| == |s.way| == |s.minv| == |s.used| == |s.rank| > 0
  }

  /** Where in the search: rows 1..i-1 are seated, row i waits at index 0. */
  ghost predicate Waiting(i: nat, s: Snapshot) {
    && SameSize(s)
    && i >= 1
    && |s.u| > i
    && Seated(i - 1, s.p)
    && s.p[0] == i
  }

  /** Used columns hang together by tight edges that lead back to index 0 through earlier ranks. */
  ghost predicate Tree(a: (int, int) -> real, s: Snapshot)
    requires SameSize(s)
  {
    && (forall j :: 0 <= j < |s.p| && s.used[j] ==> s.rank[j] < s.count && 0 < s.p[j] < |s.u|)
    && (forall j :: 1 <= j < |s.p| && s.used[j] ==>
          s.way[j] < |s.p| && s.used[s.way[j]] && s.rank[s.way[j]] < s.rank[j] && TreeEdge(a, s, j))
  }

  /** The edge over which column j was reached costs nothing at the current prices. */
  ghost predicate TreeEdge(a: (int, int) -> real, s: Snapshot, j: int)
    requires SameSize(s) && 0 <= j < |s.p|
  {
    && s.way[j] < |s.p|
    && s.p[s.way[j]] < |s.u|
    && s.u[s.p[s.way[j]]] + s.v[j] == a(s.p[s.way[j]], j)
  }

  /** Each unused column's label is its least reduced cost from a used row, attained over way. */
  ghost predicate Labels(a: (int, int) -> real, s: Snapshot)
    requires SameSize(s)
    requires forall j :: 0 <= j < |s.p| && s.used[j] ==> 0 < s.p[j] < |s.u|
  {
    forall j :: 1 <= j < |s.p| && !s.used[j] ==> Label(a, s, j)
  }

  ghost predicate Label(a: (int, int) -> real, s: Snapshot, j: int)
    requires SameSize(s) && 1 <= j < |s.p|
    requires forall k :: 0 <= k < |s.p| && s.used[k] ==> 0 < s.p[k] < |s.u|
  {
    && s.minv[j].Known?
    && s.way[j] < |s.p| && s.used[s.way[j]]
    && s.minv[j].d == Reduced(a, s, s.p[s.way[j]], j)
    && (forall k :: 0 <= k < |s.p| && s.used[k] ==> s.minv[j].d <= Reduced(a, s, s.p[k], j))
  }

  ghost function Reduced(a: (int, int) -> real, s: Snapshot, r: nat, j: int): real
    requires r < |s.u| && 0 <= j < |s.v|
  {
    a(r, j) - s.u[r] - s.v[j]
  }

  /** The search invariant between two rounds, with j0 the column to use next. Row i joins the feasible rows
      after the first round. */
  ghost predicate Searching(a: (int, int) -> real, i: nat, s: Snapshot, j0: nat) {
    && Waiting(i, s)
    && Tight(a, s.u, s.v, s.p)
    && Tree(a, s)
    && j0 < |s.p| && !s.used[j0]
    && if s.count == 0
       then j0 == 0 && Feasible(a, i - 1, s.u, s.v)
         && (forall j :: 0 <= j < |s.p| ==> !s.used[j] && s.minv[j].Infinity?)
       else j0 > 0 && s.used[0] && Feasible(a, i, s.u, s.v) && Labels(a, s) && s.minv[j0] == Known(0.0)
  }

  /** The search invariant inside a round: j0 has just been used, labels and prices are up to date again only
      after Relax and Shift. */
  ghost predicate Relaxed(a: (int, int) -> real, i: nat, s: Snapshot, first: bool) {
    && Waiting(i, s)
    && Tight(a, s.u, s.v, s.p)
    && Tree(a, s)
    && s.used[0]
    && Labels(a, s)
    && s.count > 0
    && if first then Feasible(a, i - 1, s.u, s.v) && (forall j :: 1 <= j < |s.p| ==> !s.used[j])
       else Feasible(a, i, s.u, s.v)
  }

  /** What the inner scan does to one unused column. */
  ghost predicate ScannedAt(a: (int, int) -> real, s: Snapshot, dist: Distance, via: nat, i0: nat, j0: nat, j: int)
    requires SameSize(s) && i0 < |s.u| && 0 <= j < |s.p|
  {
    var cur := Reduced(a, s, i0, j);
    if Closer(Known(cur), s.minv[j]) then dist == Known(cur) && via == j0
    else dist == s.minv[j] && via == s.way[j]
  }

  /** t is s after scanning the unused columns from row i0 at column j0. */
  ghost predicate Scanned(a: (int, int) -> real, s: Snapshot, t: Snapshot, i0: nat, j0: nat) {
    && SameSize(s) && SameSize(t) && |s.p| == |t.p| && i0 < |s.u|
    && t.u == s.u && t.v == s.v && t.p == s.p && t.used == s.used && t.rank == s.rank && t.count == s.count
    && (forall j :: 1 <= j < |s.p| && !s.used[j] ==> ScannedAt(a, s, t.minv[j], t.way[j], i0, j0, j))
    && (forall j :: 0 <= j < |s.p| && s.used[j] ==> t.way[j] == s.way[j])
  }

  /** t is s after moving the prices of the used rows and columns by delta. */
  ghost predicate Shifted(s: Snapshot, t: Snapshot, delta: real) {
    && SameSize(s) && SameSize(t) && |s.p| == |t.p| && |t.u| == |s.u|
    && t.p == s.p && t.way == s.way && t.used == s.used && t.rank == s.rank && t.count == s.count
    && (forall j :: 0 <= j < |s.p| && s.used[j] ==> s.p[j] < |s.u| && t.u[s.p[j]] == s.u[s.p[j]] + delta)
    && (forall r :: 0 <= r < |s.u| && Unreached(s, r) ==> t.u[r] == s.u[r])
    && (forall j :: 0 <= j < |s.p| && s.used[j] ==> t.v[j] == s.v[j] - delta)
    && (forall j :: 0 <= j < |s.p| && !s.used[j] ==> t.v[j] == s.v[j])
    && (forall j :: 0 <= j < |s.p| && !s.used[j] && s.minv[j].Known? ==> t.minv[j] == Known(s.minv[j].d - delta))
  }

  ghost predicate Unreached(s: Snapshot, r: nat)
    requires SameSize(s)
  {
    forall j :: 0 <= j < |s.p| && s.used[j] ==> s.p[j] != r
  }

  /** delta is the least label, attained at the unused column j1. */
  ghost predicate Nearest(s: Snapshot, delta: real, j1: nat) {
    && SameSize(s)
    && 1 <= j1 < |s.p| && !s.used[j1] && s.minv[j1] == Known(delta)
    && (forall j :: 1 <= j < |s.p| && !s.used[j] ==> s.minv[j].Known? && delta <= s.minv[j].d)
  }

  /** j0 is marked used, with the next rank. */
  ghost function Marked(s: Snapshot, j0: nat): Snapshot
    requires SameSize(s) && j0 < |s.p|
  {
    s.(used := s.used[j0 := true], rank := s.rank[j0 := s.count], count := s.count + 1)
  }

  lemma MarkKeepsTree(a: (int, int) -> real, i: nat, s: Snapshot, j0: nat)
    requires Searching(a, i, s, j0) && s.p[j0] != 0
    ensures Tree(a, Marked(s, j0))
  {
    var t := Marked(s, j0);
    forall j | 1 <= j < |t.p| && t.used[j] ensures TreeEdge(a, t, j) && t.used[t.way[j]]
      && t.rank[t.way[j]] < t.rank[j] {
      if j == j0 {
        assert Label(a, s, j0);
      } else {
        assert s.used[j] && TreeEdge(a, s, j);
      }
    }
  }

  lemma ScanKeepsTree(a: (int, int) -> real, t: Snapshot, w: Snapshot, i0: nat, j0: nat)
    requires SameSize(t) && Tree(a, t) && Scanned(a, t, w, i0, j0)
    ensures Tree(a, w)
  {
    forall j | 1 <= j < |w.p| && w.used[j] ensures TreeEdge(a, w, j) {
      assert TreeEdge(a, t, j);
    }
  }

  lemma ScanKeepsLabels(a: (int, int) -> real, i: nat, s: Snapshot, j0: nat, w: Snapshot)
    requires Searching(a, i, s, j0) && s.p[j0] != 0
    requires Tree(a, Marked(s, j0))
    requires Scanned(a, Marked(s, j0), w, s.p[j0], j0)
    requires Tree(a, w)
    ensures Labels(a, w)
  {
    forall j | 1 <= j < |w.p| && !w.used[j] ensures Label(a, w, j) {
      ScanKeepsLabel(a, i, s, j0, w, j);
    }
  }

  lemma ScanKeepsLabel(a: (int, int) -> real, i: nat, s: Snapshot, j0: nat, w: Snapshot, j: nat)
    requires Searching(a, i, s, j0) && s.p[j0] != 0
    requires Tree(a, Marked(s, j0))
    requires Scanned(a, Marked(s, j0), w, s.p[j0], j0)
    requires Tree(a, w)
    requires 1 <= j < |w.p| && !w.used[j]
    ensures Label(a, w, j)
  {
    hide Feasible, Tight, Seated, TreeEdge;
    assert ScannedAt(a, Marked(s, j0), w.minv[j], w.way[j], s.p[j0], j0, j);
    if s.count > 0 {
      assert Label(a, s, j);
      forall k | 0 <= k < |w.p| && w.used[k] && k != j0 ensures s.minv[j].d <= Reduced(a, w, w.p[k], j) {
        assert s.used[k];
      }
    }
  }

  /** Marking j0 used and scanning from its row restores tree and labels. */
  lemma RelaxKeeps(a: (int, int) -> real, i: nat, s: Snapshot, j0: nat, w: Snapshot)
    requires Searching(a, i, s, j0) && s.p[j0] != 0
    requires Scanned(a, Marked(s, j0), w, s.p[j0], j0)
    ensures Relaxed(a, i, w, s.count == 0)
  {
    MarkKeepsTree(a, i, s, j0);
    ScanKeepsTree(a, Marked(s, j0), w, s.p[j0], j0);
    ScanKeepsLabels(a, i, s, j0, w);
  }

  /** Moving the prices by the least label keeps everything and makes the nearest column's edge tight. */
  lemma ShiftKeeps(a: (int, int) -> real, i: nat, s: Snapshot, first: bool, delta: real, j1: nat, t: Snapshot)
    requires Relaxed(a, i, s, first)
    requires Nearest(s, delta, j1)
    requires Shifted(s, t, delta)
    ensures Searching(a, i, t, j1)
  {
    ShiftSign(a, i, s, first, delta, j1);
    ShiftTight(a, i, s, first, delta, t);
    ShiftTree(a, i, s, first, delta, t);
    ShiftLabels(a, i, s, first, delta, t);
    ShiftFeasible(a, i, s, first, delta, j1, t);
  }

  lemma ShiftSign(a: (int, int) -> real, i: nat, s: Snapshot, first: bool, delta: real, j1: nat)
    requires Relaxed(a, i, s, first)
    requires Nearest(s, delta, j1)
    ensures !first ==> delta >= 0.0
  {
    assert Label(a, s, j1);
    SeatIsRow(i, s, s.way[j1]);
  }

  lemma SeatIsRow(i: nat, s: Snapshot, j: nat)
    requires Waiting(i, s) && j < |s.p|
    ensures s.p[j] <= i && (j > 0 ==> s.p[j] < i)
    ensures s.p[j] != 0 ==> forall k :: 0 <= k < |s.p| && k != j ==> s.p[k] != s.p[j]
  {
  }

  lemma ShiftTight(a: (int, int) -> real, i: nat, s: Snapshot, first: bool, delta: real, t: Snapshot)
    requires Relaxed(a, i, s, first)
    requires Shifted(s, t, delta)
    ensures Tight(a, t.u, t.v, t.p)
  {
    forall j | 1 <= j < |t.p| && t.p[j] != 0 ensures t.u[t.p[j]] + t.v[j] == a(t.p[j], j) {
      SeatIsRow(i, s, j);
      if !s.used[j] {
        assert Unreached(s, s.p[j]);
      }
    }
  }

  lemma ShiftTree(a: (int, int) -> real, i: nat, s: Snapshot, first: bool, delta: real, t: Snapshot)
    requires Relaxed(a, i, s, first)
    requires Shifted(s, t, delta)
    ensures Tree(a, t)
  {
    forall j | 1 <= j < |t.p| && t.used[j] ensures TreeEdge(a, t, j) {
      assert TreeEdge(a, s, j);
    }
  }

  lemma ShiftLabels(a: (int, int) -> real, i: nat, s: Snapshot, first: bool, delta: real, t: Snapshot)
    requires Relaxed(a, i, s, first)
    requires Shifted(s, t, delta)
    requires Tree(a, t)
    ensures Labels(a, t)
  {
    forall j | 1 <= j < |t.p| && !t.used[j] ensures Label(a, t, j) {
      assert Label(a, s, j);
      forall k | 0 <= k < |t.p| && t.used[k] ensures t.minv[j].d <= Reduced(a, t, t.p[k], j) {
        assert s.minv[j].d <= Reduced(a, s, s.p[k], j);
      }
    }
  }

  lemma ShiftFeasible(a: (int, int) -> real, i: nat, s: Snapshot, first: bool, delta: real, j1: nat, t: Snapshot)
    requires Relaxed(a, i, s, first)
    requires Nearest(s, delta, j1)
    requires Shifted(s, t, delta)
    requires !first ==> delta >= 0.0
    ensures Feasible(a, i, t.u, t.v)
  {
    forall r, j | 1 <= r <= i && 1 <= j < |t.v| ensures t.u[r] + t.v[j] <= a(r, j) {
      if k :| 0 <= k < |s.p| && s.used[k] && s.p[k] == r {
        if !s.used[j] {
          assert Label(a, s, j);
          assert s.minv[j].d <= Reduced(a, s, s.p[k], j);
        }
      } else {
        assert Unreached(s, r);
        assert r != i;
      }
    }
  }

  // ---------- walking back and moving the seats

  /** Used columns by rank, the free column that ended the search above them all. */
  ghost function Level(s: Snapshot, j: nat): nat
    requires SameSize(s) && j < |s.p|
  {
    if s.used[j] then s.rank[j] else s.count
  }

  /** The seating p while the seats along the path are being moved: everyone but the hole is seated well, and
      the columns still ahead on the walk are as the search left them. */
  ghost predicate Moving(a: (int, int) -> real, i: nat, s: Snapshot, p: seq<nat>, hole: nat) {
    && SameSize(s) && |p| == |s.p| && |s.u| > i && hole < |p|
    && (forall j :: 0 <= j < |p| ==> p[j] <= i)
    && (forall j, k :: 0 <= j < k < |p| && j != hole && k != hole && p[j] != 0 ==> p[j] != p[k])
    && (forall r :: 1 <= r <= i ==> SeatBeside(p, r, hole))
    && (forall j :: 1 <= j < |p| && j != hole ==>
          if p[j] == 0 then s.v[j] == 0.0 else s.u[p[j]] + s.v[j] == a(p[j], j))
    && (forall j :: 0 <= j < |p| && s.used[j] && Level(s, j) <= Level(s, hole) ==> p[j] == s.p[j])
  }

  ghost predicate SeatBeside(p: seq<nat>, r: nat, hole: nat) {
    exists j :: 0 <= j < |p| && j != hole && p[j] == r
  }

  lemma StartMoving(a: (int, int) -> real, i: nat, s: Snapshot, j0: nat)
    requires Searching(a, i, s, j0) && s.p[j0] == 0
    ensures Moving(a, i, s, s.p, j0)
  {
    forall r | 1 <= r <= i ensures SeatBeside(s.p, r, j0) {
      if r < i {
        assert HasSeat(s.p, r);
      } else {
        assert s.p[0] == r;
      }
    }
  }

  /** The column before the hole, and the tight edge that lets its row move in. */
  lemma BeforeHole(a: (int, int) -> real, i: nat, s: Snapshot, j0: nat, hole: nat)
    requires Searching(a, i, s, j0) && s.p[j0] == 0
    requires hole != 0 && (hole == j0 || (hole < |s.p| && s.used[hole]))
    ensures s.way[hole] < |s.p| && s.used[s.way[hole]]
    ensures Level(s, s.way[hole]) < Level(s, hole)
    ensures 0 < s.p[s.way[hole]] < |s.u| && TreeEdge(a, s, hole)
  {
    if hole == j0 {
      assert Label(a, s, j0);
    }
  }

  lemma MoveOne(a: (int, int) -> real, i: nat, s: Snapshot, j0: nat, p: seq<nat>, hole: nat)
    requires Searching(a, i, s, j0) && s.p[j0] == 0
    requires Moving(a, i, s, p, hole)
    requires hole != 0 && (hole == j0 || s.used[hole])
    ensures s.way[hole] < |p| && s.used[s.way[hole]]
    ensures Level(s, s.way[hole]) < Level(s, hole)
    ensures Moving(a, i, s, p[hole := p[s.way[hole]]], s.way[hole])
  {
    BeforeHole(a, i, s, j0, hole);
    MoveInto(a, i, s, p, hole, s.way[hole]);
  }

  lemma MoveInto(a: (int, int) -> real, i: nat, s: Snapshot, p: seq<nat>, hole: nat, next: nat)
    requires Moving(a, i, s, p, hole) && hole != 0
    requires next < |p| && next == s.way[hole] && s.used[next] && Level(s, next) < Level(s, hole)
    requires 0 < s.p[next] < |s.u| && TreeEdge(a, s, hole)
    ensures Moving(a, i, s, p[hole := p[next]], next)
  {
    var q := p[hole := p[next]];
    forall r | 1 <= r <= i ensures SeatBeside(q, r, next) {
      assert SeatBeside(p, r, hole);
      var j :| 0 <= j < |p| && j != hole && p[j] == r;
      assert q[if j == next then hole else j] == r;
    }
  }

  lemma DoneMoving(a: (int, int) -> real, i: nat, s: Snapshot, p: seq<nat>)
    requires i >= 1 && Feasible(a, i, s.u, s.v) && Moving(a, i, s, p, 0)
    ensures Certified(a, i, s.u, s.v, p)
  {
    forall r | 1 <= r <= i ensures HasSeat(p, r) {
      assert SeatBeside(p, r, 0);
    }
  }

  // ---------- a free column exists

  /** With fewer seated rows than columns some column is free. */
  lemma FreeColumn(k: nat, p: seq<nat>) returns (f: nat)
    requires Seated(k, p) && k + 1 < |p|
    ensures 1 <= f < |p| && p[f] == 0
  {
    if forall j :: 1 <= j < |p| ==> p[j] != 0 {
      TooManySeats(p[1..], k);
    }
    f :| 1 <= f < |p| && p[f] == 0;
  }

  /** Distinct numbers among 1..k are at most k many. */
  lemma {:induction false} TooManySeats(q: seq<nat>, k: nat)
    requires forall j :: 0 <= j < |q| ==> 1 <= q[j] <= k
    requires forall i, j :: 0 <= i < j < |q| ==> q[i] != q[j]
    ensures |q| <= k
    decreases k
  {
    if j :| 0 <= j < |q| && q[j] == k {
      TooManySeats(q[..j] + q[j + 1..], k - 1);
    } else if q != [] {
      assert q[0] < k;
      TooManySeats(q, k - 1);
    }
  }

  // ---------- the code

  ghost function Snap(u: array<real>, v: array<real>, p: array<nat>, way: array<nat>, minv: array<Distance>,
                      used: array<bool>, rank: seq<nat>, count: nat): Snapshot
    reads u, v, p, way, minv, used
  {
    Snapshot(u[..], v[..], p[..], way[..], minv[..], used[..], rank, count)
  }

  /** Relabels the unused columns from row i0 = p[j0] and finds the nearest one. Some column is unused. */
  method Relax(a: (int, int) -> real, i0: nat, j0: nat, u: array<real>, v: array<real>, p: array<nat>,
               way: array<nat>, minv: array<Distance>, used: array<bool>, ghost rank: seq<nat>, ghost count: nat,
               ghost free: nat)
    returns (delta: real, j1: nat)
    requires u != v && p != way
    requires SameSize(Snap(u, v, p, way, minv, used, rank, count))
    requires i0 < u.Length && 1 <= free < p.Length && !used[free]
    modifies way, minv
    ensures Scanned(a, old(Snap(u, v, p, way, minv, used, rank, count)), Snap(u, v, p, way, minv, used, rank, count),
                    i0, j0)
    ensures Nearest(Snap(u, v, p, way, minv, used, rank, count), delta, j1)
  {
    ghost var s := Snap(u, v, p, way, minv, used, rank, count);
    var best := Infinity;
    j1 := 0;
    for j := 1 to p.Length
      invariant forall k :: j <= k < p.Length ==> minv[k] == s.minv[k] && way[k] == s.way[k]
      invariant forall k :: 0 <= k < p.Length && used[k] ==> way[k] == s.way[k]
      invariant forall k :: 1 <= k < j && !used[k] ==> ScannedAt(a, s, minv[k], way[k], i0, j0, k)
      invariant forall k :: 1 <= k < j && !used[k] ==> minv[k].Known? && best.Known? && best.d <= minv[k].d
      invariant best.Known? ==> 1 <= j1 < j && !used[j1] && minv[j1] == best
    {
      if used[j] {
        continue;
      }
      var cur := a(i0, j) - u[i0] - v[j];
      if Closer(Known(cur), minv[j]) {
        minv[j] := Known(cur);
        way[j] := j0;
      }
      if Closer(minv[j], best) {
        best := minv[j];
        j1 := j;
      }
    }
    delta := best.d;
  }

  /** t is s after the price update has passed the columns below n. */
  ghost predicate ShiftedBelow(s: Snapshot, t: Snapshot, delta: real, n: nat) {
    && SameSize(s) && SameSize(t) && |s.p| == |t.p| && |t.u| == |s.u| && n <= |s.p|
    && t.p == s.p && t.way == s.way && t.used == s.used && t.rank == s.rank && t.count == s.count
    && (forall j :: 0 <= j < |s.p| && s.used[j] ==> s.p[j] < |s.u|)
    && (forall j :: 0 <= j < |s.p| && s.used[j] ==>
          t.u[s.p[j]] == s.u[s.p[j]] + (if j < n then delta else 0.0)
          && t.v[j] == s.v[j] - (if j < n then delta else 0.0))
    && (forall r :: 0 <= r < |s.u| && Unreached(s, r) ==> t.u[r] == s.u[r])
    && (forall j :: 0 <= j < |s.p| && !s.used[j] ==> t.v[j] == s.v[j])
    && (forall j :: 0 <= j < |s.p| && !s.used[j] && s.minv[j].Known? ==>
          t.minv[j] == Known(s.minv[j].d - (if j < n then delta else 0.0)))
    && (forall j :: 0 <= j < |s.p| && !s.used[j] && s.minv[j].Infinity? ==> t.minv[j].Infinity?)
  }

  lemma ShiftUsed(s: Snapshot, t: Snapshot, delta: real, n: nat)
    requires n < |s.p| && ShiftedBelow(s, t, delta, n) && s.used[n]
    requires forall j, k :: 0 <= j < k < |s.p| && s.used[j] && s.used[k] ==> s.p[j] != s.p[k]
    ensures ShiftedBelow(s, t.(u := t.u[t.p[n] := t.u[t.p[n]] + delta], v := t.v[n := t.v[n] - delta]), delta, n + 1)
  {
  }

  lemma ShiftUnused(s: Snapshot, t: Snapshot, delta: real, n: nat)
    requires n < |s.p| && ShiftedBelow(s, t, delta, n) && !s.used[n]
    ensures t.minv[n].Known? ==>
      ShiftedBelow(s, t.(minv := t.minv[n := Known(t.minv[n].d - delta)]), delta, n + 1)
    ensures t.minv[n].Infinity? ==> ShiftedBelow(s, t, delta, n + 1)
  {
  }

  /** Moves the prices of used rows and columns by delta and the labels of the others back by delta. */
  method Shift(u: array<real>, v: array<real>, p: array<nat>, way: array<nat>, minv: array<Distance>,
               used: array<bool>, ghost rank: seq<nat>, ghost count: nat, delta: real)
    requires u != v && p != way
    requires SameSize(Snap(u, v, p, way, minv, used, rank, count))
    requires forall j :: 0 <= j < p.Length && used[j] ==> p[j] < u.Length
    requires forall j, k :: 0 <= j < k < p.Length && used[j] && used[k] ==> p[j] != p[k]
    modifies u, v, minv
    ensures Shifted(old(Snap(u, v, p, way, minv, used, rank, count)), Snap(u, v, p, way, minv, used, rank, count),
                    delta)
  {
    hide ShiftedBelow, Shifted;
    ghost var s := Snap(u, v, p, way, minv, used, rank, count);
    ShiftStarts(s, delta);
    for j := 0 to p.Length
      invariant ShiftedBelow(s, Snap(u, v, p, way, minv, used, rank, count), delta, j)
    {
      ghost var t := Snap(u, v, p, way, minv, used, rank, count);
      if used[j] {
        u[p[j]] := u[p[j]] + delta;
        v[j] := v[j] - delta;
        assert Snap(u, v, p, way, minv, used, rank, count)
            == t.(u := t.u[t.p[j] := t.u[t.p[j]] + delta], v := t.v[j := t.v[j] - delta]);
      } else if minv[j].Known? {
        minv[j] := Known(minv[j].d - delta);
        assert Snap(u, v, p, way, minv, used, rank, count) == t.(minv := t.minv[j := Known(t.minv[j].d - delta)]);
      }
      if used[j] {
        ShiftUsed(s, t, delta, j);
      } else {
        ShiftUnused(s, t, delta, j);
      }
    }
    ShiftEnds(s, Snap(u, v, p, way, minv, used, rank, count), delta);
  }

  lemma ShiftStarts(s: Snapshot, delta: real)
    requires SameSize(s) && forall j :: 0 <= j < |s.p| && s.used[j] ==> s.p[j] < |s.u|
    ensures ShiftedBelow(s, s, delta, 0)
  {
  }

  lemma ShiftEnds(s: Snapshot, t: Snapshot, delta: real)
    requires SameSize(s) && ShiftedBelow(s, t, delta, |s.p|)
    ensures Shifted(s, t, delta)
  {
  }

  /** Walks from the free column j0 back to index 0 and moves every row on the path one seat on. */
  method Augment(a: (int, int) -> real, ghost i: nat, ghost s: Snapshot, p: array<nat>, way: array<nat>, j0: nat)
    requires p != way && p[..] == s.p && way[..] == s.way
    requires Searching(a, i, s, j0) && s.p[j0] == 0
    modifies p
    ensures Certified(a, i, s.u, s.v, p[..])
  {
    StartMoving(a, i, s, j0);
    var hole := j0;
    while true
      invariant Moving(a, i, s, p[..], hole)
      invariant hole != 0 && (hole == j0 || s.used[hole])
      decreases Level(s, hole)
    {
      MoveOne(a, i, s, j0, p[..], hole);
      var j1 := way[hole];
      p[hole] := p[j1];
      hole := j1;
      if hole == 0 {
        break;
      }
    }
    DoneMoving(a, i, s, p[..]);
  }

  /** Everything the rounds need to know about the arrays: sizes, and which ones may alias. */
  ghost predicate Separate(u: array<real>, v: array<real>, p: array<nat>, way: array<nat>) {
    u != v && p != way && v.Length == p.Length == way.Length > 0
  }

  /** One round of the search: uses column j0, relabels, moves the prices, and names the next column. */
  method Round(a: (int, int) -> real, ghost i: nat, u: array<real>, v: array<real>, p: array<nat>, way: array<nat>,
               minv: array<Distance>, used: array<bool>, ghost rank: seq<nat>, ghost count: nat, j0: nat,
               ghost free: nat)
    returns (j1: nat, ghost rank': seq<nat>)
    requires Separate(u, v, p, way)
    requires Searching(a, i, Snap(u, v, p, way, minv, used, rank, count), j0)
    requires 1 <= free < p.Length && p[free] == 0 && j0 < p.Length && p[j0] != 0
    modifies u, v, way, minv, used
    ensures Searching(a, i, Snap(u, v, p, way, minv, used, rank', count + 1), j1)
    ensures used[..] == old(used[..])[j0 := true]
  {
    hide Searching, Relaxed, SameSize, Tree, Labels, Tight, Feasible, Scanned, Shifted, Nearest, Seated;
    ghost var s := Snap(u, v, p, way, minv, used, rank, count);
    ReadyToRelax(a, i, s, j0, free);
    used[j0] := true;
    rank' := rank[j0 := count];
    assert Snap(u, v, p, way, minv, used, rank', count + 1) == Marked(s, j0);
    var i0 := p[j0];
    var delta;
    delta, j1 := Relax(a, i0, j0, u, v, p, way, minv, used, rank', count + 1, free);
    ghost var w := Snap(u, v, p, way, minv, used, rank', count + 1);
    RelaxKeeps(a, i, s, j0, w);
    ReadyToShift(a, i, w, s.count == 0);
    Shift(u, v, p, way, minv, used, rank', count + 1, delta);
    ShiftKeeps(a, i, w, s.count == 0, delta, j1, Snap(u, v, p, way, minv, used, rank', count + 1));
  }

  /** Marking j0 used leaves the free column unused. */
  lemma ReadyToRelax(a: (int, int) -> real, i: nat, s: Snapshot, j0: nat, free: nat)
    requires Searching(a, i, s, j0) && s.p[j0] != 0 && 1 <= free < |s.p| && s.p[free] == 0
    ensures SameSize(s) && SameSize(Marked(s, j0)) && !Marked(s, j0).used[free] && s.p[j0] < |s.u| && j0 < |s.p|
    ensures |s.used| == |s.rank| == |s.p|
  {
    SeatIsRow(i, s, j0);
  }

  /** Used columns hold different rows. */
  lemma ReadyToShift(a: (int, int) -> real, i: nat, s: Snapshot, first: bool)
    requires Relaxed(a, i, s, first)
    ensures SameSize(s) && forall j :: 0 <= j < |s.p| && s.used[j] ==> s.p[j] < |s.u|
    ensures forall j, k :: 0 <= j < k < |s.p| && s.used[j] && s.used[k] ==> s.p[j] != s.p[k]
  {
    hide Labels, Tight, Feasible;
    UsedRowsDiffer(a, i, s);
  }

  /** One pass of the outer loop: seats row i next to rows 1..i-1 and updates the prices that certify it. */
  method SeatRow(a: (int, int) -> real, i: nat, u: array<real>, v: array<real>, p: array<nat>, way: array<nat>)
    requires Separate(u, v, p, way) && 1 <= i < u.Length && i < p.Length
    requires Certified(a, i - 1, u[..], v[..], p[..])
    modifies u, v, p, way
    ensures Certified(a, i, u[..], v[..], p[..])
  {
    hide Labels, Tight, Feasible, Tree, Seated;
    ghost var free := FreeColumn(i - 1, p[..]);
    p[0] := i;
    assert p[..] == old(p[..])[0 := i];
    var j0: nat := 0;
    var minv := new Distance[p.Length](_ => Infinity);
    var used := new bool[p.Length](_ => false);
    ghost var rank: seq<nat> := seq(p.Length, k => 0);
    ghost var count: nat := 0;
    StartSearch(a, i, old(p[..]), Snap(u, v, p, way, minv, used, rank, count));
    while true
      invariant Separate(u, v, p, way)
      invariant Searching(a, i, Snap(u, v, p, way, minv, used, rank, count), j0)
      invariant 1 <= free < p.Length && p[free] == 0 && p[j0] != 0
      decreases Unused(used[..])
    {
      UseOne(used[..], j0);
      j0, rank := Round(a, i, u, v, p, way, minv, used, rank, count, j0, free);
      count := count + 1;
      if p[j0] == 0 {
        break;
      }
    }
    Augment(a, i, Snap(u, v, p, way, minv, used, rank, count), p, way, j0);
  }

  ghost function Unused(used: seq<bool>): set<int> {
    set j | 0 <= j < |used| && !used[j]
  }

  lemma UseOne(used: seq<bool>, j: nat)
    requires j < |used| && !used[j]
    ensures Unused(used[j := true]) < Unused(used)
  {
    assert j in Unused(used);
  }

  lemma StartSearch(a: (int, int) -> real, i: nat, p: seq<nat>, s: Snapshot)
    requires 1 <= i < |s.u| && SameSize(s) && |s.p| == |p|
    requires Certified(a, i - 1, s.u, s.v, p)
    requires s.p == p[0 := i] && s.count == 0
    requires forall j :: 0 <= j < |p| ==> !s.used[j] && s.minv[j].Infinity?
    ensures Searching(a, i, s, 0)
  {
    forall r | 1 <= r <= i - 1 ensures HasSeat(s.p, r) {
      assert HasSeat(p, r);
      var j :| 1 <= j < |p| && p[j] == r;
      assert s.p[j] == r;
    }
  }

  lemma UsedRowsDiffer(a: (int, int) -> real, i: nat, s: Snapshot)
    requires Waiting(i, s) && Tree(a, s)
    ensures forall j, k :: 0 <= j < k < |s.p| && s.used[j] && s.used[k] ==> s.p[j] != s.p[k]
  {
  }

  /** The whole solver loop: seats all n rows among m >= n columns. */
  method Seat(a: (int, int) -> real, n: nat, m: nat) returns (p: array<nat>, ghost u: seq<real>, ghost v: seq<real>)
    requires n <= m
    ensures fresh(p) && p.Length == m + 1
    ensures Certified(a, n, u, v, p[..])
  {
    var us := new real[n + 1](_ => 0.0);
    var vs := new real[m + 1](_ => 0.0);
    p := new nat[m + 1](_ => 0);
    var way := new nat[m + 1](_ => 0);
    for i := 1 to n + 1
      invariant Certified(a, i - 1, us[..], vs[..], p[..])
    {
      SeatRow(a, i, us, vs, p, way);
    }
    u, v := us[..], vs[..];
  }
}
