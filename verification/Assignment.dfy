/** The assignment problem that links tracks to detections: its data, what a solution is, and weak duality. */
module AssignmentProblem {
  import opened Collections
  import opened Sums

  /** One entry of the cost matrix. NotFinite stands for NaN and both infinities. */
  datatype Cost = Finite(value: real) | NotFinite

  datatype Match = Match(row: nat, col: nat)

  /** A row-major cost matrix and the largest cost a pair may have. */
  datatype Problem = Problem(rows: nat, cols: nat, costs: seq<Cost>, maxCost: real) {

    predicate WellSized() {
      |costs| == rows * cols
    }

    function Entry(row: nat, col: nat): Cost
      requires WellSized() && row < rows && col < cols
    {
      EntryInRange(row, col);
      costs[row * cols + col]
    }

    lemma EntryInRange(row: nat, col: nat)
      requires row < rows && col < cols
      ensures 0 <= row * cols + col < rows * cols
    {
      assert (row + 1) * cols <= rows * cols;
    }

    /** The pair may be matched. */
    predicate Allowed(row: nat, col: nat)
      requires WellSized() && row < rows && col < cols
    {
      var c := Entry(row, col);
      c.Finite? && c.value <= maxCost
    }

    function DummyCost(): real {
      maxCost + 0.000001
    }

    function InvalidCost(): real {
      DummyCost() + 1000000.0
    }

    /** The matrix the solver works on: 1-indexed, with `rows` dummy columns after the real ones. */
    function Augmented(row1: int, col1: int): real {
      if !WellSized() || !(1 <= row1 <= rows) || !(1 <= col1 <= cols + rows) then 0.0
      else if col1 > cols then DummyCost()
      else if Allowed(row1 - 1, col1 - 1) then Entry(row1 - 1, col1 - 1).value
      else InvalidCost()
    }

    /** A partial matching that uses allowed pairs only. */
    ghost predicate Matching(ms: seq<Match>)
      requires WellSized()
    {
      && (forall k :: 0 <= k < |ms| ==> ms[k].row < rows && ms[k].col < cols && Allowed(ms[k].row, ms[k].col))
      && (forall i, j :: 0 <= i < j < |ms| ==> ms[i].row != ms[j].row && ms[i].col != ms[j].col)
    }

    ghost function MatchedCost(ms: seq<Match>): real
      requires WellSized() && Matching(ms)
    {
      if ms == [] then 0.0
      else MatchedCost(ms[..|ms| - 1]) + Entry(ms[|ms| - 1].row, ms[|ms| - 1].col).value
    }

    /** What the solver minimises: the cost of the pairs, and a dummy cost for each row left alone. */
    ghost function Objective(ms: seq<Match>): real
      requires WellSized() && Matching(ms)
    {
      MatchedCost(ms) + DummyCost() * (rows - |ms|) as real
    }

    /** The total augmented cost of giving row r the 1-indexed column pick[r]. */
    ghost function AssignedCost(pick: seq<nat>): real
      requires |pick| == rows
    {
      Sum(CostsOf(pick))
    }

    ghost function CostsOf(pick: seq<nat>): (r: seq<real>)
      requires |pick| == rows
      ensures |r| == rows
    {
      seq(rows, r requires 0 <= r < rows => Augmented(r + 1, pick[r]))
    }

    /** pick sends every matched row to its column and every other row to some dummy column. */
    ghost predicate Completes(ms: seq<Match>, pick: seq<nat>)
      requires WellSized() && Matching(ms)
    {
      && |pick| == rows
      && (forall r :: 0 <= r < rows ==> 1 <= pick[r] <= cols + rows)
      && (forall k :: 0 <= k < |ms| ==> pick[ms[k].row] == ms[k].col + 1)
      && (forall r :: 0 <= r < rows && pick[r] <= cols ==> exists k :: 0 <= k < |ms| && ms[k].row == r)
    }

    lemma {:induction false} DummySum(pick: seq<nat>, n: nat)
      requires WellSized() && |pick| == rows && n <= rows
      requires forall r :: 0 <= r < rows ==> cols < pick[r] <= cols + rows
      ensures Sum(CostsOf(pick)[..n]) == DummyCost() * n as real
    {
      if n > 0 {
        DummySum(pick, n - 1);
        assert CostsOf(pick)[..n][..n - 1] == CostsOf(pick)[..n - 1];
      }
    }

    /** Dropping the last match and sending its row to a dummy column still completes what is left. */
    lemma CompletesWithoutLast(ms: seq<Match>, pick: seq<nat>)
      requires WellSized() && Matching(ms) && Completes(ms, pick) && ms != []
      ensures Matching(ms[..|ms| - 1])
      ensures Completes(ms[..|ms| - 1], pick[ms[|ms| - 1].row := cols + 1])
    {
      hide Allowed;
      var rest, m := ms[..|ms| - 1], ms[|ms| - 1];
      var without := pick[m.row := cols + 1];
      forall r | 0 <= r < rows && without[r] <= cols
        ensures exists k :: 0 <= k < |rest| && rest[k].row == r
      {
        var k :| 0 <= k < |ms| && ms[k].row == r;
        assert rest[k] == ms[k];
      }
    }

    lemma SwapCost(pick: seq<nat>, m: Match)
      requires WellSized() && |pick| == rows
      requires m.row < rows && m.col < cols && Allowed(m.row, m.col) && pick[m.row] == m.col + 1
      ensures AssignedCost(pick)
           == AssignedCost(pick[m.row := cols + 1]) - DummyCost() + Entry(m.row, m.col).value
    {
      var without := CostsOf(pick[m.row := cols + 1]);
      assert CostsOf(pick) == without[m.row := Entry(m.row, m.col).value];
      SumUpdate(without, m.row, Entry(m.row, m.col).value);
    }

    lemma ObjectiveStep(ms: seq<Match>)
      requires WellSized() && Matching(ms) && ms != []
      ensures Matching(ms[..|ms| - 1])
      ensures var m := ms[|ms| - 1];
        Objective(ms) == Objective(ms[..|ms| - 1]) - DummyCost() + Entry(m.row, m.col).value
    {
      OneMore(DummyCost(), rows - |ms|);
    }

    static lemma OneMore(d: real, n: int)
      ensures d * (n + 1) as real == d * n as real + d
    {
    }

    /** Filling a matching up with dummy columns costs exactly its objective. */
    lemma {:induction false} CompletionCost(ms: seq<Match>, pick: seq<nat>)
      requires WellSized() && Matching(ms) && Completes(ms, pick)
      ensures AssignedCost(pick) == Objective(ms)
      decreases |ms|
    {
      if ms == [] {
        DummySum(pick, rows);
        assert CostsOf(pick)[..rows] == CostsOf(pick);
      } else {
        var m := ms[|ms| - 1];
        CompletesWithoutLast(ms, pick);
        CompletionCost(ms[..|ms| - 1], pick[m.row := cols + 1]);
        SwapCost(pick, m);
        ObjectiveStep(ms);
      }
    }

    /** Every matching can be filled up: row r falls back on its own dummy column. */
    ghost function Filled(ms: seq<Match>): (pick: seq<nat>)
      requires WellSized() && Matching(ms)
      ensures Completes(ms, pick) && Distinct(pick)
    {
      FilledCompletes(ms);
      FilledSeats(ms)
    }

    ghost function FilledSeats(ms: seq<Match>): (pick: seq<nat>)
      ensures |pick| == rows && forall r :: 0 <= r < rows ==> pick[r] == FilledSeat(ms, r)
    {
      seq(rows, r requires 0 <= r < rows => FilledSeat(ms, r))
    }

    ghost function FilledSeat(ms: seq<Match>, r: nat): nat {
      if exists k :: 0 <= k < |ms| && ms[k].row == r
      then (var k :| 0 <= k < |ms| && ms[k].row == r; ms[k].col + 1)
      else cols + r + 1
    }

    /** A matched row's seat is its match's column. */
    lemma FilledSeatIs(ms: seq<Match>, r: nat)
      requires WellSized() && Matching(ms) && r < rows
      ensures forall k :: 0 <= k < |ms| && ms[k].row == r ==> FilledSeat(ms, r) == ms[k].col + 1 && ms[k].col < cols
      ensures FilledSeat(ms, r) <= cols ==> exists k :: 0 <= k < |ms| && ms[k].row == r
      ensures (forall k :: 0 <= k < |ms| ==> ms[k].row != r) ==> FilledSeat(ms, r) == cols + r + 1
      ensures 1 <= FilledSeat(ms, r) <= cols + rows
    {
      hide Allowed;
    }

    lemma FilledCompletes(ms: seq<Match>)
      requires WellSized() && Matching(ms)
      ensures Completes(ms, FilledSeats(ms)) && Distinct(FilledSeats(ms))
    {
      hide Allowed, FilledSeat;
      var pick := FilledSeats(ms);
      forall r | 0 <= r < rows
        ensures 1 <= pick[r] <= cols + rows
        ensures pick[r] <= cols ==> exists k :: 0 <= k < |ms| && ms[k].row == r
      {
        FilledSeatIs(ms, r);
      }
      forall k | 0 <= k < |ms| ensures pick[ms[k].row] == ms[k].col + 1 {
        FilledSeatIs(ms, ms[k].row);
      }
      forall i, j | 0 <= i < j < rows ensures pick[i] != pick[j] {
        if pick[i] == pick[j] {
          FilledSeatsDiffer(ms, i, j);
        }
      }
    }

    lemma FilledSeatsDiffer(ms: seq<Match>, i: nat, j: nat)
      requires WellSized() && Matching(ms) && i < rows && j < rows && FilledSeat(ms, i) == FilledSeat(ms, j)
      ensures i == j
    {
      hide Allowed, FilledSeat;
      FilledSeatIs(ms, i);
      FilledSeatIs(ms, j);
      if FilledSeat(ms, i) <= cols {
        var k :| 0 <= k < |ms| && ms[k].row == i;
        var l :| 0 <= l < |ms| && ms[l].row == j;
        assert ms[k].col == ms[l].col;
      }
    }
  }

  /** Dual prices for the first k rows of an augmented matrix a with |v| - 1 columns; index 0 is unused. */
  ghost predicate Feasible(a: (int, int) -> real, k: nat, u: seq<real>, v: seq<real>) {
    && |u| > k
    && |v| > 0
    && (forall r, j :: 1 <= r <= k && 1 <= j < |v| ==> u[r] + v[j] <= a(r, j))
    && (forall j :: 1 <= j < |v| ==> v[j] <= 0.0)
  }

  /** Rows 1..k have distinct columns in p and no other row has one. */
  ghost predicate Seated(k: nat, p: seq<nat>) {
    && |p| > 0
    && (forall j :: 1 <= j < |p| ==> p[j] <= k)
    && (forall i, j :: 1 <= i < j < |p| && p[i] != 0 ==> p[i] != p[j])
    && (forall r :: 1 <= r <= k ==> HasSeat(p, r))
  }

  ghost predicate HasSeat(p: seq<nat>, r: nat) {
    exists j :: 1 <= j < |p| && p[j] == r
  }

  /** Complementary slackness: seats are tight and free columns have price zero. */
  ghost predicate Tight(a: (int, int) -> real, u: seq<real>, v: seq<real>, p: seq<nat>) {
    && |v| == |p|
    && (forall j :: 1 <= j < |p| ==> p[j] < |u|)
    && (forall j :: 1 <= j < |p| && p[j] != 0 ==> u[p[j]] + v[j] == a(p[j], j))
    && (forall j :: 1 <= j < |p| && p[j] == 0 ==> v[j] == 0.0)
  }

  /** A seating of rows 1..k together with prices that prove it cheapest. */
  ghost predicate Certified(a: (int, int) -> real, k: nat, u: seq<real>, v: seq<real>, p: seq<nat>) {
    Feasible(a, k, u, v) && Seated(k, p) && Tight(a, u, v, p)
  }

  /** The column of each row, 0-indexed rows and 1-indexed columns. */
  ghost function SeatsOf(k: nat, p: seq<nat>): (pick: seq<nat>)
    requires Seated(k, p)
    ensures |pick| == k
    ensures forall r :: 0 <= r < k ==> 1 <= pick[r] < |p| && p[pick[r]] == r + 1
  {
    assert forall r :: 1 <= r <= k ==> HasSeat(p, r);
    seq(k, r requires 0 <= r < k => (assert HasSeat(p, r + 1); var j: nat :| 1 <= j < |p| && p[j] == r + 1; j))
  }

  lemma SeatsAreDistinct(k: nat, p: seq<nat>)
    requires Seated(k, p)
    ensures Distinct(SeatsOf(k, p))
    ensures forall j :: 1 <= j < |p| && p[j] != 0 ==> j in SeatsOf(k, p)
  {
    var pick := SeatsOf(k, p);
    forall i, j | 0 <= i < j < |pick| ensures pick[i] != pick[j] {
      assert p[pick[i]] == i + 1 && p[pick[j]] == j + 1;
    }
    forall j | 1 <= j < |p| && p[j] != 0 ensures j in pick {
      assert p[pick[p[j] - 1]] == p[j];
    }
  }

  /** The value of the prices; index 0 of both sequences is unused. */
  ghost function DualValue(pr: Problem, u: seq<real>, v: seq<real>): real
    requires |u| > pr.rows && |v| > 0
  {
    Sum(u[1..pr.rows + 1]) + Sum(v[0 := 0.0])
  }

  /** Weak duality: any way to give rows 1..n distinct columns costs at least the dual value. */
  lemma DualBound(pr: Problem, u: seq<real>, v: seq<real>, pick: seq<nat>)
    requires |v| == pr.cols + pr.rows + 1
    requires Feasible(pr.Augmented, pr.rows, u, v)
    requires |pick| == pr.rows && Distinct(pick)
    requires forall r :: 0 <= r < pr.rows ==> 1 <= pick[r] <= pr.cols + pr.rows
    ensures DualValue(pr, u, v) <= pr.AssignedCost(pick)
  {
    hide Sum, Problem.Augmented;
    var w := v[0 := 0.0];
    var us, vs := u[1..pr.rows + 1], Picked(w, pick);
    var lower := seq(pr.rows, r requires 0 <= r < pr.rows => us[r] + vs[r]);
    SumAdd(us, vs, lower);
    SumMonotone(lower, pr.CostsOf(pick));
    SumPicked(w, pick);
  }

  /** Strong duality: the certified seating costs exactly the dual value. */
  lemma DualReached(pr: Problem, u: seq<real>, v: seq<real>, p: seq<nat>)
    requires |v| == pr.cols + pr.rows + 1
    requires Certified(pr.Augmented, pr.rows, u, v, p)
    ensures pr.AssignedCost(SeatsOf(pr.rows, p)) == DualValue(pr, u, v)
  {
    hide Sum, Problem.Augmented;
    var pick := SeatsOf(pr.rows, p);
    var w := v[0 := 0.0];
    var us, vs := u[1..pr.rows + 1], Picked(w, pick);
    SeatsAreDistinct(pr.rows, p);
    forall r | 0 <= r < pr.rows ensures pr.CostsOf(pick)[r] == us[r] + vs[r] {
      assert p[pick[r]] == r + 1;
    }
    SumAdd(us, vs, pr.CostsOf(pick));
    SumPicked(w, pick);
  }
}
