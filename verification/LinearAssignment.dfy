/** The solver the tracker calls: matches, leftover rows and leftover columns. */
module LinearAssignment {
  import opened AssignmentProblem
  import opened Hungarian
  import opened Sums

  /** SizeMismatch stands for the exception about the cost matrix size. */
  datatype Result =
    | SizeMismatch
    | Solved(matches: seq<Match>, unmatchedRows: seq<nat>, unmatchedCols: seq<nat>)

  ghost predicate RowMatched(ms: seq<Match>, row: nat) {
    exists k :: 0 <= k < |ms| && ms[k].row == row
  }

  ghost predicate ColMatched(ms: seq<Match>, col: nat) {
    exists k :: 0 <= k < |ms| && ms[k].col == col
  }

  ghost predicate Ascending(s: seq<nat>) {
    forall i, j :: 0 <= i < j < |s| ==> s[i] < s[j]
  }

  /** Matches and leftovers split rows and columns exactly, leftovers in ascending order. */
  ghost predicate Partitions(rows: nat, cols: nat, r: Result)
    requires r.Solved?
  {
    && Ascending(r.unmatchedRows) && Ascending(r.unmatchedCols)
    && (forall k :: 0 <= k < |r.matches| ==> r.matches[k].row < rows && r.matches[k].col < cols)
    && (forall i, j :: 0 <= i < j < |r.matches| ==>
          r.matches[i].row != r.matches[j].row && r.matches[i].col != r.matches[j].col)
    && (forall row: nat :: row in r.unmatchedRows <==> row < rows && !RowMatched(r.matches, row))
    && (forall col: nat :: col in r.unmatchedCols <==> col < cols && !ColMatched(r.matches, col))
  }

  /** No pair that could still be matched is left on both sides. */
  ghost predicate Maximal(pr: Problem, r: Result)
    requires pr.WellSized() && r.Solved? && Partitions(pr.rows, pr.cols, r)
  {
    forall row, col :: row in r.unmatchedRows && col in r.unmatchedCols ==> !pr.Allowed(row, col)
  }

  ghost predicate Optimal(pr: Problem, ms: seq<Match>)
    requires pr.WellSized()
  {
    pr.Matching(ms) && forall other :: pr.Matching(other) ==> pr.Objective(ms) <= pr.Objective(other)
  }

  /** A certified seating never uses a forbidden pair: some dummy column is free and would be cheaper. */
  lemma SeatsAreAllowed(pr: Problem, u: seq<real>, v: seq<real>, p: seq<nat>, j: nat)
    requires pr.WellSized() && |p| == pr.cols + pr.rows + 1
    requires Certified(pr.Augmented, pr.rows, u, v, p)
    requires 1 <= j <= pr.cols && p[j] != 0
    ensures pr.Allowed(p[j] - 1, j - 1)
  {
    var dummies := p[pr.cols + 1..];
    if forall d :: 0 <= d < |dummies| ==> dummies[d] != 0 {
      TooManySeats([p[j]] + dummies, pr.rows);
    }
    var d :| 0 <= d < |dummies| && dummies[d] == 0;
    assert p[pr.cols + 1 + d] == 0;
    assert u[p[j]] + v[pr.cols + 1 + d] <= pr.Augmented(p[j], pr.cols + 1 + d);
    assert u[p[j]] + v[j] == pr.Augmented(p[j], j);
  }

  ghost predicate SeatsAllowed(pr: Problem, p: seq<nat>)
    requires pr.WellSized() && |p| == pr.cols + pr.rows + 1
  {
    forall j :: 1 <= j <= pr.cols && p[j] != 0 ==> p[j] <= pr.rows && pr.Allowed(p[j] - 1, j - 1)
  }

  lemma AllSeatsAreAllowed(pr: Problem, u: seq<real>, v: seq<real>, p: seq<nat>)
    requires pr.WellSized() && |p| == pr.cols + pr.rows + 1
    requires Certified(pr.Augmented, pr.rows, u, v, p)
    ensures SeatsAllowed(pr, p)
  {
    forall j | 1 <= j <= pr.cols && p[j] != 0 ensures p[j] <= pr.rows && pr.Allowed(p[j] - 1, j - 1) {
      SeatsAreAllowed(pr, u, v, p, j);
    }
  }

  /** A row on a dummy column and a free real column cannot be an allowed pair. */
  lemma LeftoversAreForbidden(pr: Problem, u: seq<real>, v: seq<real>, p: seq<nat>, row: nat, col: nat)
    requires pr.WellSized() && |p| == pr.cols + pr.rows + 1
    requires Certified(pr.Augmented, pr.rows, u, v, p)
    requires row < pr.rows && col < pr.cols
    requires p[col + 1] == 0
    requires forall j :: 1 <= j <= pr.cols ==> p[j] != row + 1
    ensures !pr.Allowed(row, col)
  {
    assert HasSeat(p, row + 1);
    var j :| 1 <= j < |p| && p[j] == row + 1;
    assert u[row + 1] + v[j] == pr.Augmented(row + 1, j);
    assert u[row + 1] + v[col + 1] <= pr.Augmented(row + 1, col + 1);
  }

  /** The matches read off the seating of real columns 1..n. */
  ghost predicate ReadOff(pr: Problem, p: seq<nat>, ms: seq<Match>, n: nat)
    requires |p| == pr.cols + pr.rows + 1
  {
    && (forall k :: 0 <= k < |ms| ==> ms[k].col < pr.cols && ms[k].col < n && p[ms[k].col + 1] == ms[k].row + 1)
    && (forall i, j :: 0 <= i < j < |ms| ==> ms[i].col < ms[j].col)
    && (forall j :: 1 <= j <= n && j <= pr.cols && p[j] != 0 ==> ColMatched(ms, j - 1))
  }

  lemma SeatIsMatch(pr: Problem, p: seq<nat>, ms: seq<Match>, j: nat)
    requires |p| == pr.cols + pr.rows + 1 && ReadOff(pr, p, ms, pr.cols + pr.rows)
    requires 1 <= j <= pr.cols && p[j] != 0
    ensures RowMatched(ms, p[j] - 1)
  {
    assert ColMatched(ms, j - 1);
    var k :| 0 <= k < |ms| && ms[k].col == j - 1;
    assert ms[k].row == p[j] - 1;
  }

  lemma ReadOffIsMatching(pr: Problem, u: seq<real>, v: seq<real>, p: seq<nat>, ms: seq<Match>)
    requires pr.WellSized() && |p| == pr.cols + pr.rows + 1
    requires Certified(pr.Augmented, pr.rows, u, v, p)
    requires ReadOff(pr, p, ms, pr.cols + pr.rows)
    ensures pr.Matching(ms)
  {
    hide Feasible, Tight, Problem.Allowed, Problem.Augmented;
    forall k | 0 <= k < |ms| ensures ms[k].row < pr.rows && pr.Allowed(ms[k].row, ms[k].col) {
      SeatsAreAllowed(pr, u, v, p, ms[k].col + 1);
    }
    forall i, j | 0 <= i < j < |ms| ensures ms[i].row != ms[j].row && ms[i].col != ms[j].col {
      assert p[ms[i].col + 1] == ms[i].row + 1 && p[ms[j].col + 1] == ms[j].row + 1;
    }
  }

  lemma ReadOffCompletes(pr: Problem, p: seq<nat>, ms: seq<Match>)
    requires pr.WellSized() && |p| == pr.cols + pr.rows + 1
    requires Seated(pr.rows, p) && pr.Matching(ms)
    requires ReadOff(pr, p, ms, pr.cols + pr.rows)
    ensures pr.Completes(ms, SeatsOf(pr.rows, p))
  {
    var pick := SeatsOf(pr.rows, p);
    forall r | 0 <= r < pr.rows && pick[r] <= pr.cols ensures exists k :: 0 <= k < |ms| && ms[k].row == r {
      SeatIsMatch(pr, p, ms, pick[r]);
    }
    forall k | 0 <= k < |ms| ensures pick[ms[k].row] == ms[k].col + 1 {
      assert p[pick[ms[k].row]] == ms[k].row + 1 == p[ms[k].col + 1];
    }
  }

  /** The certificate carries over from the seating to the matches. */
  lemma ReadOffOptimal(pr: Problem, u: seq<real>, v: seq<real>, p: seq<nat>, ms: seq<Match>)
    requires pr.WellSized() && |p| == pr.cols + pr.rows + 1
    requires Certified(pr.Augmented, pr.rows, u, v, p)
    requires ReadOff(pr, p, ms, pr.cols + pr.rows)
    ensures Optimal(pr, ms)
  {
    ReadOffIsMatching(pr, u, v, p, ms);
    ReadOffCompletes(pr, p, ms);
    pr.CompletionCost(ms, SeatsOf(pr.rows, p));
    DualReached(pr, u, v, p);
    forall other | pr.Matching(other) ensures pr.Objective(ms) <= pr.Objective(other) {
      pr.CompletionCost(other, pr.Filled(other));
      DualBound(pr, u, v, pr.Filled(other));
    }
  }

  lemma NothingToMatch(pr: Problem)
    requires pr.WellSized() && (pr.rows == 0 || pr.cols == 0)
    ensures Optimal(pr, [])
  {
    forall other | pr.Matching(other) ensures other == [] {
      NoMatches(pr, other);
    }
  }

  /** Without rows or without columns nothing is matched. */
  lemma EmptySolution(pr: Problem, r: Result)
    requires pr.WellSized() && (pr.rows == 0 || pr.cols == 0) && r.Solved? && r.matches == []
    requires Ascending(r.unmatchedRows) && forall i: nat :: i in r.unmatchedRows <==> i < pr.rows
    requires Ascending(r.unmatchedCols) && forall i: nat :: i in r.unmatchedCols <==> i < pr.cols
    ensures Partitions(pr.rows, pr.cols, r) && Maximal(pr, r) && Optimal(pr, r.matches)
  {
    NothingToMatch(pr);
  }

  lemma NoMatches(pr: Problem, ms: seq<Match>)
    requires pr.WellSized() && (pr.rows == 0 || pr.cols == 0) && pr.Matching(ms)
    ensures ms == []
  {
    if |ms| > 0 {
      SomeMatch(pr, ms, 0);
    }
  }

  lemma SomeMatch(pr: Problem, ms: seq<Match>, k: nat)
    requires pr.WellSized() && pr.Matching(ms) && k < |ms|
    ensures pr.rows > 0 && pr.cols > 0
  {
    var m := ms[k];
    assert m.row < pr.rows && m.col < pr.cols;
  }

  method CountUp(n: nat) returns (s: seq<nat>)
    ensures Ascending(s) && forall k: nat :: k in s <==> k < n
  {
    s := [];
    for i := 0 to n
      invariant forall k :: 0 <= k < |s| ==> s[k] < i
      invariant Ascending(s) && forall k: nat :: k in s <==> k < i
    {
      s := s + [i];
    }
  }

  /** The indices whose partner is missing, in ascending order. */
  method Leftover(partner: array<int>) returns (s: seq<nat>)
    ensures Ascending(s) && forall k: nat :: k in s <==> k < partner.Length && partner[k] < 0
  {
    s := [];
    for i := 0 to partner.Length
      invariant forall k :: 0 <= k < |s| ==> s[k] < i
      invariant Ascending(s) && forall k: nat :: k in s <==> k < i && partner[k] < 0
    {
      if partner[i] < 0 {
        s := s + [i];
      }
    }
  }

  /** The partner tables say exactly which rows and columns the matches use. */
  ghost predicate TablesAgree(ms: seq<Match>, rowToCol: seq<int>, colToRow: seq<int>) {
    && (forall r :: 0 <= r < |rowToCol| ==> (rowToCol[r] < 0 <==> !RowMatched(ms, r)))
    && (forall c :: 0 <= c < |colToRow| ==> (colToRow[c] < 0 <==> !ColMatched(ms, c)))
  }

  lemma TablesPush(ms: seq<Match>, rowToCol: seq<int>, colToRow: seq<int>, m: Match)
    requires TablesAgree(ms, rowToCol, colToRow) && m.row < |rowToCol| && m.col < |colToRow|
    ensures TablesAgree(ms + [m], rowToCol[m.row := m.col], colToRow[m.col := m.row])
  {
    PushMatch(ms, m);
  }

  /** Reads the matches off the seating and fills in both partner tables. */
  method ReadMatches(pr: Problem, p: array<nat>, rowToCol: array<int>, colToRow: array<int>)
    returns (ms: seq<Match>)
    requires pr.WellSized() && p.Length == pr.cols + pr.rows + 1
    requires SeatsAllowed(pr, p[..])
    requires rowToCol != colToRow && rowToCol.Length == pr.rows && colToRow.Length == pr.cols
    requires p as object != rowToCol && p as object != colToRow
    requires TablesAgree([], rowToCol[..], colToRow[..])
    modifies rowToCol, colToRow
    ensures ReadOff(pr, p[..], ms, pr.cols + pr.rows)
    ensures TablesAgree(ms, rowToCol[..], colToRow[..])
  {
    hide TablesAgree, ReadOff, Problem.Augmented;
    ms := [];
    ghost var seats := p[..];
    NothingRead(pr, seats);
    for j := 1 to p.Length
      invariant p[..] == seats && ReadOff(pr, seats, ms, j - 1)
      invariant TablesAgree(ms, rowToCol[..], colToRow[..])
    {
      assert p[j] == seats[j];
      ReadSkip(pr, seats, ms, j);
      if p[j] == 0 {
        continue;
      }
      var row, col := p[j] - 1, j - 1;
      if col < pr.cols {
        if pr.Allowed(row, col) {
          ReadOn(pr, seats, ms, j);
          ms := Push(ms, Match(row, col), rowToCol, colToRow);
        }
      }
    }
  }

  method Push(ms: seq<Match>, m: Match, rowToCol: array<int>, colToRow: array<int>) returns (all: seq<Match>)
    requires rowToCol != colToRow && m.row < rowToCol.Length && m.col < colToRow.Length
    requires TablesAgree(ms, rowToCol[..], colToRow[..])
    modifies rowToCol, colToRow
    ensures all == ms + [m]
    ensures TablesAgree(all, rowToCol[..], colToRow[..])
  {
    TablesPush(ms, rowToCol[..], colToRow[..], m);
    rowToCol[m.row] := m.col;
    colToRow[m.col] := m.row;
    assert rowToCol[..] == old(rowToCol[..])[m.row := m.col] && colToRow[..] == old(colToRow[..])[m.col := m.row];
    all := ms + [m];
  }

  lemma NothingRead(pr: Problem, p: seq<nat>)
    requires |p| == pr.cols + pr.rows + 1
    ensures ReadOff(pr, p, [], 0)
  {
  }

  lemma ReadSkip(pr: Problem, p: seq<nat>, ms: seq<Match>, j: nat)
    requires 1 <= j < |p|
    requires |p| == pr.cols + pr.rows + 1 && ReadOff(pr, p, ms, j - 1)
    ensures p[j] == 0 || pr.cols < j ==> ReadOff(pr, p, ms, j)
  {
  }

  lemma ReadOn(pr: Problem, p: seq<nat>, ms: seq<Match>, j: nat)
    requires 1 <= j <= pr.cols
    requires |p| == pr.cols + pr.rows + 1 && ReadOff(pr, p, ms, j - 1) && p[j] != 0
    ensures ReadOff(pr, p, ms + [Match(p[j] - 1, j - 1)], j)
  {
    PushMatch(ms, Match(p[j] - 1, j - 1));
  }

  lemma PushMatch(ms: seq<Match>, m: Match)
    ensures forall r :: RowMatched(ms + [m], r) <==> RowMatched(ms, r) || r == m.row
    ensures forall c :: ColMatched(ms + [m], c) <==> ColMatched(ms, c) || c == m.col
  {
    var t := ms + [m];
    assert t[|ms|] == m;
    forall r | RowMatched(ms, r) ensures RowMatched(t, r) {
      var k :| 0 <= k < |ms| && ms[k].row == r;
      assert t[k].row == r;
    }
    forall c | ColMatched(ms, c) ensures ColMatched(t, c) {
      var k :| 0 <= k < |ms| && ms[k].col == c;
      assert t[k].col == c;
    }
  }

  // ---------- the same in terms of the matrix

  /** Row and column may be paired: their entry, in row-major order, is a number and within the limit. */
  predicate MayPair(costs: seq<Cost>, cols: nat, maxCost: real, row: nat, col: nat) {
    var k := row * cols + col;
    k < |costs| && costs[k].Finite? && costs[k].value <= maxCost
  }

  ghost predicate MayPairAll(costs: seq<Cost>, rows: nat, cols: nat, maxCost: real, ms: seq<Match>) {
    && (forall k :: 0 <= k < |ms| ==>
          ms[k].row < rows && ms[k].col < cols && MayPair(costs, cols, maxCost, ms[k].row, ms[k].col))
    && (forall i, j :: 0 <= i < j < |ms| ==> ms[i].row != ms[j].row && ms[i].col != ms[j].col)
  }

  function PairCosts(costs: seq<Cost>, cols: nat, ms: seq<Match>): (r: seq<real>)
    ensures |r| == |ms|
  {
    seq(|ms|, k requires 0 <= k < |ms| => EntryValue(costs, ms[k].row * cols + ms[k].col))
  }

  function EntryValue(costs: seq<Cost>, k: nat): real {
    if k < |costs| && costs[k].Finite? then costs[k].value else 0.0
  }

  /** The costs of the pairs, and for each row left alone a millionth more than the limit. */
  function TotalCost(costs: seq<Cost>, rows: nat, cols: nat, maxCost: real, ms: seq<Match>): real {
    Sum(PairCosts(costs, cols, ms)) + (maxCost + 0.000001) * (rows - |ms|) as real
  }

  /** No way of pairing rows and columns within the limit costs less in total. */
  ghost predicate LeastTotal(costs: seq<Cost>, rows: nat, cols: nat, maxCost: real, ms: seq<Match>) {
    && MayPairAll(costs, rows, cols, maxCost, ms)
    && forall other :: MayPairAll(costs, rows, cols, maxCost, other) ==>
         TotalCost(costs, rows, cols, maxCost, ms) <= TotalCost(costs, rows, cols, maxCost, other)
  }

  /** Nothing that may be paired is left over on both sides. */
  ghost predicate NoneLeft(costs: seq<Cost>, cols: nat, maxCost: real, r: Result)
    requires r.Solved?
  {
    forall row, col :: row in r.unmatchedRows && col in r.unmatchedCols ==> !MayPair(costs, cols, maxCost, row, col)
  }

  lemma AllowedIffMayPair(pr: Problem, row: nat, col: nat)
    requires pr.WellSized() && row < pr.rows && col < pr.cols
    ensures pr.Allowed(row, col) <==> MayPair(pr.costs, pr.cols, pr.maxCost, row, col)
    ensures pr.Allowed(row, col) ==> pr.Entry(row, col).value == EntryValue(pr.costs, row * pr.cols + col)
  {
    pr.EntryInRange(row, col);
  }

  lemma MatchingIffMayPairAll(pr: Problem, ms: seq<Match>)
    requires pr.WellSized()
    ensures pr.Matching(ms) <==> MayPairAll(pr.costs, pr.rows, pr.cols, pr.maxCost, ms)
  {
    hide Problem.Allowed, MayPair;
    forall k | 0 <= k < |ms| && ms[k].row < pr.rows && ms[k].col < pr.cols
      ensures pr.Allowed(ms[k].row, ms[k].col) <==> MayPair(pr.costs, pr.cols, pr.maxCost, ms[k].row, ms[k].col)
    {
      AllowedIffMayPair(pr, ms[k].row, ms[k].col);
    }
  }

  lemma {:induction false} MatchedCostIsSum(pr: Problem, ms: seq<Match>)
    requires pr.WellSized() && pr.Matching(ms)
    ensures pr.MatchedCost(ms) == Sum(PairCosts(pr.costs, pr.cols, ms))
  {
    if ms != [] {
      var rest, m := ms[..|ms| - 1], ms[|ms| - 1];
      MatchedCostIsSum(pr, rest);
      AllowedIffMayPair(pr, m.row, m.col);
      PairCostsFront(pr.costs, pr.cols, ms);
    }
  }

  lemma PairCostsFront(costs: seq<Cost>, cols: nat, ms: seq<Match>)
    requires ms != []
    ensures PairCosts(costs, cols, ms)[..|ms| - 1] == PairCosts(costs, cols, ms[..|ms| - 1])
    ensures PairCosts(costs, cols, ms)[|ms| - 1]
         == EntryValue(costs, ms[|ms| - 1].row * cols + ms[|ms| - 1].col)
  {
  }

  lemma ObjectiveIsTotal(pr: Problem, ms: seq<Match>)
    requires pr.WellSized() && pr.Matching(ms)
    ensures MayPairAll(pr.costs, pr.rows, pr.cols, pr.maxCost, ms)
    ensures pr.Objective(ms) == TotalCost(pr.costs, pr.rows, pr.cols, pr.maxCost, ms)
  {
    hide Problem.Matching, MayPairAll, Sum, PairCosts;
    MatchingIffMayPairAll(pr, ms);
    MatchedCostIsSum(pr, ms);
  }

  lemma OptimalIsLeast(pr: Problem, ms: seq<Match>)
    requires pr.WellSized() && Optimal(pr, ms)
    ensures LeastTotal(pr.costs, pr.rows, pr.cols, pr.maxCost, ms)
  {
    hide Problem.Matching, MayPairAll, Problem.Objective, TotalCost;
    ObjectiveIsTotal(pr, ms);
    forall other | MayPairAll(pr.costs, pr.rows, pr.cols, pr.maxCost, other)
      ensures TotalCost(pr.costs, pr.rows, pr.cols, pr.maxCost, ms)
           <= TotalCost(pr.costs, pr.rows, pr.cols, pr.maxCost, other)
    {
      MatchingIffMayPairAll(pr, other);
      ObjectiveIsTotal(pr, other);
    }
  }

  lemma MaximalLeavesNone(pr: Problem, r: Result)
    requires pr.WellSized() && r.Solved? && Partitions(pr.rows, pr.cols, r) && Maximal(pr, r)
    ensures NoneLeft(pr.costs, pr.cols, pr.maxCost, r)
  {
    hide MayPair, Problem.Allowed, Ascending, RowMatched, ColMatched;
    forall row, col | row in r.unmatchedRows && col in r.unmatchedCols
      ensures !MayPair(pr.costs, pr.cols, pr.maxCost, row, col)
    {
      AllowedIffMayPair(pr, row, col);
    }
  }

  /** Minimum-cost assignment with a cost limit. */
  method Solve(costs: seq<Cost>, rows: nat, cols: nat, maxCost: real) returns (r: Result)
    ensures r.SizeMismatch? <==> |costs| != rows * cols
    ensures r.Solved? ==> Partitions(rows, cols, r)
    ensures r.Solved? ==> Maximal(Problem(rows, cols, costs, maxCost), r)
    ensures r.Solved? ==> Optimal(Problem(rows, cols, costs, maxCost), r.matches)
    ensures r.Solved? ==>
      LeastTotal(costs, rows, cols, maxCost, r.matches) && NoneLeft(costs, cols, maxCost, r)
  {
    if |costs| != rows * cols {
      return SizeMismatch;
    }
    var pr := Problem(rows, cols, costs, maxCost);
    if rows == 0 || cols == 0 {
      var allRows := CountUp(rows);
      var allCols := CountUp(cols);
      r := Solved([], allRows, allCols);
      EmptySolution(pr, r);
      OptimalIsLeast(pr, r.matches);
      MaximalLeavesNone(pr, r);
      return;
    }
    hide Certified, ReadOff, Optimal, Maximal, SeatsAllowed, TablesAgree, RowMatched, ColMatched, Problem.Augmented,
         Partitions, Ascending, LeastTotal, NoneLeft;
    var a := (i: int, j: int) => pr.Augmented(i, j);
    var p, u, v := Seat(a, rows, cols + rows);
    CertifiedByName(pr, a, u, v, p[..]);
    var rowToCol := new int[rows](_ => -1);
    var colToRow := new int[cols](_ => -1);
    AllSeatsAreAllowed(pr, u, v, p[..]);
    var matches := ReadMatches(pr, p, rowToCol, colToRow);
    var unmatchedRows := Leftover(rowToCol);
    var unmatchedCols := Leftover(colToRow);
    r := Solved(matches, unmatchedRows, unmatchedCols);
    Conclude(pr, u, v, p[..], r);
    OptimalIsLeast(pr, r.matches);
    MaximalLeavesNone(pr, r);
  }

  lemma CertifiedByName(pr: Problem, a: (int, int) -> real, u: seq<real>, v: seq<real>, p: seq<nat>)
    requires forall i, j :: a(i, j) == pr.Augmented(i, j)
    requires Certified(a, pr.rows, u, v, p)
    ensures Certified(pr.Augmented, pr.rows, u, v, p)
  {
  }

  lemma Conclude(pr: Problem, u: seq<real>, v: seq<real>, p: seq<nat>, r: Result)
    requires pr.WellSized() && |p| == pr.cols + pr.rows + 1
    requires Certified(pr.Augmented, pr.rows, u, v, p)
    requires r.Solved? && ReadOff(pr, p, r.matches, pr.cols + pr.rows)
    requires Ascending(r.unmatchedRows) && Ascending(r.unmatchedCols)
    requires forall row: nat :: row in r.unmatchedRows <==> row < pr.rows && !RowMatched(r.matches, row)
    requires forall col: nat :: col in r.unmatchedCols <==> col < pr.cols && !ColMatched(r.matches, col)
    ensures Partitions(pr.rows, pr.cols, r) && Maximal(pr, r) && Optimal(pr, r.matches)
  {
    ReadOffIsMatching(pr, u, v, p, r.matches);
    ReadOffOptimal(pr, u, v, p, r.matches);
    forall row, col | row in r.unmatchedRows && col in r.unmatchedCols ensures !pr.Allowed(row, col) {
      forall j | 1 <= j <= pr.cols && p[j] == row + 1 ensures false {
        SeatIsMatch(pr, p, r.matches, j);
      }
      assert p[col + 1] == 0;
      LeftoversAreForbidden(pr, u, v, p, row, col);
    }
  }
}
