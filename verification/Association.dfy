/** Overlap of boxes and the cost matrix between tracks and detections. */
module Association {
  import opened AssignmentProblem
  import opened RealArithmetic
  import opened Pixels

  datatype Item = Item(x1: real, y1: real, x2: real, y2: real, score: real)

  /** The length two intervals share. */
  function Shared(lo: real, hi: real, lo': real, hi': real): real {
    Max(0.0, Min(hi, hi') - Max(lo, lo'))
  }

  function Area(a: Item): real {
    Times(Max(0.0, a.x2 - a.x1), Max(0.0, a.y2 - a.y1))
  }

  function Intersection(a: Item, b: Item): real {
    Times(Shared(a.x1, a.x2, b.x1, b.x2), Shared(a.y1, a.y2, b.y1, b.y2))
  }

  /** Intersection over union; boxes without area overlap nothing. */
  function Iou(a: Item, b: Item): real {
    var union := Area(a) + Area(b) - Intersection(a, b);
    if union > 0.0 then Over(Intersection(a, b), union) else 0.0
  }

  lemma IntersectionBounds(a: Item, b: Item)
    ensures 0.0 <= Intersection(a, b) <= Area(a) && Intersection(a, b) <= Area(b)
    ensures Intersection(a, b) == Intersection(b, a)
  {
    hide Times;
    var w, h := Shared(a.x1, a.x2, b.x1, b.x2), Shared(a.y1, a.y2, b.y1, b.y2);
    ProductMonotone(w, h, Max(0.0, a.x2 - a.x1), Max(0.0, a.y2 - a.y1));
    ProductMonotone(w, h, Max(0.0, b.x2 - b.x1), Max(0.0, b.y2 - b.y1));
    assert Shared(b.x1, b.x2, a.x1, a.x2) == w && Shared(b.y1, b.y2, a.y1, a.y2) == h;
  }

  /** Overlap is symmetric and between none and all. */
  lemma IouBounds(a: Item, b: Item)
    ensures 0.0 <= Iou(a, b) <= 1.0 && Iou(a, b) == Iou(b, a)
  {
    hide Intersection, Area, Over;
    IntersectionBounds(a, b);
    var union := Area(a) + Area(b) - Intersection(a, b);
    if union > 0.0 {
      QuotientBounds(Intersection(a, b), union);
    }
  }

  /** Overlap is full exactly for one and the same box with area, as far as the overlap can tell. */
  lemma FullOverlap(a: Item, b: Item)
    requires Iou(a, b) == 1.0
    ensures Intersection(a, b) == Area(a) == Area(b) > 0.0
  {
    hide Intersection, Area;
    IntersectionBounds(a, b);
  }

  function PairCost(t: Item, d: Item, fuseScore: bool): real {
    if fuseScore then 1.0 - Times(Iou(t, d), d.score) else 1.0 - Iou(t, d)
  }

  predicate HasArea(a: Item) {
    a.x1 < a.x2 && a.y1 < a.y2
  }

  /** A box with area overlaps itself fully. */
  lemma OverlapsItself(a: Item)
    requires HasArea(a)
    ensures Iou(a, a) == 1.0
  {
    ProductPositive(Max(0.0, a.x2 - a.x1), Max(0.0, a.y2 - a.y1));
    hide Times;
    assert Intersection(a, a) == Area(a) > 0.0;
  }

  /** A track exactly where the detection is costs nothing or, with the detection's score fused in, what the score lacks
      to one; without any overlap the cost is one. */
  lemma CostOfMeeting(t: Item, d: Item)
    ensures HasArea(t) && t.x1 == d.x1 && t.y1 == d.y1 && t.x2 == d.x2 && t.y2 == d.y2 ==>
      PairCost(t, d, false) == 0.0 && PairCost(t, d, true) == 1.0 - d.score
    ensures t.x2 <= d.x1 || d.x2 <= t.x1 || t.y2 <= d.y1 || d.y2 <= t.y1 ==>
      PairCost(t, d, false) == 1.0 && PairCost(t, d, true) == 1.0
  {
    if HasArea(t) && t.x1 == d.x1 && t.y1 == d.y1 && t.x2 == d.x2 && t.y2 == d.y2 {
      OverlapsItself(t);
      hide Times, Over;
      assert Iou(t, d) == Iou(t, t);
      OneTimes(d.score);
    }
  }

  lemma OneTimes(x: real)
    ensures Times(1.0, x) == x
  {
  }

  /** Fusing the score in weighs the overlap with it. */
  lemma FusedCost(t: Item, d: Item)
    ensures 1.0 - PairCost(t, d, true) == (1.0 - PairCost(t, d, false)) * d.score
  {
  }

  /** The corners are those of this grid of cells. */
  ghost predicate OnGrid(a: Item, x1: int, y1: int, x2: int, y2: int) {
    a.x1 == x1 as real && a.y1 == y1 as real && a.x2 == x2 as real && a.y2 == y2 as real
  }

  /** Intersection over union: on whole corners, the number of cells in both boxes over the number in at least one. */
  lemma IouCountsCells(a: Item, b: Item, ax1: int, ay1: int, ax2: int, ay2: int, bx1: int, by1: int, bx2: int, by2: int)
    requires OnGrid(a, ax1, ay1, ax2, ay2) && OnGrid(b, bx1, by1, bx2, by2)
    ensures var p, q := Rectangle(ax1, ay1, ax2 - 1, ay2 - 1), Rectangle(bx1, by1, bx2 - 1, by2 - 1);
      if |p + q| == 0 then Iou(a, b) == 0.0 else Iou(a, b) == |p * q| as real / |p + q| as real
  {
    hide Rectangle, Times, Over;
    var p, q := Rectangle(ax1, ay1, ax2 - 1, ay2 - 1), Rectangle(bx1, by1, bx2 - 1, by2 - 1);
    CellsCount(ax1, ay1, ax2, ay2);
    CellsCount(bx1, by1, bx2, by2);
    RectanglesMeet(ax1, ay1, ax2 - 1, ay2 - 1, bx1, by1, bx2 - 1, by2 - 1);
    CellsCount(if ax1 < bx1 then bx1 else ax1, if ay1 < by1 then by1 else ay1,
               if bx2 < ax2 then bx2 else ax2, if by2 < ay2 then by2 else ay2);
    EitherSize(p, q);
    OverIsQuotient(Intersection(a, b), |p + q| as real);
  }

  lemma CellsCount(x1: int, y1: int, x2: int, y2: int)
    ensures Times(Max(0.0, x2 as real - x1 as real), Max(0.0, y2 as real - y1 as real))
         == |Rectangle(x1, y1, x2 - 1, y2 - 1)| as real
  {
    hide Rectangle;
    RectangleSize(x1, y1, x2 - 1, y2 - 1);
    assert Max(0.0, x2 as real - x1 as real) == Side(x1, x2 - 1) as real;
    assert Max(0.0, y2 as real - y1 as real) == Side(y1, y2 - 1) as real;
  }

  /** Entry (i, j) of a row-major matrix is the cost of track i and detection j. */
  ghost predicate CostsAre(costs: seq<Cost>, ts: seq<Item>, ds: seq<Item>, fuseScore: bool) {
    && |costs| == |ts| * |ds|
    && forall i, j :: 0 <= i < |ts| && 0 <= j < |ds| ==>
       CostAt(costs, |ds|, i, j) == Finite(PairCost(ts[i], ds[j], fuseScore))
  }

  function CostAt(costs: seq<Cost>, width: nat, i: int, j: int): Cost {
    if 0 <= i * width + j < |costs| then costs[i * width + j] else NotFinite
  }

  method CostMatrix(ts: seq<Item>, ds: seq<Item>, fuseScore: bool) returns (costs: seq<Cost>)
    ensures CostsAre(costs, ts, ds, fuseScore)
  {
    costs := [];
    for i := 0 to |ts|
      invariant |costs| == i * |ds|
      invariant CostsAre(costs, ts[..i], ds, fuseScore)
    {
      var row := CostRow(ts[i], ds, fuseScore);
      RowExtends(costs, row, ts, ds, fuseScore, i);
      costs := costs + row;
    }
    assert ts[..|ts|] == ts;
  }

  method CostRow(t: Item, ds: seq<Item>, fuseScore: bool) returns (row: seq<Cost>)
    ensures |row| == |ds| && forall j :: 0 <= j < |ds| ==> row[j] == Finite(PairCost(t, ds[j], fuseScore))
  {
    row := [];
    for j := 0 to |ds|
      invariant |row| == j && forall k :: 0 <= k < j ==> row[k] == Finite(PairCost(t, ds[k], fuseScore))
    {
      var overlap := Iou(t, ds[j]);
      row := row + [Finite(if fuseScore then 1.0 - Times(overlap, ds[j].score) else 1.0 - overlap)];
    }
  }

  lemma RowExtends(costs: seq<Cost>, row: seq<Cost>, ts: seq<Item>, ds: seq<Item>, fuseScore: bool, i: nat)
    requires i < |ts| && |costs| == i * |ds| && CostsAre(costs, ts[..i], ds, fuseScore)
    requires |row| == |ds| && forall j :: 0 <= j < |ds| ==> row[j] == Finite(PairCost(ts[i], ds[j], fuseScore))
    ensures |costs + row| == (i + 1) * |ds| && CostsAre(costs + row, ts[..i + 1], ds, fuseScore)
  {
    hide PairCost;
    var all, w := costs + row, |ds|;
    forall r, c | 0 <= r < i + 1 && 0 <= c < w
      ensures CostAt(all, w, r, c) == Finite(PairCost(ts[..i + 1][r], ds[c], fuseScore))
    {
      if r < i {
        RowBelow(r, i, w, c);
        assert CostAt(costs, w, r, c) == Finite(PairCost(ts[..i][r], ds[c], fuseScore));
      }
    }
  }

  lemma RowBelow(r: nat, i: nat, w: nat, c: nat)
    requires r < i && c < w
    ensures 0 <= r * w + c < i * w
  {
    assert (r + 1) * w <= i * w;
  }
}
