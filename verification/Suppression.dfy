/** Thinning out overlapping face detections, best first. */
module Suppression {
  import opened RealArithmetic
  import opened STracks
  import opened Pixels

  /** The extent of an interval whose end points both belong to it. */
  function Extent(low: real, high: real): real {
    Max(0.0, high - low + 1.0)
  }

  function Area(d: FaceDetection): real {
    Times(Extent(d.x1, d.x2), Extent(d.y1, d.y2))
  }

  function Overlap(a: FaceDetection, b: FaceDetection): real {
    Times(Extent(Max(a.x1, b.x1), Min(a.x2, b.x2)), Extent(Max(a.y1, b.y1), Min(a.y2, b.y2)))
  }

  /** Intersection over union of two boxes with inclusive corners. */
  function IouInclusive(a: FaceDetection, b: FaceDetection): real {
    var denominator := Area(a) + Area(b) - Overlap(a, b);
    if denominator <= 0.0 then 0.0 else Over(Overlap(a, b), denominator)
  }

  lemma OverlapFits(a: FaceDetection, b: FaceDetection)
    ensures 0.0 <= Overlap(a, b) <= Area(a) && Overlap(a, b) <= Area(b)
  {
    hide Times;
    ProductMonotone(Extent(Max(a.x1, b.x1), Min(a.x2, b.x2)), Extent(Max(a.y1, b.y1), Min(a.y2, b.y2)),
                    Extent(a.x1, a.x2), Extent(a.y1, a.y2));
    ProductMonotone(Extent(Max(a.x1, b.x1), Min(a.x2, b.x2)), Extent(Max(a.y1, b.y1), Min(a.y2, b.y2)),
                    Extent(b.x1, b.x2), Extent(b.y1, b.y2));
  }

  /** The overlap does not depend on the order of the boxes and is a fraction. */
  lemma IouIsSymmetricFraction(a: FaceDetection, b: FaceDetection)
    ensures IouInclusive(a, b) == IouInclusive(b, a) && 0.0 <= IouInclusive(a, b) <= 1.0
  {
    OverlapFits(a, b);
    hide Times, Over;
    var denominator := Area(a) + Area(b) - Overlap(a, b);
    if denominator > 0.0 {
      QuotientBounds(Overlap(a, b), denominator);
    }
  }

  /** A detection overlaps itself fully. */
  lemma OverlapsItself(d: FaceDetection)
    requires d.x1 <= d.x2 && d.y1 <= d.y2
    ensures IouInclusive(d, d) == 1.0
  {
    ProductPositive(Extent(d.x1, d.x2), Extent(d.y1, d.y2));
    hide Times;
    assert Overlap(d, d) == Area(d);
  }

  /** The corners are those of this grid of pixels. */
  ghost predicate OnGrid(d: FaceDetection, x1: int, y1: int, x2: int, y2: int) {
    d.x1 == x1 as real && d.y1 == y1 as real && d.x2 == x2 as real && d.y2 == y2 as real
  }

  /** Intersection over union: on whole corners, the number of pixels in both boxes over the number in at least one. */
  lemma IouCountsPixels(a: FaceDetection, b: FaceDetection, ax1: int, ay1: int, ax2: int, ay2: int,
                        bx1: int, by1: int, bx2: int, by2: int)
    requires OnGrid(a, ax1, ay1, ax2, ay2) && OnGrid(b, bx1, by1, bx2, by2)
    ensures var p, q := Rectangle(ax1, ay1, ax2, ay2), Rectangle(bx1, by1, bx2, by2);
      if |p + q| == 0 then IouInclusive(a, b) == 0.0
      else IouInclusive(a, b) == |p * q| as real / |p + q| as real
  {
    hide Rectangle, Times, Over;
    var p, q := Rectangle(ax1, ay1, ax2, ay2), Rectangle(bx1, by1, bx2, by2);
    AreaCounts(ax1, ay1, ax2, ay2);
    AreaCounts(bx1, by1, bx2, by2);
    RectanglesMeet(ax1, ay1, ax2, ay2, bx1, by1, bx2, by2);
    AreaCounts(if ax1 < bx1 then bx1 else ax1, if ay1 < by1 then by1 else ay1,
               if bx2 < ax2 then bx2 else ax2, if by2 < ay2 then by2 else ay2);
    EitherSize(p, q);
    OverIsQuotient(Overlap(a, b), |p + q| as real);
  }

  lemma AreaCounts(x1: int, y1: int, x2: int, y2: int)
    ensures Times(Extent(x1 as real, x2 as real), Extent(y1 as real, y2 as real)) == |Rectangle(x1, y1, x2, y2)| as real
  {
    hide Rectangle;
    RectangleSize(x1, y1, x2, y2);
    assert Extent(x1 as real, x2 as real) == Side(x1, x2) as real;
    assert Extent(y1 as real, y2 as real) == Side(y1, y2) as real;
  }

  // ---------- which detections stay

  predicate SortedByScore(ds: seq<FaceDetection>) {
    forall i, j :: 0 <= i < j < |ds| ==> ds[i].score >= ds[j].score
  }

  /** keep marks exactly the detections that no earlier marked one overlaps by more than the threshold. */
  ghost predicate IsKernel(ds: seq<FaceDetection>, keep: seq<bool>, threshold: real) {
    |keep| == |ds| && forall i :: 0 <= i < |ds| ==> (keep[i] <==> ClearBefore(ds, keep, threshold, i))
  }

  ghost predicate ClearBefore(ds: seq<FaceDetection>, keep: seq<bool>, threshold: real, i: nat)
    requires |keep| >= i && |ds| > i
  {
    forall j :: 0 <= j < i && keep[j] ==> IouInclusive(ds[i], ds[j]) <= threshold
  }

  /** The marked detections, in order. */
  function Select(ds: seq<FaceDetection>, keep: seq<bool>): seq<FaceDetection>
    requires |keep| == |ds|
  {
    if ds == [] then [] else
    var rest := Select(ds[..|ds| - 1], keep[..|ds| - 1]);
    if keep[|ds| - 1] then rest + [ds[|ds| - 1]] else rest
  }

  lemma {:induction false} KernelIsUnique(ds: seq<FaceDetection>, a: seq<bool>, b: seq<bool>, threshold: real, n: nat)
    requires IsKernel(ds, a, threshold) && IsKernel(ds, b, threshold) && n <= |ds|
    ensures a[..n] == b[..n]
  {
    hide IouInclusive;
    if n > 0 {
      KernelIsUnique(ds, a, b, threshold, n - 1);
      forall j | 0 <= j < n - 1 ensures a[j] == b[j] {
        assert a[..n - 1][j] == b[..n - 1][j];
      }
      assert ClearBefore(ds, a, threshold, n - 1) <==> ClearBefore(ds, b, threshold, n - 1);
      assert a[..n] == a[..n - 1] + [a[n - 1]] && b[..n] == b[..n - 1] + [b[n - 1]];
    }
  }

  /** No two detections that stay overlap by more than the threshold; each one that goes is overlapped by one that stays
      and scores at least as high. */
  lemma KernelSeparatesAndCovers(ds: seq<FaceDetection>, keep: seq<bool>, threshold: real)
    requires IsKernel(ds, keep, threshold) && SortedByScore(ds)
    ensures forall i, j :: 0 <= i < |ds| && 0 <= j < |ds| && i != j && keep[i] && keep[j] ==>
      IouInclusive(ds[i], ds[j]) <= threshold
    ensures forall i :: 0 <= i < |ds| && !keep[i] ==> Covered(ds, keep, threshold, i)
  {
    hide IouInclusive;
    forall i, j | 0 <= i < |ds| && 0 <= j < |ds| && i != j && keep[i] && keep[j]
      ensures IouInclusive(ds[i], ds[j]) <= threshold
    {
      IouIsSymmetricFraction(ds[i], ds[j]);
      assert ClearBefore(ds, keep, threshold, i) && ClearBefore(ds, keep, threshold, j);
    }
    forall i | 0 <= i < |ds| && !keep[i] ensures Covered(ds, keep, threshold, i) {
      assert !ClearBefore(ds, keep, threshold, i);
    }
  }

  ghost predicate Covered(ds: seq<FaceDetection>, keep: seq<bool>, threshold: real, i: nat)
    requires |keep| == |ds| && i < |ds|
  {
    exists j :: 0 <= j < |ds| && keep[j] && IouInclusive(ds[i], ds[j]) > threshold && ds[j].score >= ds[i].score
  }

  /** kept is what the kernel of the candidates leaves, in some order of falling scores. */
  ghost predicate Greedy(candidates: seq<FaceDetection>, kept: seq<FaceDetection>, threshold: real) {
    exists sorted, keep :: GreedyBy(candidates, kept, threshold, sorted, keep)
  }

  ghost predicate GreedyBy(candidates: seq<FaceDetection>, kept: seq<FaceDetection>, threshold: real,
                           sorted: seq<FaceDetection>, keep: seq<bool>) {
    && SortedByScore(sorted) && multiset(sorted) == multiset(candidates)
    && IsKernel(sorted, keep, threshold) && kept == Select(sorted, keep)
  }

  /** Something kept overlaps the detection by more than the threshold and scores at least as high. */
  ghost predicate CoveredIn(kept: seq<FaceDetection>, d: FaceDetection, threshold: real) {
    exists k :: k in kept && IouInclusive(d, k) > threshold && k.score >= d.score
  }

  predicate DistinctScores(ds: seq<FaceDetection>) {
    forall i, j :: 0 <= i < |ds| && 0 <= j < |ds| && ds[i].score == ds[j].score ==> i == j
  }

  lemma {:induction false} NoRepeats(ds: seq<FaceDetection>)
    requires DistinctScores(ds)
    ensures forall x :: multiset(ds)[x] <= 1
  {
    if ds != [] {
      var n := |ds| - 1;
      NoRepeats(ds[..n]);
      assert ds == ds[..n] + [ds[n]];
      assert ds[n] !in ds[..n];
    }
  }

  lemma CountTwo(ds: seq<FaceDetection>, i: nat, j: nat)
    requires i < j < |ds| && ds[i] == ds[j]
    ensures multiset(ds)[ds[i]] >= 2
  {
    assert ds == ds[..j] + [ds[j]] + ds[j + 1..];
    assert ds[i] in multiset(ds[..j]) by {
      assert ds[..j][i] == ds[i];
    }
  }

  lemma DistinctWhateverOrder(ds: seq<FaceDetection>, s: seq<FaceDetection>)
    requires multiset(s) == multiset(ds) && DistinctScores(ds)
    ensures DistinctScores(s)
  {
    NoRepeats(ds);
    forall i | 0 <= i < |s| ensures s[i] in ds {
      assert s[i] in multiset(s);
    }
    forall i, j | 0 <= i < j < |s| ensures s[i] != s[j] {
      if s[i] == s[j] {
        CountTwo(s, i, j);
      }
    }
  }

  /** Without ties there is only one order of falling scores. */
  lemma {:induction false} OneOrder(s: seq<FaceDetection>, t: seq<FaceDetection>)
    requires SortedByScore(s) && SortedByScore(t) && multiset(s) == multiset(t) && DistinctScores(s)
    ensures s == t
  {
    hide SortedByScore;
    SameLength(s, t);
    if s != [] {
      SameHead(s, t);
      SameTail(s, t);
      TailIsSorted(s);
      TailIsSorted(t);
      OneOrder(s[1..], t[1..]);
      assert s == [s[0]] + s[1..] && t == [t[0]] + t[1..];
    }
  }

  lemma SameLength(s: seq<FaceDetection>, t: seq<FaceDetection>)
    requires multiset(s) == multiset(t)
    ensures |s| == |t|
  {
    assert |multiset(s)| == |s| && |multiset(t)| == |t|;
  }

  lemma TailIsSorted(s: seq<FaceDetection>)
    requires SortedByScore(s) && |s| > 0
    ensures SortedByScore(s[1..])
  {
  }

  lemma FirstIsHighest(s: seq<FaceDetection>, i: nat)
    requires SortedByScore(s) && i < |s|
    ensures s[0].score >= s[i].score
  {
  }

  lemma SameTail(s: seq<FaceDetection>, t: seq<FaceDetection>)
    requires |s| > 0 && |t| > 0 && s[0] == t[0] && multiset(s) == multiset(t)
    ensures multiset(s[1..]) == multiset(t[1..])
  {
    assert s == [s[0]] + s[1..] && t == [t[0]] + t[1..];
    assert multiset(s[1..]) == multiset(s) - multiset{s[0]} == multiset(t[1..]);
  }

  lemma SameHead(s: seq<FaceDetection>, t: seq<FaceDetection>)
    requires SortedByScore(s) && SortedByScore(t) && multiset(s) == multiset(t) && DistinctScores(s) && |s| == |t| > 0
    ensures s[0] == t[0]
  {
    assert s[0] in multiset(t) && t[0] in multiset(s);
    var i :| 0 <= i < |t| && t[i] == s[0];
    var j :| 0 <= j < |s| && s[j] == t[0];
    FirstIsHighest(s, j);
    FirstIsHighest(t, i);
  }

  /** Without ties the result is determined. */
  lemma GreedyIsUnique(candidates: seq<FaceDetection>, a: seq<FaceDetection>, b: seq<FaceDetection>, threshold: real)
    requires Greedy(candidates, a, threshold) && Greedy(candidates, b, threshold) && DistinctScores(candidates)
    ensures a == b
  {
    hide SortedByScore, Select, DistinctScores, ClearBefore;
    var s, k :| GreedyBy(candidates, a, threshold, s, k);
    var t, l :| GreedyBy(candidates, b, threshold, t, l);
    DistinctWhateverOrder(candidates, s);
    OneOrder(s, t);
    KernelIsUnique(s, k, l, threshold, |s|);
    assert k == k[..|s|] && l == l[..|s|];
  }

  // ---------- the algorithm

  /** Orders the detections by falling score. */
  method SortByScore(ds: seq<FaceDetection>) returns (out: seq<FaceDetection>)
    ensures SortedByScore(out) && multiset(out) == multiset(ds)
  {
    out := [];
    for n := 0 to |ds|
      invariant SortedByScore(out)
      invariant multiset(out) == multiset(ds[..n])
    {
      hide SortedByScore;
      var k := |out|;
      while k > 0 && out[k - 1].score < ds[n].score
        invariant 0 <= k <= |out|
        invariant forall i :: k <= i < |out| ==> out[i].score < ds[n].score
      {
        k := k - 1;
      }
      assert ds[..n + 1] == ds[..n] + [ds[n]];
      InsertKeepsSorted(out, k, ds[n]);
      InsertAdds(out, k, ds[n]);
      out := out[..k] + [ds[n]] + out[k..];
    }
    assert ds[..|ds|] == ds;
  }

  lemma InsertKeepsSorted(out: seq<FaceDetection>, k: nat, d: FaceDetection)
    requires SortedByScore(out) && k <= |out|
    requires forall i :: k <= i < |out| ==> out[i].score < d.score
    requires k > 0 ==> out[k - 1].score >= d.score
    ensures SortedByScore(out[..k] + [d] + out[k..])
  {
    var longer := out[..k] + [d] + out[k..];
    forall i, j | 0 <= i < j < |longer| ensures longer[i].score >= longer[j].score {
      InsertedAt(out, k, d, i);
      InsertedAt(out, k, d, j);
      InsertedInOrder(out, k, d, i, j);
    }
  }

  lemma InsertAdds(out: seq<FaceDetection>, k: nat, d: FaceDetection)
    requires k <= |out|
    ensures multiset(out[..k] + [d] + out[k..]) == multiset(out) + multiset{d}
  {
    assert out == out[..k] + out[k..];
  }

  lemma InsertedAt(out: seq<FaceDetection>, k: nat, d: FaceDetection, i: nat)
    requires k <= |out| && i <= |out|
    ensures (out[..k] + [d] + out[k..])[i] == Inserted(out, k, d, i)
  {
  }

  lemma InsertedInOrder(out: seq<FaceDetection>, k: nat, d: FaceDetection, i: nat, j: nat)
    requires SortedByScore(out) && k <= |out| && i < j <= |out|
    requires forall i :: k <= i < |out| ==> out[i].score < d.score
    requires k > 0 ==> out[k - 1].score >= d.score
    ensures Inserted(out, k, d, i).score >= Inserted(out, k, d, j).score
  {
    if i < k && k - 1 != i {
      assert out[i].score >= out[k - 1].score;
    }
    if i < k < j {
      assert out[j - 1].score < d.score;
    }
  }

  function Inserted(out: seq<FaceDetection>, k: nat, d: FaceDetection, i: nat): FaceDetection
    requires k <= |out| && i <= |out|
  {
    if i < k then out[i] else if i == k then d else out[i - 1]
  }

  /** One of the kept detections overlaps the candidate by more than the threshold. */
  method Suppresses(kept: seq<FaceDetection>, candidate: FaceDetection, threshold: real) returns (suppressed: bool)
    ensures suppressed <==> exists d :: d in kept && IouInclusive(candidate, d) > threshold
  {
    hide IouInclusive;
    suppressed := false;
    for a := 0 to |kept|
      invariant !suppressed ==> forall k :: 0 <= k < a ==> IouInclusive(candidate, kept[k]) <= threshold
    {
      if IouInclusive(candidate, kept[a]) > threshold {
        suppressed := true;
        assert kept[a] in kept;
        break;
      }
    }
  }

  /** Keeps the detections the kernel of the sorted list marks. */
  method Nms(candidates: seq<FaceDetection>, threshold: real) returns (kept: seq<FaceDetection>)
    ensures Greedy(candidates, kept, threshold) && SortedByScore(kept) && Separate(kept, threshold)
    ensures forall d :: d in kept ==> d in candidates
    ensures forall d :: d in candidates && d !in kept ==> CoveredIn(kept, d, threshold)
  {
    hide IouInclusive, ClearBefore, Select, Separate, SortedByScore, CoveredIn;
    var ds := SortByScore(candidates);
    kept := [];
    ghost var keep: seq<bool> := [];
    assert Select(ds[..0], keep) == [] by {
      NothingSelected(ds);
    }
    for n := 0 to |ds|
      invariant |keep| == n && kept == Select(ds[..n], keep)
      invariant forall i :: 0 <= i < n ==> (keep[i] <==> ClearBefore(ds, keep, threshold, i))
    {
      var suppressed := Suppresses(kept, ds[n], threshold);
      ClearOfSelected(ds, keep, threshold, n);
      StillClear(ds, keep, keep + [!suppressed], threshold, n);
      SelectOneMore(ds, keep, !suppressed, n);
      keep := keep + [!suppressed];
      if !suppressed {
        kept := kept + [ds[n]];
      }
    }
    assert ds[..|ds|] == ds;
    assert GreedyBy(candidates, kept, threshold, ds, keep);
    NmsKeepsTheBest(candidates, ds, keep, kept, threshold);
  }

  ghost predicate Marked(ds: seq<FaceDetection>, keep: seq<bool>, d: FaceDetection)
    requires |keep| == |ds|
  {
    exists i :: 0 <= i < |ds| && keep[i] && ds[i] == d
  }

  lemma {:induction false} SelectedAre(ds: seq<FaceDetection>, keep: seq<bool>)
    requires |keep| == |ds|
    ensures forall d :: d in Select(ds, keep) <==> Marked(ds, keep, d)
  {
    if ds != [] {
      var n := |ds| - 1;
      SelectedAre(ds[..n], keep[..n]);
      forall d ensures Marked(ds, keep, d) <==> Marked(ds[..n], keep[..n], d) || (keep[n] && ds[n] == d) {
        MarkedGrows(ds, keep, d);
      }
    }
  }

  lemma MarkedGrows(ds: seq<FaceDetection>, keep: seq<bool>, d: FaceDetection)
    requires |keep| == |ds| > 0
    ensures var n := |ds| - 1; Marked(ds, keep, d) <==> Marked(ds[..n], keep[..n], d) || (keep[n] && ds[n] == d)
  {
    var n := |ds| - 1;
    if Marked(ds[..n], keep[..n], d) {
      var i :| 0 <= i < n && keep[..n][i] && ds[..n][i] == d;
      assert keep[i] && ds[i] == d;
    }
    if Marked(ds, keep, d) && !(keep[n] && ds[n] == d) {
      var i :| 0 <= i < |ds| && keep[i] && ds[i] == d;
      assert keep[..n][i] && ds[..n][i] == d;
    }
  }

  /** A candidate is clear of the selected detections exactly when it is clear of the marked ones. */
  lemma ClearOfSelected(ds: seq<FaceDetection>, keep: seq<bool>, threshold: real, n: nat)
    requires n < |ds| && |keep| == n
    ensures ClearBefore(ds, keep, threshold, n) <==>
      !exists d :: d in Select(ds[..n], keep) && IouInclusive(ds[n], d) > threshold
  {
    hide IouInclusive;
    SelectedAre(ds[..n], keep);
    if d :| d in Select(ds[..n], keep) && IouInclusive(ds[n], d) > threshold {
      assert Marked(ds[..n], keep, d);
      var j :| 0 <= j < n && keep[j] && ds[..n][j] == d;
      assert ds[j] == d;
    } else {
      forall j | 0 <= j < n && keep[j] ensures IouInclusive(ds[n], ds[j]) <= threshold {
        assert ds[..n][j] == ds[j];
        assert Marked(ds[..n], keep, ds[j]);
      }
    }
  }

  lemma NothingSelected(ds: seq<FaceDetection>)
    ensures Select(ds[..0], []) == []
  {
  }

  lemma SelectOneMore(ds: seq<FaceDetection>, keep: seq<bool>, more: bool, n: nat)
    requires n < |ds| && |keep| == n
    ensures Select(ds[..n + 1], keep + [more]) == if more then Select(ds[..n], keep) + [ds[n]]
      else Select(ds[..n], keep)
  {
    assert ds[..n + 1][..n] == ds[..n] && (keep + [more])[..n] == keep;
  }

  lemma StillClear(ds: seq<FaceDetection>, before: seq<bool>, keep: seq<bool>, threshold: real, n: nat)
    requires n < |ds| && |before| == n && |keep| == n + 1 && keep[..n] == before
    ensures forall i :: 0 <= i <= n ==> (ClearBefore(ds, keep, threshold, i) <==> ClearBefore(ds, before, threshold, i))
  {
    hide IouInclusive;
    assert forall j :: 0 <= j < n ==> keep[j] == before[j];
  }

  /** Thinning out a second time changes nothing. */
  lemma {:induction false} KernelOfKept(ds: seq<FaceDetection>, again: seq<bool>, threshold: real, n: nat)
    requires IsKernel(ds, again, threshold) && n <= |ds|
    requires forall i, j :: 0 <= i < |ds| && 0 <= j < |ds| && i != j ==> IouInclusive(ds[i], ds[j]) <= threshold
    ensures forall i :: 0 <= i < n ==> again[i]
    ensures Select(ds[..n], again[..n]) == ds[..n]
  {
    hide IouInclusive;
    if n > 0 {
      KernelOfKept(ds, again, threshold, n - 1);
      assert ClearBefore(ds, again, threshold, n - 1);
      assert ds[..n][..n - 1] == ds[..n - 1] && again[..n][..n - 1] == again[..n - 1];
    }
  }

  /** No two of the list overlap by more than the threshold. */
  ghost predicate Separate(ds: seq<FaceDetection>, threshold: real) {
    forall i, j :: 0 <= i < |ds| && 0 <= j < |ds| && i != j ==> IouInclusive(ds[i], ds[j]) <= threshold
  }

  lemma {:induction false} SelectedSeparate(ds: seq<FaceDetection>, keep: seq<bool>, threshold: real, n: nat)
    requires IsKernel(ds, keep, threshold) && n <= |ds|
    ensures Separate(Select(ds[..n], keep[..n]), threshold)
  {
    hide IouInclusive;
    if n > 0 {
      var m := n - 1;
      SelectedSeparate(ds, keep, threshold, m);
      assert ds[..n][..m] == ds[..m] && keep[..n][..m] == keep[..m];
      var rest, last := Select(ds[..m], keep[..m]), ds[m];
      if keep[m] {
        assert ClearBefore(ds, keep, threshold, m);
        SelectedAre(ds[..m], keep[..m]);
        forall i | 0 <= i < |rest| ensures IouInclusive(last, rest[i]) <= threshold
          && IouInclusive(rest[i], last) <= threshold {
          assert rest[i] in rest;
          assert Marked(ds[..m], keep[..m], rest[i]);
          var j :| 0 <= j < m && keep[..m][j] && ds[..m][j] == rest[i];
          assert keep[j] && ds[j] == rest[i];
          IouIsSymmetricFraction(last, rest[i]);
        }
      }
    }
  }

  /** What thinning out achieves: what is kept was there and is separate; what is not kept is overlapped by something
      kept that scores at least as high. */
  lemma NmsKeepsTheBest(candidates: seq<FaceDetection>, sorted: seq<FaceDetection>, keep: seq<bool>,
                        kept: seq<FaceDetection>, threshold: real)
    requires GreedyBy(candidates, kept, threshold, sorted, keep)
    ensures Separate(kept, threshold) && SortedByScore(kept) && forall d :: d in kept ==> d in candidates
    ensures forall d :: d in candidates && d !in kept ==> CoveredIn(kept, d, threshold)
  {
    hide IouInclusive, Select, Separate, SortedByScore, ClearBefore, Covered, Marked;
    assert sorted[..|sorted|] == sorted && keep[..|keep|] == keep;
    SelectedSeparate(sorted, keep, threshold, |sorted|);
    SelectedSorted(sorted, keep);
    SelectedAre(sorted, keep);
    KernelSeparatesAndCovers(sorted, keep, threshold);
    assert forall d :: d in multiset(sorted) <==> d in multiset(candidates);
    forall d | d in kept ensures d in candidates {
      MarkedIsThere(sorted, keep, d);
    }
    forall d | d in candidates && d !in kept ensures CoveredIn(kept, d, threshold) {
      assert d in multiset(candidates);
      assert d in sorted;
      var k := CoveredBy(sorted, keep, threshold, d);
    }
  }

  lemma {:induction false} SelectedSorted(ds: seq<FaceDetection>, keep: seq<bool>)
    requires |keep| == |ds| && SortedByScore(ds)
    ensures SortedByScore(Select(ds, keep))
  {
    if ds != [] {
      var n := |ds| - 1;
      SelectedSorted(ds[..n], keep[..n]);
      SelectedAre(ds[..n], keep[..n]);
      var rest := Select(ds[..n], keep[..n]);
      forall i | 0 <= i < |rest| ensures rest[i].score >= ds[n].score {
        assert rest[i] in rest;
        assert Marked(ds[..n], keep[..n], rest[i]);
      }
    }
  }

  lemma MarkedIsThere(ds: seq<FaceDetection>, keep: seq<bool>, d: FaceDetection)
    requires |keep| == |ds| && Marked(ds, keep, d)
    ensures d in multiset(ds)
  {
  }

  lemma CoveredBy(ds: seq<FaceDetection>, keep: seq<bool>, threshold: real, d: FaceDetection) returns (k: FaceDetection)
    requires |keep| == |ds| && d in ds && !Marked(ds, keep, d)
    requires forall i :: 0 <= i < |ds| && !keep[i] ==> Covered(ds, keep, threshold, i)
    ensures Marked(ds, keep, k) && IouInclusive(d, k) > threshold && k.score >= d.score
  {
    hide IouInclusive;
    var i :| 0 <= i < |ds| && ds[i] == d;
    assert Covered(ds, keep, threshold, i);
    var j :| 0 <= j < |ds| && keep[j] && IouInclusive(ds[i], ds[j]) > threshold && ds[j].score >= ds[i].score;
    k := ds[j];
  }
}
