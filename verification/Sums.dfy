/** Finite sums of reals, and how they react to changing one term. */
module Sums {
  import opened Collections

  function Sum(s: seq<real>): real {
    if s == [] then 0.0 else Sum(s[..|s| - 1]) + s[|s| - 1]
  }

  lemma {:induction false} SumUpdate(s: seq<real>, i: nat, x: real)
    requires i < |s|
    ensures Sum(s[i := x]) == Sum(s) - s[i] + x
  {
    var n := |s| - 1;
    if i == n {
      assert s[i := x][..n] == s[..n];
    } else {
      assert s[i := x][..n] == s[..n][i := x];
      SumUpdate(s[..n], i, x);
    }
  }

  lemma {:induction false} SumOfZeros(s: seq<real>)
    requires forall k :: 0 <= k < |s| ==> s[k] == 0.0
    ensures Sum(s) == 0.0
  {
    if s != [] {
      SumOfZeros(s[..|s| - 1]);
    }
  }

  lemma {:induction false} SumMonotone(s: seq<real>, t: seq<real>)
    requires |s| == |t|
    requires forall k :: 0 <= k < |s| ==> s[k] <= t[k]
    ensures Sum(s) <= Sum(t)
  {
    if s != [] {
      SumMonotone(s[..|s| - 1], t[..|t| - 1]);
    }
  }

  lemma {:induction false} SumAdd(s: seq<real>, t: seq<real>, r: seq<real>)
    requires |s| == |t| == |r|
    requires forall k :: 0 <= k < |s| ==> r[k] == s[k] + t[k]
    ensures Sum(r) == Sum(s) + Sum(t)
  {
    if s != [] {
      var n := |s| - 1;
      SumAdd(s[..n], t[..n], r[..n]);
    }
  }

  /** The terms of v picked out by the indices in pick. */
  function Picked(v: seq<real>, pick: seq<nat>): (r: seq<real>)
    requires forall k :: 0 <= k < |pick| ==> pick[k] < |v|
    ensures |r| == |pick|
  {
    seq(|pick|, k requires 0 <= k < |pick| => v[pick[k]])
  }

  /** Picking distinct terms of a non-positive sequence cannot go below its sum; it reaches the sum exactly
      when every term left out is zero. */
  lemma {:induction false} SumPicked(v: seq<real>, pick: seq<nat>)
    requires forall k :: 0 <= k < |pick| ==> pick[k] < |v|
    requires forall j :: 0 <= j < |v| ==> v[j] <= 0.0
    requires Distinct(pick)
    ensures Sum(v) <= Sum(Picked(v, pick))
    ensures (forall j :: 0 <= j < |v| && j !in pick ==> v[j] == 0.0) ==> Sum(v) == Sum(Picked(v, pick))
    decreases |pick|
  {
    if pick == [] {
      var zeros := seq(|v|, k => 0.0);
      SumOfZeros(zeros);
      SumMonotone(v, zeros);
      if forall j :: 0 <= j < |v| && j !in pick ==> v[j] == 0.0 {
        SumOfZeros(v);
      }
    } else {
      var n := |pick| - 1;
      var last := pick[n];
      var w := v[last := 0.0];
      SumUpdate(v, last, 0.0);
      assert Picked(w, pick[..n]) == Picked(v, pick)[..n] by {
        forall k | 0 <= k < n ensures pick[k] != last {}
      }
      SumPicked(w, pick[..n]);
      assert forall j :: j in pick ==> j in pick[..n] || j == last;
    }
  }
}
