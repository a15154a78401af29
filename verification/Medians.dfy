/** The median of a list of scores. */
module Medians {

  ghost predicate Ascending(s: seq<real>) {
    forall i, j :: 0 <= i < j < |s| ==> s[i] <= s[j]
  }

  /** The middle of a sorted list, or of its two middle entries; 0 for none. */
  function Middle(s: seq<real>): real {
    var n := |s|;
    if n == 0 then 0.0 else if n % 2 == 1 then s[n / 2] else (s[n / 2 - 1] + s[n / 2]) * 0.5
  }

  function Insert(s: seq<real>, x: real): (r: seq<real>)
    ensures |r| == |s| + 1 && multiset(r) == multiset(s) + multiset{x}
  {
    if s == [] || s[|s| - 1] <= x then s + [x]
    else
      assert s == s[..|s| - 1] + [s[|s| - 1]];
      Insert(s[..|s| - 1], x) + [s[|s| - 1]]
  }

  function Sorted(v: seq<real>): (r: seq<real>)
    ensures |r| == |v| && multiset(r) == multiset(v)
  {
    if v == [] then [] else
    assert v == v[..|v| - 1] + [v[|v| - 1]];
    Insert(Sorted(v[..|v| - 1]), v[|v| - 1])
  }

  lemma {:induction false} InsertKeepsOrder(s: seq<real>, x: real)
    requires Ascending(s)
    ensures Ascending(Insert(s, x))
  {
    if s != [] && s[|s| - 1] > x {
      var n := |s| - 1;
      InsertKeepsOrder(s[..n], x);
      var r := Insert(s[..n], x);
      forall i | 0 <= i < |r| ensures r[i] <= s[n] {
        InsertedFrom(s[..n], x, r[i]);
      }
    }
  }

  lemma InsertedFrom(s: seq<real>, x: real, y: real)
    requires y in Insert(s, x)
    ensures y == x || exists i :: 0 <= i < |s| && s[i] == y
  {
    assert y in multiset(Insert(s, x));
  }

  lemma {:induction false} SortedIsAscending(v: seq<real>)
    ensures Ascending(Sorted(v))
  {
    if v != [] {
      SortedIsAscending(v[..|v| - 1]);
      InsertKeepsOrder(Sorted(v[..|v| - 1]), v[|v| - 1]);
    }
  }

  function Median(v: seq<real>): real {
    Middle(Sorted(v))
  }

  /** There is only one way to sort. */
  lemma {:induction false} OneSorting(s: seq<real>, t: seq<real>)
    requires Ascending(s) && Ascending(t) && multiset(s) == multiset(t)
    ensures s == t
  {
    assert |multiset(s)| == |s| && |multiset(t)| == |t|;
    if s != [] {
      SameLast(s, t);
      SameFront(s, t);
      OneSorting(s[..|s| - 1], t[..|t| - 1]);
      assert s == s[..|s| - 1] + [s[|s| - 1]] && t == t[..|t| - 1] + [t[|t| - 1]];
    }
  }

  lemma LastIsHighest(s: seq<real>, x: real)
    requires Ascending(s) && x in multiset(s)
    ensures |s| > 0 && x <= s[|s| - 1]
  {
    var i :| 0 <= i < |s| && s[i] == x;
  }

  lemma SameLast(s: seq<real>, t: seq<real>)
    requires Ascending(s) && Ascending(t) && multiset(s) == multiset(t) && |s| == |t| > 0
    ensures s[|s| - 1] == t[|t| - 1]
  {
    LastIsHighest(t, s[|s| - 1]);
    LastIsHighest(s, t[|t| - 1]);
  }

  lemma SameFront(s: seq<real>, t: seq<real>)
    requires |s| == |t| > 0 && s[|s| - 1] == t[|t| - 1] && multiset(s) == multiset(t)
    ensures multiset(s[..|s| - 1]) == multiset(t[..|t| - 1])
  {
    var n := |s| - 1;
    assert s == s[..n] + [s[n]] && t == t[..n] + [t[n]];
    assert multiset(s[..n]) == multiset(s) - multiset{s[n]} == multiset(t[..n]);
  }

  /** Whatever way of sorting gives the median. */
  lemma MedianOfSorted(v: seq<real>, s: seq<real>)
    requires Ascending(s) && multiset(s) == multiset(v)
    ensures Median(v) == Middle(s)
  {
    SortedIsAscending(v);
    OneSorting(Sorted(v), s);
  }

  /** The median is half-way between the two entries next to the middle, which are one for an odd number: at least half
      of the sorted entries are not above it and at least half not below. */
  lemma MedianIsInTheMiddle(v: seq<real>, s: seq<real>)
    requires Ascending(s) && multiset(s) == multiset(v) && v != []
    ensures |s| == |v| && Median(v) == (s[(|s| - 1) / 2] + s[|s| / 2]) / 2.0
    ensures forall i :: 0 <= i <= (|s| - 1) / 2 ==> s[i] <= Median(v)
    ensures forall i :: |s| / 2 <= i < |s| ==> s[i] >= Median(v)
  {
    MedianOfSorted(v, s);
    assert |multiset(s)| == |s| && |multiset(v)| == |v|;
    var low, high := (|s| - 1) / 2, |s| / 2;
    assert s[low] <= s[high];
    assert forall i :: 0 <= i <= low ==> s[i] <= s[low];
    assert forall i :: high <= i < |s| ==> s[high] <= s[i];
  }

  /** Sorts a copy and reads off the middle. */
  method FindMedian(v: seq<real>) returns (m: real)
    ensures m == Median(v)
  {
    if |v| == 0 {
      return 0.0;
    }
    var s: seq<real> := [];
    for n := 0 to |v|
      invariant |s| == n && Ascending(s) && multiset(s) == multiset(v[..n])
    {
      assert v[..n + 1] == v[..n] + [v[n]];
      InsertKeepsOrder(s, v[n]);
      s := Insert(s, v[n]);
    }
    assert v[..|v|] == v;
    MedianOfSorted(v, s);
    m := if |s| % 2 == 1 then s[|s| / 2] else (s[|s| / 2 - 1] + s[|s| / 2]) * 0.5;
  }
}
