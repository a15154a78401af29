/** Lists of shared tracks: joining, subtracting and thinning them out. */
module TrackLists {
  import opened Collections
  import opened AssignmentProblem
  import opened Association
  import opened STracks

  ghost predicate HasId(ts: seq<STrack>, id: nat)
    reads ts
  {
    exists i :: 0 <= i < |ts| && ts[i].trackId == id
  }

  /** An id names one track only, among all tracks of both lists. */
  ghost predicate IdsIdentify(a: seq<STrack>, b: seq<STrack>)
    reads a, b
  {
    forall s, t | s in a + b && t in a + b :: s.trackId == t.trackId ==> s == t
  }

  /** a, then the tracks of b whose id has not been seen yet. */
  method JointTracks(a: seq<STrack>, b: seq<STrack>) returns (out: seq<STrack>)
    ensures forall t :: t in out ==> t in a || t in b
    ensures forall t :: t in a ==> t in out
    ensures forall t :: t in b ==> HasId(out, t.trackId)
    ensures Distinct(a) ==> Distinct(out)
    ensures IdsIdentify(a, b) ==> forall t :: t in out <==> t in a || t in b
    ensures IdsIdentify(a, b) && Distinct(a + b) ==> out == a + b
  {
    hide HasId, IdsIdentify;
    out := [];
    var ids: set<nat> := {};
    NobodyHasId();
    for i := 0 to |a|
      invariant out == a[..i]
      invariant forall id :: id in ids <==> HasId(out, id)
    {
      HasIdGrows(out, a[i]);
      ids := ids + {a[i].trackId};
      out := out + [a[i]];
    }
    assert out == a;
    for i := 0 to |b|
      invariant a <= out
      invariant forall id :: id in ids <==> HasId(out, id)
      invariant forall k :: |a| <= k < |out| ==> out[k] in b
      invariant Distinct(out) || !Distinct(a)
      invariant forall k :: 0 <= k < i ==> b[k].trackId in ids
      invariant IdsIdentify(a, b) && Distinct(a + b) ==> out == a + b[..i]
    {
      if IdsIdentify(a, b) && Distinct(a + b) {
        NotSeenYet(a, b, i);
      }
      if b[i].trackId !in ids {
        HasIdGrows(out, b[i]);
        MembersHaveIds(out, b[i]);
        ids := ids + {b[i].trackId};
        out := out + [b[i]];
      }
    }
    assert b[..|b|] == b;
    forall t | t in b ensures HasId(out, t.trackId) {
      var k :| 0 <= k < |b| && b[k] == t;
    }
    if IdsIdentify(a, b) {
      JoinedTracksAreOut(a, b, out);
    }
  }

  lemma NobodyHasId()
    ensures forall id :: !HasId([], id)
  {
  }

  lemma MembersHaveIds(ts: seq<STrack>, t: STrack)
    requires !HasId(ts, t.trackId)
    ensures t !in ts
  {
  }

  lemma JoinedTracksAreOut(a: seq<STrack>, b: seq<STrack>, out: seq<STrack>)
    requires IdsIdentify(a, b) && forall t :: t in out ==> t in a || t in b
    requires forall t :: t in b ==> HasId(out, t.trackId)
    ensures forall t :: t in b ==> t in out
  {
    forall t | t in b ensures t in out {
      assert HasId(out, t.trackId);
      var i :| 0 <= i < |out| && out[i].trackId == t.trackId;
      assert out[i] in a || out[i] in b;
      assert out[i] in a + b && t in a + b;
    }
  }

  lemma NotSeenYet(a: seq<STrack>, b: seq<STrack>, i: nat)
    requires i < |b| && IdsIdentify(a, b) && Distinct(a + b)
    ensures !HasId(a + b[..i], b[i].trackId)
  {
    var front := a + b[..i];
    forall k | 0 <= k < |front| ensures front[k].trackId != b[i].trackId {
      assert front[k] == (a + b)[k] && b[i] == (a + b)[|a| + i];
      assert front[k] in a + b && b[i] in a + b;
    }
  }

  lemma HasIdGrows(ts: seq<STrack>, t: STrack)
    ensures forall id :: HasId(ts + [t], id) <==> HasId(ts, id) || id == t.trackId
  {
    forall id | HasId(ts, id) ensures HasId(ts + [t], id) {
      var i :| 0 <= i < |ts| && ts[i].trackId == id;
      assert (ts + [t])[i].trackId == id;
    }
    assert (ts + [t])[|ts|] == t;
  }

  /** The tracks of a whose id is not in b. */
  method SubtractTracks(a: seq<STrack>, b: seq<STrack>) returns (out: seq<STrack>)
    ensures forall t :: t in out <==> t in a && !HasId(b, t.trackId)
    ensures Distinct(a) ==> Distinct(out)
  {
    var remove: set<nat> := {};
    for i := 0 to |b|
      invariant forall id :: id in remove <==> HasId(b[..i], id)
    {
      HasIdGrows(b[..i], b[i]);
      assert b[..i + 1] == b[..i] + [b[i]];
      remove := remove + {b[i].trackId};
    }
    assert b[..|b|] == b;
    out := [];
    for i := 0 to |a|
      invariant forall t :: t in out <==> t in a[..i] && !HasId(b, t.trackId)
      invariant Distinct(a) ==> Distinct(out)
    {
      if a[i].trackId !in remove {
        out := out + [a[i]];
      }
    }
    assert a[..|a|] == a;
  }

  /** The boxes of a list, for the cost matrix. */
  method ToItems(ts: seq<STrack>) returns (items: seq<Item>)
    ensures |items| == |ts| && forall i :: 0 <= i < |ts| ==> items[i] == ts[i].Box()
  {
    items := [];
    for i := 0 to |ts|
      invariant |items| == i && forall k :: 0 <= k < i ==> items[k] == ts[k].Box()
    {
      items := items + [ts[i].Box()];
    }
  }

  ghost function Age(t: STrack): int
    reads t
  {
    t.frameId - t.startFrame
  }

  /** The boxes overlap so much that both tracks must be of one face. */
  ghost predicate SameFace(s: STrack, t: STrack)
    reads s, t
  {
    PairCost(s.Box(), t.Box(), false) < 0.15
  }

  /** t loses against a track of the other list that is at least as old. */
  ghost predicate Outlived(t: STrack, others: seq<STrack>)
    reads t, others
  {
    exists j :: 0 <= j < |others| && SameFace(t, others[j]) && Age(t) <= Age(others[j])
  }

  /** t loses against a strictly older track of the other list. */
  ghost predicate Outranked(t: STrack, others: seq<STrack>)
    reads t, others
  {
    exists i :: 0 <= i < |others| && SameFace(others[i], t) && Age(others[i]) > Age(t)
  }

  /** Twins are tracks whose boxes overlap by more than 85 hundredths; a followed track goes when a lost twin has lived
      at least as long, a lost one when a followed twin has lived longer. */
  lemma TwinsMean(t: STrack, others: seq<STrack>)
    ensures Outlived(t, others) <==>
      exists j :: 0 <= j < |others| && Iou(t.Box(), others[j].Box()) > 0.85
                  && t.frameId - t.startFrame <= others[j].frameId - others[j].startFrame
    ensures Outranked(t, others) <==>
      exists j :: 0 <= j < |others| && Iou(others[j].Box(), t.Box()) > 0.85
                  && t.frameId - t.startFrame < others[j].frameId - others[j].startFrame
  {
    hide Iou, STrack.Box;
    forall j | 0 <= j < |others|
      ensures SameFace(t, others[j]) <==> Iou(t.Box(), others[j].Box()) > 0.85
      ensures SameFace(others[j], t) <==> Iou(others[j].Box(), t.Box()) > 0.85
    {
      assert PairCost(t.Box(), others[j].Box(), false) == 1.0 - Iou(t.Box(), others[j].Box());
    }
  }

  /** Of each pair of one face keeps the longer-lived track, the one from b on ties. */
  method RemoveDuplicates(a: seq<STrack>, b: seq<STrack>) returns (ra: seq<STrack>, rb: seq<STrack>)
    ensures forall t :: t in ra <==> t in a && !Outlived(t, b)
    ensures forall t :: t in rb <==> t in b && !Outranked(t, a)
    ensures Distinct(a) ==> Distinct(ra)
    ensures Distinct(b) ==> Distinct(rb)
  {
    hide Outlived, Outranked, CostsAre;
    if a == [] || b == [] {
      NoPairs(a, b);
      return a, b;
    }
    var ai := ToItems(a);
    var bi := ToItems(b);
    var costs := CostMatrix(ai, bi, false);
    var dropA, dropB := FindDuplicates(a, b, ai, bi, costs);
    ra := KeepOthers(a, dropA);
    rb := KeepOthers(b, dropB);
  }

  lemma NoPairs(a: seq<STrack>, b: seq<STrack>)
    requires a == [] || b == []
    ensures forall t :: t in a ==> !Outlived(t, b)
    ensures forall t :: t in b ==> !Outranked(t, a)
  {
  }

  method FindDuplicates(a: seq<STrack>, b: seq<STrack>, ai: seq<Item>, bi: seq<Item>, costs: seq<Cost>)
    returns (dropA: set<nat>, dropB: set<nat>)
    requires |ai| == |a| && |bi| == |b| && CostsAre(costs, ai, bi, false)
    requires forall i :: 0 <= i < |a| ==> ai[i] == a[i].Box()
    requires forall j :: 0 <= j < |b| ==> bi[j] == b[j].Box()
    ensures forall i :: 0 <= i < |a| ==> (i in dropA <==> Outlived(a[i], b))
    ensures forall j :: 0 <= j < |b| ==> (j in dropB <==> Outranked(b[j], a))
  {
    hide CostsAre, Outlived, Outranked;
    dropA, dropB := {}, {};
    NobodyYet(a, b);
    for i := 0 to |a|
      invariant forall k :: 0 <= k < i ==> (k in dropA <==> Outlived(a[k], b))
      invariant forall k :: i <= k < |a| ==> k !in dropA
      invariant forall j :: 0 <= j < |b| ==> (j in dropB <==> Outranked(b[j], a[..i]))
    {
      var lost;
      lost, dropB := CompareRow(a, b, ai, bi, costs, i, dropB);
      if lost {
        dropA := dropA + {i};
      }
    }
    assert a[..|a|] == a;
  }

  lemma NobodyYet(a: seq<STrack>, b: seq<STrack>)
    ensures forall j :: 0 <= j < |b| ==> !Outranked(b[j], a[..0])
    ensures forall i :: 0 <= i < |a| ==> !Outlived(a[i], b[..0])
  {
  }

  /** One row of the comparison: whether a[i] is dropped, and who is dropped on its account. */
  method CompareRow(a: seq<STrack>, b: seq<STrack>, ai: seq<Item>, bi: seq<Item>, costs: seq<Cost>, i: nat,
                    drop: set<nat>)
    returns (lost: bool, dropB: set<nat>)
    requires |ai| == |a| && |bi| == |b| && CostsAre(costs, ai, bi, false) && i < |a|
    requires forall i :: 0 <= i < |a| ==> ai[i] == a[i].Box()
    requires forall j :: 0 <= j < |b| ==> bi[j] == b[j].Box()
    requires forall j :: 0 <= j < |b| ==> (j in drop <==> Outranked(b[j], a[..i]))
    ensures lost <==> Outlived(a[i], b)
    ensures forall j :: 0 <= j < |b| ==> (j in dropB <==> Outranked(b[j], a[..i + 1]))
  {
    hide Outlived, Outranked, Age, CostsAre, SameFace;
    lost, dropB := false, drop;
    NobodyYet(a, b);
    for j := 0 to |b|
      invariant lost <==> Outlived(a[i], b[..j])
      invariant forall k :: 0 <= k < j ==> (k in dropB <==> Outranked(b[k], a[..i + 1]))
      invariant forall k :: j <= k < |b| ==> (k in dropB <==> Outranked(b[k], a[..i]))
    {
      CostSaysSameFace(a[i], b[j], ai, bi, costs, i, j);
      OutlivedGrows(a[i], b, j);
      OutrankedGrows(b[j], a, i);
      if costs[i * |b| + j].value < 0.15 {
        var timeA := a[i].frameId - a[i].startFrame;
        var timeB := b[j].frameId - b[j].startFrame;
        AgesAre(a[i], b[j]);
        if timeA > timeB {
          dropB := dropB + {j};
        } else {
          lost := true;
        }
      }
    }
    assert b[..|b|] == b;
  }

  lemma AgesAre(s: STrack, t: STrack)
    ensures Age(s) == s.frameId - s.startFrame && Age(t) == t.frameId - t.startFrame
  {
  }

  lemma CostSaysSameFace(s: STrack, t: STrack, ai: seq<Item>, bi: seq<Item>, costs: seq<Cost>, i: nat, j: nat)
    requires CostsAre(costs, ai, bi, false) && i < |ai| && j < |bi|
    requires ai[i] == s.Box() && bi[j] == t.Box()
    ensures 0 <= i * |bi| + j < |costs| && costs[i * |bi| + j].Finite?
    ensures costs[i * |bi| + j].value < 0.15 <==> SameFace(s, t)
  {
    assert CostAt(costs, |bi|, i, j) == Finite(PairCost(ai[i], bi[j], false));
    CellInRange(i, j, |ai|, |bi|);
  }

  lemma CellInRange(i: nat, j: nat, n: nat, w: nat)
    requires i < n && j < w
    ensures 0 <= i * w + j < n * w
  {
    assert (i + 1) * w <= n * w;
  }

  lemma OutlivedGrows(t: STrack, b: seq<STrack>, j: nat)
    requires j < |b|
    ensures Outlived(t, b[..j + 1]) <==> Outlived(t, b[..j]) || (SameFace(t, b[j]) && Age(t) <= Age(b[j]))
  {
    hide SameFace, Age;
    if Outlived(t, b[..j]) {
      var k :| 0 <= k < j && SameFace(t, b[..j][k]) && Age(t) <= Age(b[..j][k]);
      assert b[..j + 1][k] == b[..j][k];
    }
    assert b[..j + 1][j] == b[j];
    if Outlived(t, b[..j + 1]) && !(SameFace(t, b[j]) && Age(t) <= Age(b[j])) {
      var k :| 0 <= k < j + 1 && SameFace(t, b[..j + 1][k]) && Age(t) <= Age(b[..j + 1][k]);
      assert b[..j][k] == b[..j + 1][k];
    }
  }

  lemma OutrankedGrows(t: STrack, a: seq<STrack>, i: nat)
    requires i < |a|
    ensures Outranked(t, a[..i + 1]) <==> Outranked(t, a[..i]) || (SameFace(a[i], t) && Age(a[i]) > Age(t))
  {
    hide SameFace, Age;
    if Outranked(t, a[..i]) {
      var k :| 0 <= k < i && SameFace(a[..i][k], t) && Age(a[..i][k]) > Age(t);
      assert a[..i + 1][k] == a[..i][k];
    }
    assert a[..i + 1][i] == a[i];
    if Outranked(t, a[..i + 1]) && !(SameFace(a[i], t) && Age(a[i]) > Age(t)) {
      var k :| 0 <= k < i + 1 && SameFace(a[..i + 1][k], t) && Age(a[..i + 1][k]) > Age(t);
      assert a[..i][k] == a[..i + 1][k];
    }
  }

  /** The tracks whose index was not dropped, in order. */
  method KeepOthers(ts: seq<STrack>, drop: set<nat>) returns (kept: seq<STrack>)
    ensures forall t :: t in kept <==> exists i :: 0 <= i < |ts| && i !in drop && ts[i] == t
    ensures Distinct(ts) ==> Distinct(kept)
  {
    kept := [];
    for i := 0 to |ts|
      invariant forall t :: t in kept <==> exists k :: 0 <= k < i && k !in drop && ts[k] == t
      invariant forall x :: 0 <= x < |kept| ==> kept[x] in ts[..i]
      invariant Distinct(ts) ==> Distinct(kept)
    {
      if i !in drop {
        kept := kept + [ts[i]];
      }
    }
  }

  /** After thinning no two tracks of one face are left, one in each list. */
  lemma NoTwinsLeft(a: seq<STrack>, b: seq<STrack>, s: STrack, t: STrack)
    requires s in a && t in b && SameFace(s, t)
    ensures Outlived(s, b) || Outranked(t, a)
  {
    var i :| 0 <= i < |a| && a[i] == s;
    var j :| 0 <= j < |b| && b[j] == t;
  }
}
