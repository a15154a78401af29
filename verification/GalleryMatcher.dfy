/** Finding the identity a face embedding is most similar to. */
module GalleryMatcher {
  import opened RealArithmetic
  import opened Texts
  import opened UnitVectors

  datatype GalleryTemplate = GalleryTemplate(identity: string, embedding: seq<real>)

  datatype GalleryMatch = GalleryMatch(valid: bool, identity: string, best: real, second: real, margin: real)

  function NoMatch(): GalleryMatch {
    GalleryMatch(false, "", -1.0, -1.0, 0.0)
  }

  function Clamp(x: real, low: real, high: real): real {
    if x < low then low else if x > high then high else x
  }

  /** Cosine similarity of two unit vectors. */
  function Similarity(q: seq<real>, t: seq<real>): real
    requires |q| == |t|
  {
    Clamp(Dot(q, t), -1.0, 1.0)
  }

  /** Cutting off at one never changes a similarity; rounding is the only reason for it. */
  lemma SimilarityIsCosine(q: seq<real>, t: seq<real>)
    requires |q| == |t| && Dot(q, q) == 1.0 && Dot(t, t) == 1.0
    ensures Similarity(q, t) == Dot(q, t)
  {
    DotBetween(q, t);
  }

  // ---------- what a match is

  /** A template with its unit vector. */
  datatype Stored = Stored(identity: string, unit: seq<real>)

  ghost predicate SameLength(g: seq<Stored>, q: seq<real>) {
    forall t :: t in g ==> |t.unit| == |q|
  }

  /** s is the similarity of the identity's most similar template. */
  ghost predicate Scores(g: seq<Stored>, q: seq<real>, id: string, s: real)
    requires SameLength(g, q)
  {
    && (exists t :: t in g && t.identity == id && Similarity(q, t.unit) == s)
    && (forall t :: t in g && t.identity == id ==> Similarity(q, t.unit) <= s)
  }

  /** All stored vectors have length one. */
  ghost predicate AllUnit(g: seq<Stored>) {
    forall t :: t in g ==> Dot(t.unit, t.unit) == 1.0
  }

  ghost predicate HasIdentity(g: seq<Stored>, id: string) {
    exists t :: t in g && t.identity == id
  }

  /** The best identity, the first one on ties; the runner-up's score; the distance of the two. */
  ghost predicate Matches(m: GalleryMatch, g: seq<Stored>, q: seq<real>)
    requires SameLength(g, q)
  {
    && m.valid && Scores(g, q, m.identity, m.best)
    && (forall id, s :: Scores(g, q, id, s) && id != m.identity ==>
          s <= m.best && s <= m.second && (s == m.best ==> Before(m.identity, id)))
    && (if exists id :: HasIdentity(g, id) && id != m.identity
        then m.margin == m.best - m.second && exists id :: id != m.identity && Scores(g, q, id, m.second)
        else m.margin == 2.0 && m.second == -1.0)
  }

  lemma ScoresOnce(g: seq<Stored>, q: seq<real>, id: string, s: real, t: real)
    requires SameLength(g, q) && Scores(g, q, id, s) && Scores(g, q, id, t)
    ensures s == t
  {
  }

  /** The margin of a match is between 0 and 2, and the runner-up never better than the best. */
  lemma MarginBounds(m: GalleryMatch, g: seq<Stored>, q: seq<real>)
    requires SameLength(g, q) && Matches(m, g, q)
    ensures 0.0 <= m.margin <= 2.0 && m.second <= m.best && -1.0 <= m.best <= 1.0 && -1.0 <= m.second
  {
  }

  /** What a match says in terms of angles: the best similarity is the largest inner product of unit vectors, it belongs
      to a template of the named identity, and the templates of all others stay behind by the margin. */
  ghost predicate Nearest(id: string, best: real, margin: real, g: seq<Stored>, q: seq<real>)
    requires SameLength(g, q)
  {
    && (exists t :: t in g && t.identity == id && Dot(q, t.unit) == best)
    && (forall t :: t in g ==> Dot(q, t.unit) <= best)
    && (forall t :: t in g && t.identity != id ==> Dot(q, t.unit) <= best - margin)
  }

  lemma MatchIsNearest(m: GalleryMatch, g: seq<Stored>, q: seq<real>)
    requires SameLength(g, q) && Matches(m, g, q) && AllUnit(g) && Dot(q, q) == 1.0
    ensures Nearest(m.identity, m.best, m.margin, g, q)
  {
    hide Similarity, Scores;
    forall t | t in g ensures Similarity(q, t.unit) == Dot(q, t.unit) {
      SimilarityIsCosine(q, t.unit);
    }
    BestHasTemplate(g, q, m.identity, m.best);
    forall t | t in g
      ensures Dot(q, t.unit) <= m.best && (t.identity != m.identity ==> Dot(q, t.unit) <= m.best - m.margin)
    {
      if t.identity == m.identity {
        ScoresBound(g, q, t, m.best);
      } else {
        var s := ScoreOf(g, q, t.identity);
        ScoresBound(g, q, t, s);
        assert HasIdentity(g, t.identity);
      }
    }
  }

  /** t is as near to q as any template, and nearer by twice the margin, in squares, than those of everybody else. */
  ghost predicate Closest(t: Stored, best: real, margin: real, g: seq<Stored>, q: seq<real>)
    requires SameLength(g, q) && t in g
  {
    && SquaredDistance(q, t.unit) == 2.0 - 2.0 * best
    && (forall o :: o in g ==> SquaredDistance(q, t.unit) <= SquaredDistance(q, o.unit))
    && (forall o :: o in g && o.identity != t.identity ==>
          SquaredDistance(q, t.unit) + 2.0 * margin <= SquaredDistance(q, o.unit))
  }

  /** The largest inner product is the least distance. */
  lemma NearestIsClosest(id: string, best: real, margin: real, g: seq<Stored>, q: seq<real>)
    requires SameLength(g, q) && Nearest(id, best, margin, g, q) && AllUnit(g) && Dot(q, q) == 1.0
    ensures exists t :: t in g && t.identity == id && Closest(t, best, margin, g, q)
  {
    hide Dot, SquaredDistance;
    forall o | o in g ensures SquaredDistance(q, o.unit) == 2.0 - 2.0 * Dot(q, o.unit) {
      DistanceAndDot(q, o.unit);
    }
    var t :| t in g && t.identity == id && Dot(q, t.unit) == best;
  }

  lemma BestHasTemplate(g: seq<Stored>, q: seq<real>, id: string, s: real)
    requires SameLength(g, q) && Scores(g, q, id, s) && forall t :: t in g ==> Similarity(q, t.unit) == Dot(q, t.unit)
    ensures exists t :: t in g && t.identity == id && Dot(q, t.unit) == s
  {
    hide Similarity;
  }

  lemma ScoresBound(g: seq<Stored>, q: seq<real>, t: Stored, s: real)
    requires SameLength(g, q) && Scores(g, q, t.identity, s) && t in g
    ensures Similarity(q, t.unit) <= s
  {
    hide Similarity;
  }

  /** Every identity in the gallery has a score. */
  lemma {:induction false} ScoreOf(g: seq<Stored>, q: seq<real>, id: string) returns (s: real)
    requires SameLength(g, q) && HasIdentity(g, id)
    ensures Scores(g, q, id, s)
  {
    hide Similarity;
    var n := |g| - 1;
    var front, last := g[..n], g[n];
    assert g == front + [last];
    assert forall t :: t in g <==> t in front || t == last;
    if HasIdentity(front, id) {
      s := ScoreOf(front, q, id);
      if last.identity == id && Similarity(q, last.unit) > s {
        s := Similarity(q, last.unit);
      }
    } else {
      s := Similarity(q, last.unit);
    }
  }

  /** Galleries of the same templates, in whatever order and however often, give the same match. */
  lemma OrderDoesNotMatter(g: seq<Stored>, h: seq<Stored>, q: seq<real>, m: GalleryMatch, n: GalleryMatch)
    requires forall t :: t in g <==> t in h
    requires SameLength(g, q) && SameLength(h, q) && Matches(m, g, q) && Matches(n, h, q)
    ensures m == n
  {
    assert forall id, s :: Scores(g, q, id, s) <==> Scores(h, q, id, s);
    assert forall id :: HasIdentity(g, id) <==> HasIdentity(h, id);
    BeforeIsTotal(m.identity, n.identity);
    if m.identity == n.identity {
      ScoresOnce(g, q, m.identity, m.best, n.best);
    }
  }

  // ---------- sorted identities

  ghost predicate Ascending(ids: seq<string>) {
    forall i, j :: 0 <= i < j < |ids| ==> Before(ids[i], ids[j])
  }

  /** Binary search: the first place whose text is not before the key. */
  method LowerBound(ids: seq<string>, key: string) returns (k: nat)
    requires Ascending(ids)
    ensures k <= |ids|
    ensures forall i :: 0 <= i < k ==> Before(ids[i], key)
    ensures forall i :: k <= i < |ids| ==> !Before(ids[i], key)
    ensures key in ids ==> k < |ids| && ids[k] == key
  {
    var low, high := 0, |ids|;
    while low < high
      invariant 0 <= low <= high <= |ids|
      invariant forall i :: 0 <= i < low ==> Before(ids[i], key)
      invariant forall i :: high <= i < |ids| ==> !Before(ids[i], key)
    {
      var mid := (low + high) / 2;
      if Before(ids[mid], key) {
        forall i | 0 <= i < mid ensures Before(ids[i], key) {
          BeforeIsTransitive(ids[i], ids[mid], key);
        }
        low := mid + 1;
      } else {
        forall i | mid < i < |ids| ensures !Before(ids[i], key) {
          if Before(ids[i], key) {
            BeforeIsTransitive(ids[mid], ids[i], key);
          }
        }
        high := mid;
      }
    }
    k := low;
    if key in ids {
      var i :| 0 <= i < |ids| && ids[i] == key;
      BeforeIsTotal(key, key);
    }
  }

  /** The identities in order, each once. */
  method SortedUnique(ids: seq<string>) returns (out: seq<string>)
    ensures Ascending(out) && forall id :: id in out <==> id in ids
  {
    out := [];
    for n := 0 to |ids|
      invariant Ascending(out) && forall id :: id in out <==> id in ids[..n]
    {
      var k := LowerBound(out, ids[n]);
      if !(k < |out| && out[k] == ids[n]) {
        InsertKeepsOrder(out, k, ids[n]);
        out := out[..k] + [ids[n]] + out[k..];
      }
    }
    assert ids[..|ids|] == ids;
  }

  lemma InsertKeepsOrder(ids: seq<string>, k: nat, key: string)
    requires Ascending(ids) && k <= |ids| && key !in ids
    requires forall i :: 0 <= i < k ==> Before(ids[i], key)
    requires forall i :: k <= i < |ids| ==> !Before(ids[i], key)
    ensures Ascending(ids[..k] + [key] + ids[k..])
    ensures forall id :: id in ids[..k] + [key] + ids[k..] <==> id in ids || id == key
  {
    forall i | k <= i < |ids| ensures Before(key, ids[i]) {
      BeforeIsTotal(key, ids[i]);
    }
    assert ids == ids[..k] + ids[k..];
  }

  // ---------- the matcher

  const SIZE: nat := 512

  ghost predicate Usable(t: GalleryTemplate, root: real -> real) {
    t.identity != "" && |t.embedding| == SIZE && Norm(t.embedding, root) >= SMALLEST_NORM
  }

  ghost predicate AllUsable(ts: seq<GalleryTemplate>, root: real -> real) {
    forall k :: 0 <= k < |ts| ==> Usable(ts[k], root)
  }

  lemma StoredAreUnit(templates: seq<GalleryTemplate>, g: seq<Stored>, root: real -> real)
    requires IsRoot(root) && AllUsable(templates, root) && |g| == |templates|
    requires forall k :: 0 <= k < |g| ==> g[k] == Stored(templates[k].identity, Unit(templates[k].embedding, root))
    ensures AllUnit(g)
  {
    hide Dot, Unit, Norm;
    forall t | t in g ensures Dot(t.unit, t.unit) == 1.0 {
      var k :| 0 <= k < |g| && g[k] == t;
      assert Usable(templates[k], root);
      UnitHasLengthOne(templates[k].embedding, root);
    }
  }

  class GalleryMatcher {
    var matrix: seq<seq<real>>
    var owners: seq<nat>
    var identities: seq<string>
    var best: array<real>

    ghost predicate Valid()
      reads this
    {
      && |owners| == |matrix| && best.Length == |identities| && Ascending(identities)
      && (forall k :: 0 <= k < |matrix| ==> owners[k] < |identities| && |matrix[k]| == SIZE)
      && (forall i :: 0 <= i < |identities| ==> Owned(owners, i))
    }

    ghost function Contents(): (g: seq<Stored>)
      requires Valid()
      reads this
      ensures |g| == |matrix| && forall k :: 0 <= k < |g| ==> g[k] == Stored(identities[owners[k]], matrix[k])
    {
      seq(|matrix|, k requires 0 <= k < |matrix| && Valid() reads this => Stored(identities[owners[k]], matrix[k]))
    }

    constructor ()
      ensures Valid() && matrix == [] && fresh(best)
    {
      matrix, owners, identities := [], [], [];
      best := new real[0];
    }

    /** Takes over the templates, each as a unit vector, or, where one of them cannot be used, changes nothing. */
    method Replace(templates: seq<GalleryTemplate>, root: real -> real) returns (ok: bool)
      requires Valid() && forall k :: 0 <= k < |templates| ==> |templates[k].embedding| == SIZE
      modifies this
      ensures Valid() && (ok <==> AllUsable(templates, root))
      ensures !ok ==>
        matrix == old(matrix) && owners == old(owners) && identities == old(identities) && best == old(best)
      ensures ok ==> |Contents()| == |templates| && fresh(best)
      ensures ok ==> forall k :: 0 <= k < |templates| ==>
        Contents()[k] == Stored(templates[k].identity, Unit(templates[k].embedding, root))
      ensures ok && IsRoot(root) ==> AllUnit(Contents())
    {
      hide AllUnit, Unit, Norm, Dot;
      var names := Names(templates);
      if names == [] && templates != [] {
        return false;
      }
      var sorted := SortedUnique(names);
      var usable, vectors, places := Vectors(templates, sorted, root);
      if !usable {
        return false;
      }
      forall i | 0 <= i < |sorted| ensures Owned(places, i) {
        assert sorted[i] in names;
        var k :| 0 <= k < |names| && names[k] == sorted[i];
        AscendingIsInjective(sorted, places[k], i);
      }
      var buffer := new real[|sorted|];
      matrix, owners, identities, best := vectors, places, sorted, buffer;
      ok := true;
      if IsRoot(root) {
        StoredAreUnit(templates, Contents(), root);
      }
    }

    /** All identities, or none when one of them is empty. */
    static method Names(templates: seq<GalleryTemplate>) returns (names: seq<string>)
      ensures |names| == |templates| || (names == [] && exists k :: 0 <= k < |templates| && templates[k].identity == "")
      ensures forall j :: 0 <= j < |names| ==> names[j] == templates[j].identity != ""
    {
      names := [];
      for k := 0 to |templates|
        invariant |names| == k && forall j :: 0 <= j < k ==> names[j] == templates[j].identity != ""
      {
        if templates[k].identity == "" {
          return [];
        }
        names := names + [templates[k].identity];
      }
    }

    /** The unit vectors, and the places of their owners among the sorted identities. */
    static method Vectors(templates: seq<GalleryTemplate>, sorted: seq<string>, root: real -> real)
      returns (ok: bool, vectors: seq<seq<real>>, places: seq<nat>)
      requires forall k :: 0 <= k < |templates| ==>
        |templates[k].embedding| == SIZE && templates[k].identity != "" && templates[k].identity in sorted
      requires Ascending(sorted)
      ensures ok <==> AllUsable(templates, root)
      ensures ok ==> |vectors| == |places| == |templates|
      ensures ok ==> forall j :: 0 <= j < |templates| ==>
        Norm(templates[j].embedding, root) >= SMALLEST_NORM && vectors[j] == Unit(templates[j].embedding, root)
      ensures ok ==> forall j :: 0 <= j < |templates| ==>
        places[j] < |sorted| && sorted[places[j]] == templates[j].identity
    {
      hide Ascending, Unit, Norm;
      vectors, places := [], [];
      for k := 0 to |templates|
        invariant |vectors| == |places| == k
        invariant forall j :: 0 <= j < k ==>
          Usable(templates[j], root) && vectors[j] == Unit(templates[j].embedding, root)
        invariant forall j :: 0 <= j < k ==> places[j] < |sorted| && sorted[places[j]] == templates[j].identity
      {
        if Norm(templates[k].embedding, root) < SMALLEST_NORM {
          return false, [], [];
        }
        vectors := vectors + [Unit(templates[k].embedding, root)];
        var place := LowerBound(sorted, templates[k].identity);
        places := places + [place];
      }
      ok := true;
    }

    /** The identity most similar to the query. A query without direction matches nothing. */
    method Match(query: seq<real>, root: real -> real) returns (out: GalleryMatch)
      requires Valid() && |query| == SIZE
      modifies best
      ensures Valid() && Contents() == old(Contents())
      ensures matrix == [] || Norm(query, root) < SMALLEST_NORM ==> out == NoMatch()
      ensures matrix != [] && Norm(query, root) >= SMALLEST_NORM ==>
        SameLength(Contents(), Unit(query, root)) && Matches(out, Contents(), Unit(query, root))
      ensures matrix != [] && Norm(query, root) >= SMALLEST_NORM && IsRoot(root) && AllUnit(Contents()) ==>
        Nearest(out.identity, out.best, out.margin, Contents(), Unit(query, root))
    {
      hide Nearest, AllUnit, Dot;
      out := NoMatch();
      if |matrix| == 0 {
        return;
      }
      if Norm(query, root) < SMALLEST_NORM {
        return;
      }
      var q := Unit(query, root);
      ScoreAll(q);
      out := PickBest(q);
      if IsRoot(root) && AllUnit(Contents()) {
        UnitHasLengthOne(query, root);
        MatchIsNearest(out, Contents(), q);
      }
    }

    /** For each identity its most similar template's similarity. */
    method ScoreAll(q: seq<real>)
      requires Valid() && |q| == SIZE
      modifies best
      ensures Valid()
      ensures SameLength(Contents(), q) && forall i :: 0 <= i < |identities| ==>
        Scores(Contents(), q, identities[i], best[i])
    {
      hide Similarity, Ascending;
      for i := 0 to best.Length
        invariant forall j :: 0 <= j < i ==> best[j] == -1.0
      {
        best[i] := -1.0;
      }
      ghost var g := Contents();
      for n := 0 to |matrix|
        invariant forall i :: 0 <= i < |identities| ==> SoFar(matrix, owners, q, i, n, best[i])
      {
        var o := owners[n];
        SimilarityBounds(q, matrix[n]);
        SoFarGrows(matrix, owners, q, n);
        best[o] := Max(best[o], Similarity(q, matrix[n]));
      }
      forall i | 0 <= i < |identities| ensures Scores(g, q, identities[i], best[i]) {
        SoFarScores(g, matrix, owners, identities, q, i, best[i]);
      }
    }

    /** Walks over the identities, keeping the best and the runner-up. */
    method PickBest(q: seq<real>) returns (out: GalleryMatch)
      requires Valid() && |q| == SIZE && |matrix| > 0 && SameLength(Contents(), q)
      requires forall i :: 0 <= i < |identities| ==> Scores(Contents(), q, identities[i], best[i])
      ensures Matches(out, Contents(), q)
    {
      hide Scores, Similarity;
      out := NoMatch();
      ghost var w: nat := 0;
      ghost var scores := best[..];
      forall i | 0 <= i < |scores| ensures scores[i] >= -1.0 {
        BestIsBounded(q, i);
      }
      for i := 0 to best.Length
        invariant i == 0 ==> out == NoMatch()
        invariant i > 0 ==> Leads(scores, identities, out, w, i)
      {
        LeadsGrows(scores, identities, out, w, i);
        if !out.valid || best[i] > out.best {
          out := out.(second := out.best, best := best[i], identity := identities[i], valid := true);
          w := i;
        } else {
          out := out.(second := Max(out.second, best[i]));
        }
      }
      assert owners[0] < |identities|;
      out := out.(margin := if |identities| == 1 then 2.0 else out.best - out.second);
      LeaderMatches(Contents(), q, scores, identities, out, w);
    }

    lemma BestIsBounded(q: seq<real>, i: nat)
      requires Valid() && |q| == SIZE && SameLength(Contents(), q) && i < |identities|
      requires Scores(Contents(), q, identities[i], best[i])
      ensures -1.0 <= best[i] <= 1.0
    {
    }
  }

  ghost predicate Owned(owners: seq<nat>, i: nat) {
    exists k :: 0 <= k < |owners| && owners[k] == i
  }

  lemma AscendingIsInjective(ids: seq<string>, i: nat, j: nat)
    requires Ascending(ids) && i < |ids| && j < |ids| && ids[i] == ids[j]
    ensures i == j
  {
    BeforeIsTotal(ids[i], ids[j]);
  }

  lemma SimilarityBounds(q: seq<real>, t: seq<real>)
    requires |q| == |t|
    ensures -1.0 <= Similarity(q, t) <= 1.0
  {
  }

  /** b is the largest similarity among the first n templates of identity i, and at least -1. */
  ghost predicate SoFar(matrix: seq<seq<real>>, owners: seq<nat>, q: seq<real>, i: nat, n: nat, b: real)
    requires |owners| == |matrix| && n <= |matrix| && forall k :: 0 <= k < |matrix| ==> |matrix[k]| == |q|
  {
    && b >= -1.0
    && (forall k :: 0 <= k < n && owners[k] == i ==> Similarity(q, matrix[k]) <= b)
    && (b == -1.0 || exists k :: 0 <= k < n && owners[k] == i && Similarity(q, matrix[k]) == b)
  }

  lemma SoFarGrows(matrix: seq<seq<real>>, owners: seq<nat>, q: seq<real>, n: nat)
    requires |owners| == |matrix| && n < |matrix| && forall k :: 0 <= k < |matrix| ==> |matrix[k]| == |q|
    ensures forall i: nat, b: real :: SoFar(matrix, owners, q, i, n, b) ==>
      SoFar(matrix, owners, q, i, n + 1, if i == owners[n] then Max(b, Similarity(q, matrix[n])) else b)
  {
    hide Similarity;
  }

  lemma SoFarScores(g: seq<Stored>, matrix: seq<seq<real>>, owners: seq<nat>, identities: seq<string>, q: seq<real>,
                    i: nat, b: real)
    requires |owners| == |matrix| == |g| && i < |identities| && Ascending(identities) && Owned(owners, i)
    requires forall k :: 0 <= k < |matrix| ==> |matrix[k]| == |q| && owners[k] < |identities|
    requires forall k :: 0 <= k < |g| ==> g[k] == Stored(identities[owners[k]], matrix[k])
    requires SoFar(matrix, owners, q, i, |matrix|, b)
    ensures SameLength(g, q) && Scores(g, q, identities[i], b)
  {
    hide Similarity;
    forall t | t in g && t.identity == identities[i] ensures Similarity(q, t.unit) <= b {
      var k :| 0 <= k < |g| && g[k] == t;
      AscendingIsInjective(identities, owners[k], i);
    }
    if b == -1.0 {
      var k :| 0 <= k < |owners| && owners[k] == i;
      SimilarityBounds(q, matrix[k]);
      assert g[k] in g;
    } else {
      var k :| 0 <= k < |matrix| && owners[k] == i && Similarity(q, matrix[k]) == b;
      assert g[k] in g;
    }
  }

  /** Among the first n identities w leads, and out says so. */
  ghost predicate Leads(scores: seq<real>, identities: seq<string>, out: GalleryMatch, w: nat, n: nat)
    requires |scores| == |identities| && n <= |scores|
  {
    && w < n && out.valid && out.identity == identities[w] && out.best == scores[w] && out.second >= -1.0
    && (forall j :: 0 <= j < n ==> scores[j] <= scores[w] && (scores[j] == scores[w] ==> w <= j))
    && (forall j :: 0 <= j < n && j != w ==> scores[j] <= out.second)
    && (if n == 1 then out.second == -1.0 else exists j :: 0 <= j < n && j != w && scores[j] == out.second)
  }

  lemma LeadsGrows(scores: seq<real>, identities: seq<string>, out: GalleryMatch, w: nat, i: nat)
    requires |scores| == |identities| && i < |scores| && forall k :: 0 <= k <= i ==> scores[k] >= -1.0
    requires if i == 0 then out == NoMatch() else Leads(scores, identities, out, w, i)
    ensures if !out.valid || scores[i] > out.best
      then Leads(scores, identities, out.(second := out.best, best := scores[i], identity := identities[i],
                                          valid := true), i, i + 1)
      else Leads(scores, identities, out.(second := Max(out.second, scores[i])), w, i + 1)
  {
    if i > 0 {
      if scores[i] > out.best {
        assert scores[w] == out.best;
      } else if i > 1 {
        var j :| 0 <= j < i && j != w && scores[j] == out.second;
      }
    }
  }

  lemma ScoresHas(g: seq<Stored>, q: seq<real>, id: string, s: real)
    requires SameLength(g, q) && Scores(g, q, id, s)
    ensures HasIdentity(g, id)
  {
  }

  lemma IdentityIn(g: seq<Stored>, identities: seq<string>, id: string)
    requires HasIdentity(g, id) && forall t :: t in g ==> t.identity in identities
    ensures id in identities
  {
  }

  lemma LeaderMatches(g: seq<Stored>, q: seq<real>, scores: seq<real>, identities: seq<string>, out: GalleryMatch,
                      w: nat)
    requires |scores| == |identities| && Leads(scores, identities, out, w, |scores|) && SameLength(g, q)
      && Ascending(identities)
    requires forall i :: 0 <= i < |identities| ==> Scores(g, q, identities[i], scores[i])
    requires forall t :: t in g ==> t.identity in identities
    requires out.margin == if |identities| == 1 then 2.0 else out.best - out.second
    ensures Matches(out, g, q)
  {
    hide Scores, HasIdentity;
    forall id, s | Scores(g, q, id, s) && id != out.identity
      ensures s <= out.best && s <= out.second && (s == out.best ==> Before(out.identity, id))
    {
      ScoresHas(g, q, id, s);
      IdentityIn(g, identities, id);
      var j :| 0 <= j < |identities| && identities[j] == id;
      ScoresOnce(g, q, id, s, scores[j]);
    }
    if exists id :: HasIdentity(g, id) && id != out.identity {
      var id :| HasIdentity(g, id) && id != out.identity;
      IdentityIn(g, identities, id);
      var j :| 0 <= j < |scores| && j != w && scores[j] == out.second;
      if identities[j] == identities[w] {
        AscendingIsInjective(identities, j, w);
      }
      assert identities[j] != out.identity && Scores(g, q, identities[j], out.second);
    } else if |identities| > 1 {
      var j := if w == 0 then 1 else 0;
      ScoresHas(g, q, identities[j], scores[j]);
      AscendingIsInjective(identities, j, w);
    }
  }
}
