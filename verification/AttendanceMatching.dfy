/** The decision engine on top of the gallery matcher: whose face an event is about. */
module AttendanceMatching {
  import opened RealArithmetic
  import opened Attendance
  import opened AttendanceSafety
  import opened AttendanceRuns
  import opened AttendanceRecords
  import opened Sums
  import opened UnitVectors
  import Matcher = GalleryMatcher

  /** A query the matcher can normalise. */
  ghost predicate HasDirection(q: Embedding, root: real -> real) {
    Norm(q, root) >= SMALLEST_NORM
  }

  /** What the matcher that holds these templates tells the engine about one query. */
  ghost predicate Answer(found: GalleryMatch, g: seq<Matcher.Stored>, q: Embedding, root: real -> real) {
    if g == [] || !HasDirection(q, root) then found == NO_MATCH
    else
      Matcher.SameLength(g, Unit(q, root))
      && exists second: real :: Matcher.Matches(Full(found, second), g, Unit(q, root))
  }

  /** The match with the score of the runner-up, which the engine does not look at. */
  function Full(found: GalleryMatch, second: real): Matcher.GalleryMatch {
    Matcher.GalleryMatch(found.valid, found.identity, found.best, second, found.margin)
  }

  /** The engine's gallery is the matcher holding these templates. */
  ghost predicate Backed(gallery: Gallery, g: seq<Matcher.Stored>, root: real -> real) {
    gallery.size == |g| && forall q: Embedding :: Answer(gallery.find(q), g, q, root)
  }

  /** What the matcher returns is such an answer. */
  method Ask(matcher: Matcher.GalleryMatcher, q: Embedding, root: real -> real) returns (found: GalleryMatch)
    requires matcher.Valid()
    modifies matcher.best
    ensures matcher.Valid() && matcher.Contents() == old(matcher.Contents())
    ensures Answer(found, matcher.Contents(), q, root)
  {
    hide Matcher.Matches, Matcher.Nearest, Matcher.AllUnit, Norm;
    var m := matcher.Match(q, root);
    found := GalleryMatch(m.valid, m.identity, m.best, m.margin);
    assert Full(found, m.second) == m;
  }

  /** One gallery has only one answer to a query. */
  lemma AnswerIsUnique(a: GalleryMatch, b: GalleryMatch, g: seq<Matcher.Stored>, q: Embedding, root: real -> real)
    requires Answer(a, g, q, root) && Answer(b, g, q, root)
    ensures a == b
  {
    hide Matcher.Matches, Matcher.SameLength;
    if g != [] && HasDirection(q, root) {
      var x: real :| Matcher.Matches(Full(a, x), g, Unit(q, root));
      var y: real :| Matcher.Matches(Full(b, y), g, Unit(q, root));
      Matcher.OrderDoesNotMatter(g, g, Unit(q, root), Full(a, x), Full(b, y));
    }
  }

  /** The identity of an event is the one whose template is nearest to the direction of the average of these faces, the
      event's similarity is their cosine, and the templates of everybody else are farther away by the event's margin. */
  ghost predicate NamesNearest(v: Event, faces: seq<Face>, g: seq<Matcher.Stored>, root: real -> real) {
    exists q: Embedding :: IsAverage(q, faces) && NearestTo(v, q, g, root)
  }

  ghost predicate NearestTo(v: Event, q: Embedding, g: seq<Matcher.Stored>, root: real -> real) {
    && HasDirection(q, root)
    && var u := Unit(q, root);
       Matcher.SameLength(g, u) && Matcher.Nearest(v.identity, v.similarity, v.margin, g, u)
  }

  /** Some faces have one average only; that of a single face is its embedding. */
  lemma OneAverage(q: Embedding, p: Embedding, faces: seq<Face>)
    requires IsAverage(q, faces) && IsAverage(p, faces)
    ensures p == q && (|faces| == 1 ==> q == faces[0].embedding)
  {
    hide Coordinate;
    forall j: nat | j < DIMENSION ensures p[j] == q[j] {
      TimesQuotient(p[j], Sum(Coordinate(faces, j)), |faces| as real);
      TimesQuotient(q[j], Sum(Coordinate(faces, j)), |faces| as real);
    }
    if |faces| == 1 {
      forall j: nat | j < DIMENSION ensures q[j] == faces[0].embedding[j] {
        OneCoordinate(faces, j);
      }
    }
  }

  lemma OneCoordinate(faces: seq<Face>, j: nat)
    requires |faces| == 1 && j < DIMENSION
    ensures Sum(Coordinate(faces, j)) == faces[0].embedding[j]
  {
    assert Coordinate(faces, j) == [faces[0].embedding[j]];
    assert Coordinate(faces, j)[..0] == [];
  }

  lemma EarnedNamesNearest(v: Event, s: Track, e: Engine, now: Time, faces: seq<Face>, g: seq<Matcher.Stored>,
                           root: real -> real)
    requires Earned(v, s, e, now) && Backed(e.gallery, g, root) && IsRoot(root) && Matcher.AllUnit(g)
    requires IsSum(s.sum, faces) && s.count == |faces|
    ensures NamesNearest(v, faces, g, root)
  {
    hide PadPassed, VotesAddUp, Matcher.Matches, Matcher.Nearest, Matcher.AllUnit, Matcher.SameLength, Norm, Mean,
         IsSum, IsAverage;
    var q := Mean(s.sum, s.count);
    MeanIsAverage(s.sum, faces);
    assert Answer(e.gallery.find(q), g, q, root);
    assert g != [] && HasDirection(q, root);
    var second: real :| Matcher.Matches(Full(s.found, second), g, Unit(q, root));
    UnitHasLengthOne(q, root);
    Matcher.MatchIsNearest(Full(s.found, second), g, Unit(q, root));
    assert NearestTo(v, q, g, root);
  }

  /** The faces of the track that count for its next look-up: those since its last fresh start or retry. */
  function FacesOf(e: Engine, calls: seq<Call>, id: nat): seq<Face> {
    var r := RecordOf(e, calls, id);
    if r.since <= |r.faces| then r.faces[r.since..] else []
  }

  /** Every event of a run names the identity nearest to the average of the track's faces since its last fresh start or
      retry, the last of them from this frame, in the gallery installed at that time. */
  lemma EventNamesNearest(c: Config, models: Evaluators, calls: seq<Call>, f: Frame, now: Time, k: nat,
                          g: seq<Matcher.Stored>, root: real -> real)
    requires ValidConfig(c) && IsRoot(root) && Matcher.AllUnit(g)
    requires Backed(Run(Started(c, models), calls).gallery, g, root)
    requires k < |EventsOf(Run(Started(c, models), calls), f, now)|
    ensures var e := Run(Started(c, models), calls);
      var v := EventsOf(e, f, now)[k];
      var faces := FacesOf(Started(c, models), calls + [Process(f, now)], v.track);
      && faces != [] && faces[|faces| - 1].tick == e.tick + 1 && NamesNearest(v, faces, g, root)
      && v.similarity >= c.similarityThreshold && v.margin >= c.minMargin
  {
    hide Earned, EventsOf, Backed, NamesNearest, Processed, ChecksMatch;
    ReachableEventsAreEarned(c, models, calls, f, now, k);
    var start, all := Started(c, models), calls + [Process(f, now)];
    var e := Run(start, calls);
    var v := EventsOf(e, f, now)[k];
    assert all[..|calls|] == calls;
    assert Run(start, all) == Processed(e, f, now);
    var s := Processed(e, f, now).states[v.track];
    RecordsHold(c, models, all, v.track);
    EarnedNamesNearest(v, s, e, now, FacesOf(start, all, v.track), g, root);
    StartIsOk(c, models);
    RunKeepsOk(start, calls);
    EarnedEnough(v, s, e, now);
  }

  lemma EarnedEnough(v: Event, s: Track, e: Engine, now: Time)
    requires Earned(v, s, e, now)
    ensures v.similarity >= e.config.similarityThreshold && v.margin >= e.config.minMargin
    ensures s.count > 0 && s.lastArc == e.tick + 1
  {
  }
}
