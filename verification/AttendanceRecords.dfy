/** What the engine's counters stand for: each track's votes, sums and budgets against the record of its checks and
    faces, recomputed from the calls. */
module AttendanceRecords {
  import opened Collections
  import opened Sums
  import opened Attendance
  import opened AttendancePasses
  import opened AttendanceSafety
  import opened AttendanceRuns

  /** A liveness check of a track, and an observation of it that was recognised. */
  datatype Check = Check(result: PadResult, tick: nat, at: Time)
  datatype Face = Face(embedding: Embedding, quality: real, tick: nat, at: Time)

  /** What happened to a track since it started anew; the faces from index since on came after the last retry. */
  datatype Record = Record(checks: seq<Check>, faces: seq<Face>, since: nat, retries: nat)

  const NOTHING := Record([], [], 0, 0)

  // ---------- the events of one frame, in terms of the state before it

  /** The verdict is older than the cooldown, or the evidence is too old. */
  predicate Outdated(s: Track, c: Config, now: Time) {
    || (s.phase in {Recognized, DuplicateIdentity} && now - s.terminal >= c.eventCooldown)
    || (s.phase in {WaitingQuality, CheckingPad, Recognizing, RecognitionDeferred} && s.votes.attempts > 0
        && now - s.evidence > c.evidenceTtl)
  }

  /** The track is new, was missing for too long, or is outdated. */
  predicate StartsAnew(e: Engine, id: nat, now: Time) {
    id in e.states ==>
      e.tick + 1 - e.states[id].seen > e.config.maxMissingFrames || Outdated(e.states[id], e.config, now)
  }

  function QualityOf(e: Engine, t: TrackInput): real {
    if t.hasObservation then e.models.quality(t.observation) else 0.0
  }

  /** The track is deferred, has an attempt left, and its quality has grown enough. */
  predicate MayRetry(s: Track, q: real, size: nat, c: Config) {
    && s.phase == RecognitionDeferred && s.extra < c.recognitionExtraAttempts
    && q > 0.0 && size > 0 && q >= s.bestQuality * c.retryQualityGain
  }

  /** A deferred track gets a further attempt. */
  predicate Retries(e: Engine, t: TrackInput, now: Time) {
    !StartsAnew(e, t.id, now) && MayRetry(e.states[t.id], QualityOf(e, t), e.gallery.size, e.config)
  }

  /** The record at the beginning of the frame. */
  function Base(r: Record, anew: bool, again: bool): Record {
    if anew then NOTHING else if again then r.(since := |r.faces|, retries := r.retries + 1) else r
  }

  function WithCheck(r: Record, c: Check): Record {
    r.(checks := r.checks + [c])
  }

  function WithFace(r: Record, x: Face): Record {
    r.(faces := r.faces + [x])
  }

  /** A check or a face is added when the state after the frame says that there was one. */
  function Noted(base: Record, s: Track, result: PadResult, e: Embedding, q: real, tick: nat, now: Time): Record {
    var checked := if s.lastPad == tick then WithCheck(base, Check(result, tick, now)) else base;
    if s.lastArc == tick then WithFace(checked, Face(e, q, tick, now)) else checked
  }

  /** The record after the frame. */
  function Extended(r: Record, s: Track, e: Engine, f: Frame, now: Time, t: TrackInput): Record {
    Noted(Base(r, StartsAnew(e, t.id, now), Retries(e, t, now)), s, e.models.pad(f.frameId, t.observation),
          e.models.embed(f.frameId, t.observation), QualityOf(e, t), e.tick + 1, now)
  }

  /** The record of track id over a run: emptied when the engine forgets the track. */
  function RecordOf(e: Engine, calls: seq<Call>, id: nat): Record {
    if calls == [] then NOTHING else
    var front, last := calls[..|calls| - 1], calls[|calls| - 1];
    var before, after := Run(e, front), Run(e, calls);
    if id !in after.states then NOTHING
    else if last.Process? && Accepts(before, last.frame, last.now) && Find(last.frame.tracks, id).Some?
    then Extended(RecordOf(e, front, id), after.states[id], before, last.frame, last.now,
                  Find(last.frame.tracks, id).value)
    else RecordOf(e, front, id)
  }

  // ---------- what the state says about the record

  /** The scores of the checks that had one. */
  function Lives(checks: seq<Check>): seq<real> {
    if checks == [] then [] else
    var last := checks[|checks| - 1].result;
    Lives(checks[..|checks| - 1]) + if last.Scored? then [last.live] else []
  }

  /** The checks that came out live, by index. */
  ghost function LiveChecks(checks: seq<Check>, threshold: real): set<nat> {
    set k: nat | k < |checks| && checks[k].result.Scored? && checks[k].result.live >= threshold
  }

  ghost function AttackChecks(checks: seq<Check>, threshold: real): set<nat> {
    set k: nat | k < |checks| && checks[k].result.Scored? && checks[k].result.live < threshold
  }

  ghost function RefusedChecks(checks: seq<Check>): set<nat> {
    set k: nat | k < |checks| && checks[k].result.InputRejected?
  }

  /** Index k is the first check with a score. */
  ghost predicate FirstScore(checks: seq<Check>, k: nat) {
    k < |checks| && checks[k].result.Scored? && forall i :: 0 <= i < k ==> !checks[i].result.Scored?
  }

  /** Checks are as far apart as configured, and the last one is remembered. */
  ghost predicate ChecksPaced(last: nat, checks: seq<Check>, every: nat) {
    && last == (if checks == [] then 0 else checks[|checks| - 1].tick)
    && (forall k :: 0 <= k < |checks| ==> checks[k].tick > 0)
    && (forall k :: 1 <= k < |checks| ==> checks[k].tick - checks[k - 1].tick >= every)
  }

  ghost predicate VotesMatch(votes: Votes, checks: seq<Check>, threshold: real) {
    && votes.bonaFide == |LiveChecks(checks, threshold)| && votes.attack == |AttackChecks(checks, threshold)|
    && votes.rejected == |RefusedChecks(checks)| && votes.attempts == votes.bonaFide + votes.attack
  }

  /** The clock of the evidence starts with the first score. */
  ghost predicate EvidenceMatches(s: Track, checks: seq<Check>) {
    && (s.votes.attempts == 0 <==> forall k :: 0 <= k < |checks| ==> !checks[k].result.Scored?)
    && (forall k: nat :: FirstScore(checks, k) ==> s.evidence == checks[k].at)
  }

  ghost predicate ChecksMatch(s: Track, checks: seq<Check>, c: Config) {
    && s.scores == Lives(checks) && VotesMatch(s.votes, checks, c.liveThreshold) && EvidenceMatches(s, checks)
    && ChecksPaced(s.lastPad, checks, c.padEveryFrames)
  }

  /** One coordinate of all the faces. */
  function Coordinate(faces: seq<Face>, j: nat): (r: seq<real>)
    requires j < DIMENSION
    ensures |r| == |faces|
  {
    seq(|faces|, k requires 0 <= k < |faces| => faces[k].embedding[j])
  }

  /** The sum holds each coordinate summed over exactly these faces. */
  ghost predicate IsSum(sum: Embedding, faces: seq<Face>) {
    forall j: nat :: j < DIMENSION ==> sum[j] == Sum(Coordinate(faces, j))
  }

  /** q is the average of the faces' embeddings. */
  ghost predicate IsAverage(q: Embedding, faces: seq<Face>) {
    faces != [] && forall j: nat :: j < DIMENSION ==> q[j] * |faces| as real == Sum(Coordinate(faces, j))
  }

  ghost predicate IsBestQuality(b: real, faces: seq<Face>) {
    && (forall k :: 0 <= k < |faces| ==> faces[k].quality <= b)
    && (if faces == [] then b == 0.0 else exists k :: 0 <= k < |faces| && faces[k].quality == b)
  }

  /** Recognitions are as far apart as configured, and the last one is remembered. */
  ghost predicate FacesPaced(last: nat, faces: seq<Face>, every: nat) {
    && last == (if faces == [] then 0 else faces[|faces| - 1].tick)
    && (forall k :: 0 <= k < |faces| ==> faces[k].tick > 0)
    && (forall k :: 1 <= k < |faces| ==> faces[k].tick - faces[k - 1].tick >= every)
  }

  /** The sum and the answer of the gallery are those for these faces. */
  ghost predicate SumMatches(s: Track, faces: seq<Face>, g: Gallery) {
    && s.count == |faces| && IsSum(s.sum, faces)
    && (forall q: Embedding :: IsAverage(q, faces) ==> s.found == g.find(q))
  }

  ghost predicate FacesMatch(s: Track, r: Record, g: Gallery, c: Config) {
    && r.since <= |r.faces| && s.attempts == |r.faces| && s.extra == r.retries
    && SumMatches(s, r.faces[r.since..], g) && IsBestQuality(s.bestQuality, r.faces)
    && FacesPaced(s.lastArc, r.faces, c.recognitionEveryFrames)
    && (s.phase in {Recognized, DuplicateIdentity} ==> r.faces != [] && s.terminal == r.faces[|r.faces| - 1].at)
  }

  ghost predicate Recorded(s: Track, r: Record, g: Gallery, c: Config) {
    ChecksMatch(s, r.checks, c) && FacesMatch(s, r, g, c)
  }

  // ---------- one frame

  lemma FreshRecorded(seen: nat, g: Gallery, c: Config)
    ensures Recorded(Fresh(seen), NOTHING, g, c)
  {
    var none: seq<Face> := [];
    assert none[0..] == none;
    assert forall j: nat :: j < DIMENSION ==> Coordinate(none, j) == [];
    assert forall k: nat :: !FirstScore([], k);
  }

  lemma FaceDroppedRecorded(s: Track, s': Track, r: Record, g: Gallery, c: Config)
    requires FacesMatch(s, r, g, c)
    requires s' == s.(seen := s'.seen, phase := s'.phase, extra := s.extra + 1, sum := Zero(), count := 0)
    requires s'.phase !in {Recognized, DuplicateIdentity}
    ensures FacesMatch(s', r.(since := |r.faces|, retries := r.retries + 1), g, c)
  {
    var none := r.faces[|r.faces|..];
    assert none == [];
    assert forall j: nat :: j < DIMENSION ==> Coordinate(none, j) == [];
  }

  predicate Anew(s: Track, m: Moment) {
    Outdated(s, m.config, m.now)
  }

  predicate Again(s: Track, q: real, m: Moment) {
    !Anew(s, m) && MayRetry(s, q, m.gallery.size, m.config)
  }

  /** How the frame begins for a track. */
  lemma BeginCases(s: Track, t: TrackInput, m: Moment)
    ensures var b := Begin(s, t, m);
      && (b.due ==>
          b.track.phase == CheckingPad && (b.track.lastPad == 0 || m.tick - b.track.lastPad >= m.config.padEveryFrames))
      && (Anew(s, m) ==>
          b.track == Fresh(m.tick).(phase := b.track.phase) && b.track.phase in {WaitingQuality, CheckingPad})
      && (!Anew(s, m) && !Again(s, Quality(t, m), m) ==>
            b.track == s.(seen := m.tick, phase := b.track.phase)
              && (b.track.phase == s.phase || b.track.phase == CheckingPad))
      && (Again(s, Quality(t, m), m) ==>
            b.track == s.(seen := m.tick, phase := Recognizing, extra := s.extra + 1, sum := Zero(), count := 0))
  {
  }

  lemma SameRecorded(s: Track, s': Track, r: Record, g: Gallery, c: Config)
    requires Recorded(s, r, g, c) && s' == s.(seen := s'.seen, phase := s'.phase)
    requires s'.phase in {Recognized, DuplicateIdentity} ==> s'.phase == s.phase
    ensures Recorded(s', r, g, c)
  {
  }

  lemma BeginRecorded(s: Track, t: TrackInput, m: Moment, r: Record)
    requires Recorded(s, r, m.gallery, m.config)
    ensures Recorded(Begin(s, t, m).track, Base(r, Anew(s, m), Again(s, Quality(t, m), m)), m.gallery, m.config)
  {
    hide Begin, ChecksMatch, FacesMatch, Anew;
    BeginCases(s, t, m);
    var b := Begin(s, t, m).track;
    if Anew(s, m) {
      FreshRecorded(m.tick, m.gallery, m.config);
      SameRecorded(Fresh(m.tick), b, NOTHING, m.gallery, m.config);
    } else if Again(s, Quality(t, m), m) {
      FaceDroppedRecorded(s, b, r, m.gallery, m.config);
      SameChecks(s, b, r.checks, m.config);
    } else {
      SameRecorded(s, b, r, m.gallery, m.config);
    }
  }

  lemma SameChecks(s: Track, s': Track, checks: seq<Check>, c: Config)
    requires ChecksMatch(s, checks, c)
    requires s'.scores == s.scores && s'.votes == s.votes && s'.evidence == s.evidence && s'.lastPad == s.lastPad
    ensures ChecksMatch(s', checks, c)
  {
  }

  lemma SameFaces(s: Track, s': Track, r: Record, r': Record, g: Gallery, c: Config)
    requires FacesMatch(s, r, g, c) && r'.faces == r.faces && r'.since == r.since && r'.retries == r.retries
    requires s'.attempts == s.attempts && s'.extra == s.extra && s'.count == s.count && s'.sum == s.sum
    requires s'.bestQuality == s.bestQuality && s'.found == s.found && s'.lastArc == s.lastArc
    requires s'.phase !in {Recognized, DuplicateIdentity}
    ensures FacesMatch(s', r', g, c)
  {
  }

  // ---------- one check

  lemma OneMoreLive(checks: seq<Check>, x: Check, threshold: real)
    ensures LiveChecks(checks + [x], threshold)
         == LiveChecks(checks, threshold) + (if x.result.Scored? && x.result.live >= threshold then {|checks|} else {})
  {
    var all := checks + [x];
    assert forall k: nat :: k < |checks| ==> all[k] == checks[k];
  }

  lemma OneMoreAttack(checks: seq<Check>, x: Check, threshold: real)
    ensures AttackChecks(checks + [x], threshold)
         == AttackChecks(checks, threshold) + (if x.result.Scored? && x.result.live < threshold then {|checks|} else {})
  {
    var all := checks + [x];
    assert forall k: nat :: k < |checks| ==> all[k] == checks[k];
  }

  lemma OneMoreRefused(checks: seq<Check>, x: Check)
    ensures RefusedChecks(checks + [x]) == RefusedChecks(checks) + (if x.result.InputRejected? then {|checks|} else {})
  {
    var all := checks + [x];
    assert forall k: nat :: k < |checks| ==> all[k] == checks[k];
  }

  lemma OneMoreScore(checks: seq<Check>, x: Check)
    ensures Lives(checks + [x]) == Lives(checks) + (if x.result.Scored? then [x.result.live] else [])
  {
    assert (checks + [x])[..|checks|] == checks;
  }

  lemma IndexIsNew(checks: seq<Check>, threshold: real)
    ensures |checks| !in LiveChecks(checks, threshold) && |checks| !in AttackChecks(checks, threshold)
    ensures |checks| !in RefusedChecks(checks)
  {
  }

  /** Adding a check moves the first score only if there was none. */
  lemma FirstScoreStays(checks: seq<Check>, x: Check)
    ensures var all := checks + [x];
      && (forall k: nat :: FirstScore(all, k) <==>
            if k < |checks| then FirstScore(checks, k) && checks[k].result.Scored?
            else k == |checks| && x.result.Scored? && forall i :: 0 <= i < |checks| ==> !checks[i].result.Scored?)
      && ((forall i :: 0 <= i < |all| ==> !all[i].result.Scored?) <==>
            !x.result.Scored? && forall i :: 0 <= i < |checks| ==> !checks[i].result.Scored?)
  {
    var all := checks + [x];
    assert forall i :: 0 <= i < |checks| ==> all[i] == checks[i];
    assert all[|checks|] == x;
  }

  /** What a check writes. */
  lemma CheckWrites(s: Track, x: PadResult, m: Moment)
    ensures var d := Checked(s, x, m);
      && d.lastPad == m.tick
      && (x.InputRejected? ==>
            d.scores == s.scores && d.evidence == s.evidence && d.votes == s.votes.(rejected := s.votes.rejected + 1))
      && (x.Scored? ==>
            && d.scores == s.scores + [x.live] && d.evidence == (if s.votes.attempts == 0 then m.now else s.evidence)
            && d.votes.attempts == s.votes.attempts + 1 && d.votes.rejected == s.votes.rejected
            && d.votes.bonaFide == s.votes.bonaFide + (if x.live >= m.config.liveThreshold then 1 else 0)
            && d.votes.attack == s.votes.attack + (if x.live < m.config.liveThreshold then 1 else 0))
  {
  }

  lemma VotesGrow(votes: Votes, checks: seq<Check>, one: Check, threshold: real)
    requires VotesMatch(votes, checks, threshold)
    ensures one.result.InputRejected? ==>
      VotesMatch(votes.(rejected := votes.rejected + 1), checks + [one], threshold)
    ensures one.result.Scored? && one.result.live >= threshold ==>
      VotesMatch(votes.(attempts := votes.attempts + 1, bonaFide := votes.bonaFide + 1), checks + [one], threshold)
    ensures one.result.Scored? && one.result.live < threshold ==>
      VotesMatch(votes.(attempts := votes.attempts + 1, attack := votes.attack + 1), checks + [one], threshold)
  {
    hide LiveChecks, AttackChecks, RefusedChecks;
    OneMoreLive(checks, one, threshold);
    OneMoreAttack(checks, one, threshold);
    OneMoreRefused(checks, one);
    IndexIsNew(checks, threshold);
  }

  lemma CheckMatches(s: Track, x: PadResult, m: Moment, checks: seq<Check>)
    requires ChecksMatch(s, checks, m.config) && m.tick > 0
    requires s.lastPad == 0 || m.tick - s.lastPad >= m.config.padEveryFrames
    ensures ChecksMatch(Checked(s, x, m), checks + [Check(x, m.tick, m.now)], m.config)
  {
    var one := Check(x, m.tick, m.now);
    CheckWrites(s, x, m);
    OneMoreScore(checks, one);
    VotesGrow(s.votes, checks, one, m.config.liveThreshold);
    EvidenceGrows(s, Checked(s, x, m), checks, one);
    ChecksPacedOn(s.lastPad, checks, one, m.config.padEveryFrames);
    hide VotesMatch, EvidenceMatches, ChecksPaced, Lives, Checked;
  }

  lemma EvidenceGrows(s: Track, d: Track, checks: seq<Check>, one: Check)
    requires EvidenceMatches(s, checks)
    requires one.result.InputRejected? ==> d.evidence == s.evidence && d.votes.attempts == s.votes.attempts
    requires one.result.Scored? ==>
      d.evidence == (if s.votes.attempts == 0 then one.at else s.evidence) && d.votes.attempts == s.votes.attempts + 1
    ensures EvidenceMatches(d, checks + [one])
  {
    hide FirstScore;
    FirstScoreStays(checks, one);
  }

  lemma ChecksPacedOn(last: nat, checks: seq<Check>, one: Check, every: nat)
    requires ChecksPaced(last, checks, every) && one.tick > 0 && (last == 0 || one.tick - last >= every)
    ensures ChecksPaced(one.tick, checks + [one], every)
  {
  }

  lemma CheckRecorded(s: Track, x: PadResult, m: Moment, r: Record)
    requires Recorded(s, r, m.gallery, m.config) && m.tick > 0 && s.phase == CheckingPad
    requires s.lastPad == 0 || m.tick - s.lastPad >= m.config.padEveryFrames
    ensures Recorded(Checked(s, x, m), WithCheck(r, Check(x, m.tick, m.now)), m.gallery, m.config)
    ensures Checked(s, x, m).lastPad == m.tick
  {
    hide ChecksMatch, FacesMatch;
    CheckMatches(s, x, m, r.checks);
    SameFaces(s, Checked(s, x, m), r, WithCheck(r, Check(x, m.tick, m.now)), m.gallery, m.config);
  }

  // ---------- one face

  lemma OneMoreSum(sum: Embedding, faces: seq<Face>, x: Face)
    requires IsSum(sum, faces)
    ensures IsSum(Plus(sum, x.embedding), faces + [x])
  {
    forall j: nat | j < DIMENSION ensures Plus(sum, x.embedding)[j] == Sum(Coordinate(faces + [x], j)) {
      var all := Coordinate(faces + [x], j);
      assert all == Coordinate(faces, j) + [x.embedding[j]];
      assert all[..|all| - 1] == Coordinate(faces, j);
    }
  }

  lemma MeanIsAverage(sum: Embedding, faces: seq<Face>)
    requires IsSum(sum, faces) && faces != []
    ensures IsAverage(Mean(sum, |faces|), faces)
    ensures forall q: Embedding :: IsAverage(q, faces) ==> q == Mean(sum, |faces|)
  {
    hide Sum, Coordinate;
    var n := |faces| as real;
    forall j: nat | j < DIMENSION ensures Mean(sum, |faces|)[j] * n == Sum(Coordinate(faces, j)) {
      QuotientTimes(sum[j], n);
    }
    forall q: Embedding | IsAverage(q, faces) ensures q == Mean(sum, |faces|) {
      forall j: nat | j < DIMENSION ensures q[j] == Mean(sum, |faces|)[j] {
        TimesQuotient(q[j], sum[j], n);
        assert Mean(sum, |faces|)[j] == sum[j] / n;
      }
    }
  }

  lemma QuotientTimes(x: real, n: real)
    requires n != 0.0
    ensures x / n * n == x
  {
  }

  lemma TimesQuotient(x: real, y: real, n: real)
    requires n != 0.0 && x * n == y
    ensures x == y / n
  {
  }

  lemma OneMoreQuality(b: real, faces: seq<Face>, x: Face)
    requires IsBestQuality(b, faces) && x.quality > 0.0
    ensures IsBestQuality(if b < x.quality then x.quality else b, faces + [x])
  {
    var all := faces + [x];
    if b < x.quality || faces == [] {
      assert all[|faces|].quality == x.quality;
    } else {
      var k :| 0 <= k < |faces| && faces[k].quality == b;
      assert all[k].quality == b;
    }
  }

  /** What a recognition writes. */
  lemma RecognitionWrites(s: Track, t: TrackInput, m: Moment, known: bool)
    requires ArcDue(s, t, m)
    ensures var e := m.models.embed(m.frameId, t.observation);
      var d, q := Concluded(Matched(Selected(s, t, m), e, m), known, m), Quality(t, m);
      && d.attempts == s.attempts + 1 && d.extra == s.extra && d.count == s.count + 1 && d.sum == Plus(s.sum, e)
      && d.bestQuality == (if s.bestQuality < q then q else s.bestQuality) && q > 0.0
      && d.found == m.gallery.find(Mean(Plus(s.sum, e), s.count + 1)) && d.lastArc == m.tick
      && (s.lastArc == 0 || m.tick - s.lastArc >= m.config.recognitionEveryFrames)
      && (d.phase in {Recognized, DuplicateIdentity} ==> d.terminal == m.now)
  {
    hide Plus, Mean, Quality, Accepted;
  }

  lemma FacesPacedOn(last: nat, faces: seq<Face>, one: Face, every: nat)
    requires FacesPaced(last, faces, every) && one.tick > 0 && (last == 0 || one.tick - last >= every)
    ensures FacesPaced(one.tick, faces + [one], every)
  {
  }

  lemma SumGrows(s: Track, d: Track, faces: seq<Face>, one: Face, g: Gallery)
    requires SumMatches(s, faces, g) && d.count == s.count + 1 && d.sum == Plus(s.sum, one.embedding)
    requires d.found == g.find(Mean(d.sum, d.count))
    ensures SumMatches(d, faces + [one], g)
  {
    hide IsSum, IsAverage, Plus, Mean;
    OneMoreSum(s.sum, faces, one);
    MeanIsAverage(d.sum, faces + [one]);
  }

  lemma FaceMatches(s: Track, t: TrackInput, m: Moment, known: bool, r: Record)
    requires FacesMatch(s, r, m.gallery, m.config) && m.tick > 0 && ArcDue(s, t, m)
    ensures var e := m.models.embed(m.frameId, t.observation);
      FacesMatch(Concluded(Matched(Selected(s, t, m), e, m), known, m),
                 WithFace(r, Face(e, Quality(t, m), m.tick, m.now)), m.gallery, m.config)
  {
    hide IsBestQuality, Plus, Mean, Quality, Accepted, Concluded, Matched, Selected, ArcDue, SumMatches, FacesPaced;
    RecognitionWrites(s, t, m, known);
    var e := m.models.embed(m.frameId, t.observation);
    var x, d := Face(e, Quality(t, m), m.tick, m.now), Concluded(Matched(Selected(s, t, m), e, m), known, m);
    assert (r.faces + [x])[r.since..] == r.faces[r.since..] + [x];
    SumGrows(s, d, r.faces[r.since..], x, m.gallery);
    OneMoreQuality(s.bestQuality, r.faces, x);
    FacesPacedOn(s.lastArc, r.faces, x, m.config.recognitionEveryFrames);
  }

  lemma FaceRecorded(s: Track, t: TrackInput, m: Moment, known: bool, r: Record)
    requires Recorded(s, r, m.gallery, m.config) && m.tick > 0 && ArcDue(s, t, m)
    ensures var e := m.models.embed(m.frameId, t.observation);
      var d := Concluded(Matched(Selected(s, t, m), e, m), known, m);
      && Recorded(d, WithFace(r, Face(e, Quality(t, m), m.tick, m.now)), m.gallery, m.config)
      && d.lastArc == m.tick && d.lastPad == s.lastPad
  {
    hide ChecksMatch, FacesMatch, Plus, Mean, Quality, Accepted;
    FaceMatches(s, t, m, known, r);
    var d := Concluded(Matched(Selected(s, t, m), m.models.embed(m.frameId, t.observation), m), known, m);
    SameChecks(s, d, r.checks, m.config);
  }

  // ---------- one step

  lemma StepRecorded(s: Track, t: TrackInput, m: Moment, known: bool, r: Record)
    requires Recorded(s, r, m.gallery, m.config) && m.tick > 0 && s.lastPad < m.tick && s.lastArc < m.tick
    ensures var d := TrackStep(s, t, m, known);
      Recorded(d, Noted(Base(r, Anew(s, m), Again(s, Quality(t, m), m)), d, m.models.pad(m.frameId, t.observation),
                        m.models.embed(m.frameId, t.observation), Quality(t, m), m.tick, m.now), m.gallery, m.config)
  {
    hide Begin, Checked, ArcDue, Concluded, Matched, Selected, Recorded, Anew, Again, Quality;
    BeginRecorded(s, t, m, r);
    BeginCases(s, t, m);
    var base := Base(r, Anew(s, m), Again(s, Quality(t, m), m));
    var b := Begin(s, t, m);
    var x := m.models.pad(m.frameId, t.observation);
    assert b.track.lastPad < m.tick && b.track.lastArc < m.tick;
    var checked := if b.due then WithCheck(base, Check(x, m.tick, m.now)) else base;
    var screened := Screened(s, t, m);
    if b.due {
      CheckRecorded(b.track, x, m, base);
      CheckKeepsArc(b.track, x, m);
    }
    assert Recorded(screened, checked, m.gallery, m.config);
    if ArcDue(screened, t, m) {
      FaceRecorded(screened, t, m, known, checked);
    }
  }

  lemma CheckKeepsArc(s: Track, x: PadResult, m: Moment)
    ensures Checked(s, x, m).lastArc == s.lastArc
  {
  }

  // ---------- whole runs

  /** One accepted frame keeps a track's record. */
  lemma FrameRecords(e: Engine, f: Frame, now: Time, id: nat, r: Record)
    requires EngineOk(e) && Accepts(e, f, now) && id in Processed(e, f, now).states
    requires id in e.states ==> Recorded(e.states[id], r, e.gallery, e.config)
    requires id !in e.states ==> r == NOTHING
    ensures var s := Processed(e, f, now).states[id];
      Recorded(s, match Find(f.tracks, id) case None => r case Some(t) => Extended(r, s, e, f, now, t), e.gallery,
               e.config)
  {
    hide Decide, TrackStep, Recorded, EngineOk;
    var m := MomentOf(e, f, now);
    var swept := Swept(e.states, e.tick + 1, e.config);
    var known := DecideAt(swept, Cooled(e.emitted, now, e.config), f.tracks, m, id);
    if Find(f.tracks, id).Some? {
      var t := Find(f.tracks, id).value;
      FoundOccurs(f.tracks, id);
      if id in swept {
        TicksArePast(e, id);
        StepRecorded(swept[id], t, m, known, r);
      } else {
        FreshRecorded(0, e.gallery, e.config);
        StepRecorded(Fresh(0), t, m, known, NOTHING);
      }
    }
  }

  lemma TicksArePast(e: Engine, id: nat)
    requires EngineOk(e) && id in e.states
    ensures e.states[id].lastPad <= e.tick && e.states[id].lastArc <= e.tick
  {
    assert TrackOk(e.states[id], e.config, e.tick, e.lastTime);
  }

  /** In every reachable state, every track's votes, scores, sum, budgets and clocks are those of its record. */
  lemma {:induction false} RecordsHold(c: Config, models: Evaluators, calls: seq<Call>, id: nat)
    requires ValidConfig(c)
    ensures var e := Run(Started(c, models), calls);
      && (id in e.states ==> Recorded(e.states[id], RecordOf(Started(c, models), calls, id), e.gallery, c))
      && (id !in e.states ==> RecordOf(Started(c, models), calls, id) == NOTHING)
  {
    hide Recorded, Processed, EngineOk, Extended;
    StartIsOk(c, models);
    if calls != [] {
      var start, front, last := Started(c, models), calls[..|calls| - 1], calls[|calls| - 1];
      RecordsHold(c, models, front, id);
      RunKeepsOk(start, front);
      var before, after := Run(start, front), Run(start, calls);
      if id in after.states && last.Process? {
        if Accepts(before, last.frame, last.now) {
          FrameRecords(before, last.frame, last.now, id, RecordOf(start, front, id));
          ProcessKeepsGallery(before, last.frame, last.now);
        } else {
          RejectedChangesNothing(before, last.frame, last.now);
        }
      }
    }
  }

  lemma ProcessKeepsGallery(e: Engine, f: Frame, now: Time)
    ensures Processed(e, f, now).gallery == e.gallery
  {
  }
}
