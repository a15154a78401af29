/** The attendance decision engine as functions: one automaton per track, run in batches over a frame. */
module Attendance {
  import opened Medians

  datatype Phase =
    | WaitingQuality | CheckingPad | RejectedAttack | Recognizing
    | Recognized | UnknownIdentity | RecognitionDeferred | DuplicateIdentity

  /** Milliseconds on the monotonic clock. */
  type Time = int

  type Identity = string

  const DIMENSION := 512

  type Embedding = e: seq<real> | |e| == DIMENSION witness seq(DIMENSION, _ => 0.0)

  function Zero(): Embedding {
    seq(DIMENSION, _ => 0.0)
  }

  datatype GalleryMatch = GalleryMatch(valid: bool, identity: Identity, best: real, margin: real)

  const NO_MATCH := GalleryMatch(false, "", -1.0, 0.0)

  /** The installed gallery: how many templates, and what a query finds. */
  datatype Gallery = Gallery(size: nat, find: Embedding -> GalleryMatch)

  datatype Votes = Votes(attempts: nat, bonaFide: nat, attack: nat, rejected: nat)

  /** What the liveness model says about one observation: no score, or a probability of being live. */
  datatype PadResult = InputRejected | Scored(live: real)

  /** An observation of a face; the evaluators are functions of it. */
  datatype Observation = Observation(box: (real, real, real, real), score: real, landmarks: seq<(real, real)>)

  datatype TrackInput = TrackInput(id: nat, hasObservation: bool, observation: Observation)

  datatype Frame = Frame(frameId: nat, tracks: seq<TrackInput>)

  /** The models, as functions of the frame and one observation, and the geometric quality of an observation. */
  datatype Evaluators = Evaluators(
    pad: (nat, Observation) -> PadResult,
    embed: (nat, Observation) -> Embedding,
    quality: Observation -> real)

  datatype Config = Config(
    bonaFideRequired: nat, attackRequired: nat, padMaxAttempts: nat, padEveryFrames: nat,
    recognitionMaxAttempts: nat, recognitionEveryFrames: nat, recognitionExtraAttempts: nat,
    liveThreshold: real, similarityThreshold: real, minMargin: real, retryQualityGain: real,
    eventCooldown: Time, evidenceTtl: Time, maxMissingFrames: nat)

  /** The cadence and budget rules a configuration must pass. */
  predicate ValidConfig(c: Config) {
    && 0.0 <= c.liveThreshold <= 1.0 && -1.0 < c.similarityThreshold <= 1.0
    && 0.0 <= c.minMargin <= 2.0 && c.retryQualityGain > 1.0
    && 0 < c.bonaFideRequired <= c.padMaxAttempts
    && 0 < c.attackRequired <= c.padMaxAttempts
    && c.padEveryFrames > 0 && c.recognitionEveryFrames > 0 && c.recognitionMaxAttempts > 0
    && c.maxMissingFrames > 0 && c.eventCooldown > 0 && c.evidenceTtl > 0
  }

  /** Everything the engine remembers about one track. Tick 0 means never. */
  datatype Track = Track(
    phase: Phase, seen: nat, lastPad: nat, lastArc: nat, attempts: nat, extra: nat, count: nat,
    evidence: Time, terminal: Time, votes: Votes, scores: seq<real>, sum: Embedding, bestQuality: real,
    found: GalleryMatch)

  function Fresh(seen: nat): Track {
    Track(WaitingQuality, seen, 0, 0, 0, 0, 0, 0, 0, Votes(0, 0, 0, 0), [], Zero(), 0.0, NO_MATCH)
  }

  /** What stays fixed while one frame is processed. */
  datatype Moment = Moment(config: Config, models: Evaluators, gallery: Gallery, frameId: nat, tick: nat, now: Time)

  function Quality(t: TrackInput, m: Moment): real {
    if t.hasObservation then m.models.quality(t.observation) else 0.0
  }

  predicate Settled(p: Phase) {
    p == Recognized || p == DuplicateIdentity || p == RejectedAttack || p == UnknownIdentity
  }

  // ---------- first pass: expiry, retry, and who needs a liveness check

  /** Terminal identities reopen after the cooldown. */
  function Reopened(s: Track, m: Moment): Track {
    if (s.phase == Recognized || s.phase == DuplicateIdentity) && m.now - s.terminal >= m.config.eventCooldown
    then Fresh(m.tick) else s.(seen := m.tick)
  }

  /** Liveness evidence that is too old takes everything built on it along. */
  function Expired(s: Track, m: Moment): Track {
    if s.votes.attempts > 0 && m.now - s.evidence > m.config.evidenceTtl then Fresh(s.seen) else s
  }

  /** A deferred track gets an extra attempt when the quality has clearly improved. */
  function Retried(s: Track, q: real, m: Moment): Track {
    if s.phase == RecognitionDeferred && s.extra < m.config.recognitionExtraAttempts
       && q >= s.bestQuality * m.config.retryQualityGain
    then s.(extra := s.extra + 1, phase := Recognizing, sum := Zero(), count := 0) else s
  }

  predicate PadDue(s: Track, m: Moment) {
    s.phase != Recognizing && s.phase != RecognitionDeferred
    && (s.lastPad == 0 || m.tick - s.lastPad >= m.config.padEveryFrames)
  }

  /** The state after the first pass, and whether the track asks for a liveness check. */
  datatype Begun = Begun(track: Track, due: bool)

  function Begin(s: Track, t: TrackInput, m: Moment): Begun {
    var reopened := Reopened(s, m);
    if Settled(reopened.phase) then Begun(reopened, false) else
    var current := Expired(reopened, m);
    var q := Quality(t, m);
    if q <= 0.0 || m.gallery.size == 0 then Begun(current, false) else
    var tried := Retried(current, q, m);
    if PadDue(tried, m) then Begun(tried.(phase := CheckingPad), true) else Begun(tried, false)
  }

  // ---------- second pass: liveness votes

  function Vote(v: Votes, live: bool): Votes {
    if live then v.(attempts := v.attempts + 1, bonaFide := v.bonaFide + 1)
    else v.(attempts := v.attempts + 1, attack := v.attack + 1)
  }

  function Judged(s: Track, c: Config): Phase {
    if s.votes.attack >= c.attackRequired then RejectedAttack
    else if s.votes.bonaFide >= c.bonaFideRequired then Recognizing
    else if s.votes.attempts >= c.padMaxAttempts then RejectedAttack
    else s.phase
  }

  /** The vote is counted; the first one starts the evidence clock. */
  function Voted(s: Track, live: real, m: Moment): Track {
    s.(lastPad := m.tick,
       evidence := if s.votes.attempts == 0 then m.now else s.evidence,
       votes := Vote(s.votes, live >= m.config.liveThreshold),
       scores := s.scores + [live])
  }

  function Refused(s: Track, m: Moment): Track {
    s.(lastPad := m.tick, votes := s.votes.(rejected := s.votes.rejected + 1), phase := WaitingQuality)
  }

  function Checked(s: Track, r: PadResult, m: Moment): Track {
    if r.InputRejected? then Refused(s, m)
    else Voted(s, r.live, m).(phase := Judged(Voted(s, r.live, m), m.config))
  }

  // ---------- third pass: who is recognised now

  predicate ArcDue(s: Track, t: TrackInput, m: Moment) {
    s.phase == Recognizing && Quality(t, m) > 0.0
    && (s.lastArc == 0 || m.tick - s.lastArc >= m.config.recognitionEveryFrames)
  }

  function Selected(s: Track, t: TrackInput, m: Moment): Track {
    if ArcDue(s, t, m) then s.(bestQuality := if s.bestQuality < Quality(t, m) then Quality(t, m) else s.bestQuality)
    else s
  }

  // ---------- fourth pass: recognition

  function Plus(a: Embedding, b: Embedding): Embedding {
    seq(DIMENSION, i requires 0 <= i < DIMENSION => a[i] + b[i])
  }

  function Mean(a: Embedding, n: nat): Embedding
    requires n > 0
  {
    seq(DIMENSION, i requires 0 <= i < DIMENSION => a[i] / n as real)
  }

  /** The track after one more embedding has been averaged in and looked up. */
  function Matched(s: Track, e: Embedding, m: Moment): Track {
    var sum := Plus(s.sum, e);
    s.(lastArc := m.tick, attempts := s.attempts + 1, count := s.count + 1, sum := sum,
       found := m.gallery.find(Mean(sum, s.count + 1)))
  }

  predicate Accepted(f: GalleryMatch, c: Config) {
    f.valid && f.best >= c.similarityThreshold && f.margin >= c.minMargin
  }

  function Exhausted(s: Track, c: Config): Track {
    if s.attempts >= c.recognitionMaxAttempts + s.extra
    then s.(phase := if s.extra < c.recognitionExtraAttempts then RecognitionDeferred else UnknownIdentity)
    else s
  }

  /** known: the identity is still in its cooldown. */
  function Concluded(s: Track, known: bool, m: Moment): Track {
    if Accepted(s.found, m.config) then s.(terminal := m.now, phase := if known then DuplicateIdentity else Recognized)
    else Exhausted(s, m.config)
  }

  datatype Event = Event(frameId: nat, track: nat, identity: Identity, similarity: real, margin: real, padReal: real)

  function EventOf(s: Track, id: nat, m: Moment): Event {
    Event(m.frameId, id, s.found.identity, s.found.best, s.found.margin, Median(s.scores))
  }

  /** What is shown of a track after a frame. */
  datatype Snapshot = Snapshot(
    track: nat, phase: Phase, score: real, width: real, height: real, votes: Votes, padReal: real,
    attempts: nat, identity: Identity, similarity: real, margin: real)

  function SnapshotOf(t: TrackInput, s: Track): Snapshot {
    var box := t.observation.box;
    Snapshot(t.id, s.phase, if t.hasObservation then t.observation.score else 0.0, box.2 - box.0, box.3 - box.1,
             s.votes, Median(s.scores), s.attempts, s.found.identity, s.found.best, s.found.margin)
  }

  /** The snapshot shows the track's own state, and size and score of the face it was seen by. */
  ghost predicate Depicts(p: Snapshot, t: TrackInput, s: Track) {
    && p.track == t.id && p.phase == s.phase && p.votes == s.votes && p.attempts == s.attempts
    && p.identity == s.found.identity && p.similarity == s.found.best && p.margin == s.found.margin
    && p.padReal == Median(s.scores) && p.score == (if t.hasObservation then t.observation.score else 0.0)
    && forall x1, y1, x2, y2 :: t.observation.box == (x1, y1, x2, y2) ==> p.width == x2 - x1 && p.height == y2 - y1
  }

  // ---------- the passes over a whole frame

  type Tracks = map<nat, Track>
  type Cooldowns = map<Identity, Time>

  function Lookup(states: Tracks, id: nat): Track {
    if id in states then states[id] else Fresh(0)
  }

  predicate DistinctIds(ts: seq<TrackInput>) {
    forall i, j :: 0 <= i < j < |ts| ==> ts[i].id != ts[j].id
  }

  /** Forgets tracks that have been missing for too long. */
  function Swept(states: Tracks, tick: nat, c: Config): Tracks {
    map id | id in states && tick - states[id].seen <= c.maxMissingFrames :: states[id]
  }

  /** Forgets identities whose cooldown is over. */
  function Cooled(emitted: Cooldowns, now: Time, c: Config): Cooldowns {
    map x | x in emitted && now - emitted[x] < c.eventCooldown :: emitted[x]
  }

  /** The states after a pass and the tracks it picked for the models, in frame order. */
  datatype Batch = Batch(states: Tracks, picked: seq<TrackInput>)

  function BeginOne(b: Batch, t: TrackInput, m: Moment): Batch {
    var r := Begin(Lookup(b.states, t.id), t, m);
    Batch(b.states[t.id := r.track], if r.due then b.picked + [t] else b.picked)
  }

  function BeginAll(states: Tracks, ts: seq<TrackInput>, m: Moment): Batch {
    if ts == [] then Batch(states, []) else BeginOne(BeginAll(states, ts[..|ts| - 1], m), ts[|ts| - 1], m)
  }

  function CheckOne(states: Tracks, t: TrackInput, m: Moment): Tracks {
    states[t.id := Checked(Lookup(states, t.id), m.models.pad(m.frameId, t.observation), m)]
  }

  function CheckAll(states: Tracks, ts: seq<TrackInput>, m: Moment): Tracks {
    if ts == [] then states else CheckOne(CheckAll(states, ts[..|ts| - 1], m), ts[|ts| - 1], m)
  }

  function SelectOne(b: Batch, t: TrackInput, m: Moment): Batch {
    var s := Lookup(b.states, t.id);
    Batch(b.states[t.id := Selected(s, t, m)], if ArcDue(s, t, m) then b.picked + [t] else b.picked)
  }

  function SelectAll(states: Tracks, ts: seq<TrackInput>, m: Moment): Batch {
    if ts == [] then Batch(states, []) else SelectOne(SelectAll(states, ts[..|ts| - 1], m), ts[|ts| - 1], m)
  }

  /** The last pass also writes the shared cooldowns and emits events. */
  datatype Tally = Tally(states: Tracks, emitted: Cooldowns, events: seq<Event>)

  function RecognizeOne(y: Tally, t: TrackInput, m: Moment): Tally {
    var s := Matched(Lookup(y.states, t.id), m.models.embed(m.frameId, t.observation), m);
    var x := s.found.identity;
    var known := x in y.emitted;
    var states := y.states[t.id := Concluded(s, known, m)];
    if Accepted(s.found, m.config) && !known
    then Tally(states, y.emitted[x := m.now], y.events + [EventOf(s, t.id, m)])
    else Tally(states, y.emitted, y.events)
  }

  function RecognizeAll(y: Tally, ts: seq<TrackInput>, m: Moment): Tally {
    if ts == [] then y else RecognizeOne(RecognizeAll(y, ts[..|ts| - 1], m), ts[|ts| - 1], m)
  }

  /** All four passes over the tracks of one frame. */
  function Decide(states: Tracks, emitted: Cooldowns, ts: seq<TrackInput>, m: Moment): Tally {
    var begun := BeginAll(states, ts, m);
    var selected := SelectAll(CheckAll(begun.states, begun.picked, m), ts, m);
    RecognizeAll(Tally(selected.states, emitted, []), selected.picked, m)
  }

  // ---------- the engine

  datatype Engine = Engine(
    config: Config, models: Evaluators, gallery: Gallery, states: Tracks, emitted: Cooldowns,
    tick: nat, lastFrame: nat, lastTime: Time, haveTime: bool)

  /** Frames and time must move forward and track ids must be unique within a frame. */
  predicate Accepts(e: Engine, f: Frame, now: Time) {
    (e.haveTime ==> now >= e.lastTime) && f.frameId > e.lastFrame && DistinctIds(f.tracks)
  }

  function MomentOf(e: Engine, f: Frame, now: Time): Moment {
    Moment(e.config, e.models, e.gallery, f.frameId, e.tick + 1, now)
  }

  function Outcome(e: Engine, f: Frame, now: Time): Tally {
    Decide(Swept(e.states, e.tick + 1, e.config), Cooled(e.emitted, now, e.config), f.tracks, MomentOf(e, f, now))
  }

  /** A rejected frame changes nothing. */
  function Processed(e: Engine, f: Frame, now: Time): Engine {
    if !Accepts(e, f, now) then e else
    var y := Outcome(e, f, now);
    e.(states := y.states, emitted := y.emitted, tick := e.tick + 1, lastFrame := f.frameId, lastTime := now,
       haveTime := true)
  }

  function EventsOf(e: Engine, f: Frame, now: Time): seq<Event> {
    if Accepts(e, f, now) then Outcome(e, f, now).events else []
  }

  /** Clears tracks and counters; cooldowns and time survive. */
  function Reset(e: Engine): Engine {
    e.(states := map[], tick := 0, lastFrame := 0)
  }

  function WithGallery(e: Engine, g: Gallery): Engine {
    Reset(e.(gallery := g))
  }

  function Started(c: Config, models: Evaluators): Engine {
    Engine(c, models, Gallery(0, _ => NO_MATCH), map[], map[], 0, 0, 0, false)
  }
}
