/** The tracker: followed, lost and removed tracks, updated frame by frame. */
module ByteTracker {
  import opened Collections
  import opened Association
  import opened STracks
  import opened TrackLists
  import opened TrackPhases
  import opened TrackRounds
  import opened TrackTurns
  import opened TrackerSteps

  // ---------- ids over whole runs

  /** The ids in use and the next fresh one. */
  datatype Census = Census(live: set<nat>, next: nat)

  /** One update: every id in use was in use before, or is one of the fresh ids handed out now. */
  ghost predicate Turnover(a: Census, b: Census) {
    && a.next <= b.next
    && forall id :: id in b.live ==> id in a.live || a.next <= id < b.next
  }

  ghost predicate IsRun(run: seq<Census>) {
    forall i :: 0 <= i < |run| - 1 ==> Turnover(run[i], run[i + 1])
  }

  /** An id that has been handed out and is not in use any more is never in use again. */
  lemma {:induction false} GoneForGood(run: seq<Census>, id: nat, i: nat, j: nat)
    requires IsRun(run) && i <= j < |run|
    requires id < run[i].next && id !in run[i].live
    ensures id < run[j].next && id !in run[j].live
    decreases j - i
  {
    if i < j {
      assert Turnover(run[i], run[i + 1]);
      GoneForGood(run, id, i + 1, j);
    }
  }

  /** The ids of the list. */
  ghost function Ids(ts: seq<STrack>): (ids: set<nat>)
    reads ts
    ensures forall id :: id in ids <==> HasId(ts, id)
  {
    set i | 0 <= i < |ts| :: ts[i].trackId
  }

  // ---------- what each frame leaves on record

  /** The detections of one frame, and for each track followed at its end the index of the detection it holds. */
  datatype Sighting = Sighting(input: seq<FaceDetection>, held: map<nat, nat>)

  ghost function TrackWith(ts: seq<STrack>, id: nat): (t: STrack)
    requires HasId(ts, id)
    reads ts
    ensures t in ts && t.trackId == id
  {
    var i :| 0 <= i < |ts| && ts[i].trackId == id;
    ts[i]
  }

  ghost function RecordOf(input: seq<FaceDetection>, followed: seq<STrack>): Sighting
    reads followed
  {
    Sighting(input, map id | id in Ids(followed) :: TrackWith(followed, id).slot)
  }

  /** Only detections of the frame are held, and none twice. */
  ghost predicate Conserves(s: Sighting) {
    && (forall id :: id in s.held ==> s.held[id] < |s.input|)
    && (forall i, j :: i in s.held && j in s.held && i != j ==> s.held[i] != s.held[j])
  }

  ghost predicate AllConserve(history: seq<Sighting>) {
    forall k :: 0 <= k < |history| ==> Conserves(history[k])
  }

  lemma ConservesMore(history: seq<Sighting>, more: Sighting)
    requires AllConserve(history) && Conserves(more)
    ensures AllConserve(history + [more])
  {
    hide Conserves;
  }

  /** In that frame the track held a detection above the threshold. */
  ghost predicate HeldHigh(history: seq<Sighting>, id: nat, frame: int, threshold: real) {
    && 1 <= frame <= |history| && id in history[frame - 1].held
    && var s := history[frame - 1];
       s.held[id] < |s.input| && s.input[s.held[id]].score > threshold
  }

  /** A confirmed track that started after the first frame held a high-score detection in the very next frame. */
  ghost predicate ProvenView(v: View, history: seq<Sighting>, threshold: real) {
    v.activated && v.start != 1 ==> HeldHigh(history, v.id, v.start + 1, threshold)
  }

  ghost predicate Proven(ts: seq<STrack>, history: seq<Sighting>, threshold: real)
    reads ts
  {
    forall i :: 0 <= i < |ts| ==> ProvenView(ts[i].Now(), history, threshold)
  }

  /** The list's record of its own track. */
  lemma RecordHas(input: seq<FaceDetection>, ts: seq<STrack>, t: STrack)
    requires t in ts && UniqueIds(ts)
    ensures var held := RecordOf(input, ts).held; t.trackId in held && held[t.trackId] == t.slot
  {
    var i :| 0 <= i < |ts| && ts[i] == t;
    assert HasId(ts, t.trackId);
    var u := TrackWith(ts, t.trackId);
    var j :| 0 <= j < |ts| && ts[j] == u;
  }

  lemma RecordConserves(input: seq<FaceDetection>, ts: seq<STrack>, frame: int)
    requires AllObserve(ts, input, frame) && SlotsDiffer(ts)
    ensures Conserves(RecordOf(input, ts))
  {
    var held := RecordOf(input, ts).held;
    forall id | id in held ensures exists i :: 0 <= i < |ts| && ts[i].trackId == id && ts[i].slot == held[id] {
      var t := TrackWith(ts, id);
      var i :| 0 <= i < |ts| && ts[i] == t;
    }
  }

  /** A detection of this frame belongs to the track. */
  ghost predicate Observes(t: STrack, input: seq<FaceDetection>, frame: int)
    reads t
  {
    && t.hasObservation && t.slot < |input| && t.observation == input[t.slot] && t.score == t.observation.score
    && t.frameId == frame && t.state == Tracked
  }

  lemma TurnedObserves(t: STrack, v: View, lost: bool, removed: bool, threshold: real, input: seq<FaceDetection>,
                       frame: int, maxTimeLost: int)
    requires Turned(v, t.Now(), true, lost, removed, threshold, input, frame, maxTimeLost)
    ensures Observes(t, input, frame) && t.isActivated
    ensures v.state == Lost || !v.activated ==> t.score > threshold
  {
    hide KalmanFilter.Sound;
  }

  lemma StartedObserves(t: STrack, id: nat, input: seq<FaceDetection>, frame: int, cfg: Config)
    requires Started(t, id, input, frame, cfg)
    ensures Observes(t, input, frame) && t.startFrame == frame && t.isActivated == (frame == 1)
  {
    hide KalmanFilter.Sound;
  }

  /** A followed track had its proof, or has it in this frame's record. */
  lemma FollowedProven(t: STrack, v: View, lost: bool, removed: bool, a: seq<STrack>, history: seq<Sighting>,
                       threshold: real, input: seq<FaceDetection>, frame: int, nextId: nat, maxTimeLost: int)
    requires Turned(v, t.Now(), true, lost, removed, threshold, input, frame, maxTimeLost)
    requires Followed(v, frame - 1, nextId) || Waiting(v, frame - 1, nextId, maxTimeLost)
    requires ProvenView(v, history, threshold) && |history| == frame - 1 && t in a && UniqueIds(a)
    ensures ProvenView(t.Now(), history + [RecordOf(input, a)], threshold)
  {
    hide Turned, KalmanFilter.Sound, STrack.Now, UniqueIds, RecordOf;
    TurnedKeepsId(v, t.Now(), true, lost, removed, threshold, input, frame, maxTimeLost);
    StartAndId(t);
    TurnedObserves(t, v, lost, removed, threshold, input, frame, maxTimeLost);
    RecordHas(input, a, t);
    assert RecordOf(input, a).input == input by {
      RecordsInput(input, a);
    }
  }

  lemma RecordsInput(input: seq<FaceDetection>, ts: seq<STrack>)
    ensures RecordOf(input, ts).input == input
  {
  }

  /** A track that waits was confirmed before, and keeps its proof. */
  lemma WaitingProven(t: STrack, v: View, lost: bool, more: Sighting, history: seq<Sighting>, threshold: real,
                      input: seq<FaceDetection>, frame: int, nextId: nat, maxTimeLost: int)
    requires Turned(v, t.Now(), false, lost, false, threshold, input, frame, maxTimeLost)
    requires Followed(v, frame - 1, nextId) || Waiting(v, frame - 1, nextId, maxTimeLost)
    requires ProvenView(v, history, threshold)
    ensures ProvenView(t.Now(), history + [more], threshold)
  {
    hide KalmanFilter.Sound, STrack.Now;
    WaitingWasConfirmed(v, t.Now(), lost, threshold, input, frame, nextId, maxTimeLost);
    TurnedKeepsId(v, t.Now(), false, lost, false, threshold, input, frame, maxTimeLost);
  }

  lemma StartAndId(t: STrack)
    ensures t.Now().id == t.trackId && t.Now().start == t.startFrame && t.Now().activated == t.isActivated
  {
  }

  // ---------- the frame as a whole

  /** The old tracks of the frame with their views before it, and how they came out. */
  ghost predicate Came(base: seq<STrack>, was: seq<View>, followed: seq<STrack>, waiting: seq<STrack>,
                       lost: seq<STrack>, removed: seq<STrack>, threshold: real, input: seq<FaceDetection>, frame: int,
                       nextId: nat, maxTimeLost: int)
    reads base
  {
    && |was| == |base| && AllTurned(base, was, followed, lost, removed, threshold, input, frame, maxTimeLost)
    && (forall j :: 0 <= j < |base| ==> base[j].trackId == was[j].id)
    && (forall j, k :: 0 <= j < |was| && 0 <= k < |was| && was[j].id == was[k].id ==>
        base[j] == base[k] && was[j] == was[k])
    && (forall j :: 0 <= j < |was| ==>
          Followed(was[j], frame - 1, nextId) || Waiting(was[j], frame - 1, nextId, maxTimeLost))
    && (forall j :: 0 <= j < |base| ==> ExactlyOne(base[j] in followed, base[j] in waiting, base[j] in removed))
  }

  lemma BothCame(tracked: seq<STrack>, lost: seq<STrack>, vt: seq<View>, vl: seq<View>,
                 followed: seq<STrack>, waiting: seq<STrack>, newlyLost: seq<STrack>, removed: seq<STrack>,
                 threshold: real, input: seq<FaceDetection>, frame: int, nextId: nat, next: nat, maxTimeLost: int)
    requires |vt| == |tracked| && AllTurned(tracked, vt, followed, newlyLost, removed, threshold, input, frame,
                                            maxTimeLost)
    requires |vl| == |lost| && AllTurned(lost, vl, followed, newlyLost, removed, threshold, input, frame, maxTimeLost)
    requires Settled(tracked, followed, waiting, removed, frame, next, maxTimeLost)
    requires Settled(lost, followed, waiting, removed, frame, next, maxTimeLost)
    requires forall i :: 0 <= i < |tracked| ==> WasInOrder(vt[i], true, frame - 1, nextId, maxTimeLost)
    requires forall i :: 0 <= i < |lost| ==> WasInOrder(vl[i], false, frame - 1, nextId, maxTimeLost)
    requires var was, base := vt + vl, tracked + lost;
      forall i, j :: 0 <= i < |was| && 0 <= j < |was| && was[i].id == was[j].id ==>
        base[i] == base[j] && was[i] == was[j]
    ensures Came(tracked + lost, vt + vl, followed, waiting, newlyLost, removed, threshold, input, frame, nextId,
                 maxTimeLost)
  {
    hide Turned, Followed, Waiting, STrack.Now;
    IdsStay(tracked, vt, followed, newlyLost, removed, threshold, input, frame, maxTimeLost);
    IdsStay(lost, vl, followed, newlyLost, removed, threshold, input, frame, maxTimeLost);
  }

  /** A track that waits now was confirmed before. */
  lemma WaitingWasConfirmed(v: View, w: View, lost: bool, threshold: real, input: seq<FaceDetection>, frame: int,
                            nextId: nat, maxTimeLost: int)
    requires Turned(v, w, false, lost, false, threshold, input, frame, maxTimeLost)
    requires Followed(v, frame - 1, nextId) || Waiting(v, frame - 1, nextId, maxTimeLost)
    ensures v.activated
  {
    hide KalmanFilter.Sound;
  }

  /** New tracks need no proof yet. */
  lemma StartedProven(t: STrack, id: nat, input: seq<FaceDetection>, frame: int, cfg: Config, history: seq<Sighting>)
    requires Started(t, id, input, frame, cfg)
    ensures ProvenView(t.Now(), history, cfg.trackThreshold)
  {
    StartedObserves(t, id, input, frame, cfg);
  }

  /** The thinned lists. */
  ghost predicate Thinned(a: seq<STrack>, b: seq<STrack>, base: seq<STrack>, started: seq<STrack>,
                          followed: seq<STrack>, waiting: seq<STrack>) {
    && Distinct(a) && Distinct(b) && Among(a, followed) && Among(b, waiting)
    && Among(followed, base + started) && Among(waiting, base)
  }

  /** Every track that stays has its proof. */
  lemma FrameProven(a: seq<STrack>, b: seq<STrack>, base: seq<STrack>, was: seq<View>, started: seq<STrack>,
                    followed: seq<STrack>, waiting: seq<STrack>, lost: seq<STrack>, removed: seq<STrack>,
                    history: seq<Sighting>, cfg: Config, input: seq<FaceDetection>, frame: int, nextId: nat,
                    maxTimeLost: int)
    requires Came(base, was, followed, waiting, lost, removed, cfg.trackThreshold, input, frame, nextId, maxTimeLost)
    requires forall i :: 0 <= i < |was| ==> ProvenView(was[i], history, cfg.trackThreshold)
    requires Thinned(a, b, base, started, followed, waiting) && UniqueIds(a) && |history| == frame - 1
    requires forall k :: 0 <= k < |started| ==> Started(started[k], nextId + k, input, frame, cfg)
    ensures Proven(a + b, history + [RecordOf(input, a)], cfg.trackThreshold)
  {
    hide Turned, Followed, Waiting, ProvenView, Started, STrack.Now, UniqueIds, RecordOf;
    var longer := history + [RecordOf(input, a)];
    forall t | t in a ensures ProvenView(t.Now(), longer, cfg.trackThreshold) {
      assert t in base || t in started by {
        FollowedFrom(a, b, base, started, followed, waiting, t);
      }
      if t in base {
        var j :| 0 <= j < |base| && base[j] == t;
        assert t in followed by {
          FollowedFrom(a, b, base, started, followed, waiting, t);
        }
        FollowedProven(t, was[j], t in lost, t in removed, a, history, cfg.trackThreshold, input, frame, nextId,
                       maxTimeLost);
      } else {
        var j :| 0 <= j < |started| && started[j] == t;
        StartedProven(t, nextId + j, input, frame, cfg, longer);
      }
    }
    forall t | t in b ensures ProvenView(t.Now(), longer, cfg.trackThreshold) {
      WaitingFrom(a, b, base, started, followed, waiting, t);
      var j :| 0 <= j < |base| && base[j] == t;
      WaitingProven(t, was[j], t in lost, RecordOf(input, a), history, cfg.trackThreshold, input, frame, nextId,
                    maxTimeLost);
    }
    forall i | 0 <= i < |a + b| ensures ProvenView((a + b)[i].Now(), longer, cfg.trackThreshold) {
      assert (a + b)[i] in a || (a + b)[i] in b;
    }
  }

  lemma FollowedFrom(a: seq<STrack>, b: seq<STrack>, base: seq<STrack>, started: seq<STrack>, followed: seq<STrack>,
                     waiting: seq<STrack>, t: STrack)
    requires Thinned(a, b, base, started, followed, waiting) && t in a
    ensures t in followed && (t in base || t in started)
  {
    var i :| 0 <= i < |a| && a[i] == t;
    var j :| 0 <= j < |followed| && followed[j] == t;
    assert t in base + started;
  }

  lemma WaitingFrom(a: seq<STrack>, b: seq<STrack>, base: seq<STrack>, started: seq<STrack>, followed: seq<STrack>,
                    waiting: seq<STrack>, t: STrack)
    requires Thinned(a, b, base, started, followed, waiting) && t in b
    ensures t in waiting && t in base
  {
    var i :| 0 <= i < |b| && b[i] == t;
    var j :| 0 <= j < |waiting| && waiting[j] == t;
  }

  lemma ThinnedInOrder(a: seq<STrack>, b: seq<STrack>, followed: seq<STrack>, waiting: seq<STrack>, frame: int,
                       nextId: nat, maxTimeLost: int)
    requires Distinct(a) && Distinct(b) && Among(a, followed) && Among(b, waiting)
    requires InOrder(followed, waiting, frame, nextId, maxTimeLost)
    ensures InOrder(a, b, frame, nextId, maxTimeLost)
  {
    hide Followed, Waiting, STrack.Now;
    TrackedNotLost(followed, waiting);
    forall t | t in a ensures t in followed && t !in waiting {
      var i :| 0 <= i < |a| && a[i] == t;
    }
    forall t | t in b ensures t in waiting {
      var i :| 0 <= i < |b| && b[i] == t;
    }
    JoinDistinct(a, b, waiting);
    var all, were := a + b, followed + waiting;
    forall i, j | 0 <= i < |all| && 0 <= j < |all| && all[i].trackId == all[j].trackId ensures all[i] == all[j] {
      assert all[i] in a || all[i] in b;
      assert all[j] in a || all[j] in b;
      assert all[i] in were && all[j] in were;
      var k :| 0 <= k < |were| && were[k] == all[i];
      var l :| 0 <= l < |were| && were[l] == all[j];
    }
    forall i | 0 <= i < |a| ensures Followed(a[i].Now(), frame, nextId) {
      var k :| 0 <= k < |followed| && followed[k] == a[i];
    }
    forall i | 0 <= i < |b| ensures Waiting(b[i].Now(), frame, nextId, maxTimeLost) {
      var k :| 0 <= k < |waiting| && waiting[k] == b[i];
    }
  }

  /** The ids afterwards are old ones or fresh ones. */
  lemma IdsTurnOver(a: seq<STrack>, b: seq<STrack>, base: seq<STrack>, started: seq<STrack>, followed: seq<STrack>,
                    waiting: seq<STrack>, ids: set<nat>, nextId: nat)
    requires Thinned(a, b, base, started, followed, waiting)
    requires forall j :: 0 <= j < |base| ==> base[j].trackId in ids
    requires forall k :: 0 <= k < |started| ==> started[k].trackId == nextId + k
    ensures Turnover(Census(ids, nextId), Census(Ids(a + b), nextId + |started|))
  {
    forall id | id in Ids(a + b) ensures id in ids || nextId <= id < nextId + |started| {
      var i :| 0 <= i < |a + b| && (a + b)[i].trackId == id;
      var t := (a + b)[i];
      if i < |a| {
        assert a[i] == t;
        assert t in followed;
        assert t in base + started;
      } else {
        assert b[i - |a|] == t;
        assert t in waiting;
        assert t in base;
      }
      assert t in base || t in started;
    }
  }

  /** Every followed track holds a detection of this frame, and lost ones that are followed again a high-scoring one. */
  lemma FollowedObserve(base: seq<STrack>, was: seq<View>, started: seq<STrack>, followed: seq<STrack>,
                        waiting: seq<STrack>, lost: seq<STrack>, removed: seq<STrack>, cfg: Config,
                        input: seq<FaceDetection>, frame: int, nextId: nat, maxTimeLost: int)
    requires Came(base, was, followed, waiting, lost, removed, cfg.trackThreshold, input, frame, nextId, maxTimeLost)
    requires Among(followed, base + started)
    requires forall k :: 0 <= k < |started| ==> Started(started[k], nextId + k, input, frame, cfg)
    ensures forall t :: t in followed ==> Observes(t, input, frame)
    ensures forall i :: 0 <= i < |base| && base[i] in followed && was[i].state == Lost ==>
      base[i].score > cfg.trackThreshold
  {
    hide Turned, Followed, Waiting, STrack.Now, Started, Observes;
    forall i | 0 <= i < |base| && base[i] in followed
      ensures Observes(base[i], input, frame) && (was[i].state == Lost ==> base[i].score > cfg.trackThreshold)
    {
      TurnedObserves(base[i], was[i], base[i] in lost, base[i] in removed, cfg.trackThreshold, input, frame,
                     maxTimeLost);
    }
    forall k | 0 <= k < |started| ensures Observes(started[k], input, frame) {
      StartedObserves(started[k], nextId + k, input, frame, cfg);
    }
    forall t | t in followed ensures Observes(t, input, frame) {
      var i :| 0 <= i < |followed| && followed[i] == t;
      assert t in base + started;
      if t in base {
        var j :| 0 <= j < |base| && base[j] == t;
      } else {
        var j :| 0 <= j < |started| && started[j] == t;
      }
    }
  }

  /** Removed tracks are in state Removed, and their ids are spent. */
  lemma GoneAreRemoved(base: seq<STrack>, was: seq<View>, followed: seq<STrack>, waiting: seq<STrack>,
                       lost: seq<STrack>, removed: seq<STrack>, threshold: real, input: seq<FaceDetection>, frame: int,
                       nextId: nat, maxTimeLost: int)
    requires Came(base, was, followed, waiting, lost, removed, threshold, input, frame, nextId, maxTimeLost)
    requires Among(removed, base) && Among(lost, waiting)
    ensures forall i :: 0 <= i < |removed| ==>
      removed[i] !in followed && removed[i] !in waiting && removed[i].trackId < nextId && removed[i].state == Removed
  {
    hide Turned, STrack.Now, KalmanFilter.Sound;
    forall i | 0 <= i < |removed|
      ensures removed[i] !in followed && removed[i] !in waiting && removed[i].trackId < nextId
        && removed[i].state == Removed
    {
      var j :| 0 <= j < |base| && base[j] == removed[i];
      var t := base[j];
      assert t in removed;
      assert t !in lost;
      TurnedKeepsId(was[j], t.Now(), t in followed, t in lost, t in removed, threshold, input, frame, maxTimeLost);
      StateIs(t);
    }
  }

  lemma StateIs(t: STrack)
    ensures t.Now().state == t.state
  {
  }

  // ---------- the tracker

  /** What the tracker reports about a confirmed track. */
  datatype TrackResult = TrackResult(
    id: nat, box: Item, score: real, state: TrackState, start: int, frame: int, length: int,
    hasObservation: bool, observation: FaceDetection)

  function ResultOf(t: STrack): TrackResult
    reads t
  {
    TrackResult(t.trackId, t.Box(), t.score, t.state, t.startFrame, t.frameId, t.trackletLen, t.hasObservation,
                t.observation)
  }

  /** The reports on the confirmed tracks of the list, in order. */
  function ResultsOf(ts: seq<STrack>): (rs: seq<TrackResult>)
    reads ts
    ensures forall r :: r in rs ==> exists i :: 0 <= i < |ts| && ts[i].isActivated && r == ResultOf(ts[i])
    ensures forall i :: 0 <= i < |ts| && ts[i].isActivated ==> ResultOf(ts[i]) in rs
  {
    if ts == [] then [] else
    var rest := ResultsOf(ts[..|ts| - 1]);
    if ts[|ts| - 1].isActivated then rest + [ResultOf(ts[|ts| - 1])] else rest
  }

  /** frameRate / 30 * trackBuffer, cut off towards zero. */
  function TimeLost(c: Config): int {
    var x := c.frameRate as real / 30.0 * c.trackBuffer as real;
    if x >= 0.0 then x.Floor else -((-x).Floor)
  }

  /** The limit in frames: the buffer scaled from thirty frames a second, without its fraction. */
  lemma TimeLostIs(c: Config)
    ensures var x := c.frameRate * c.trackBuffer;
      if x >= 0 then 30 * TimeLost(c) <= x < 30 * TimeLost(c) + 30 else 30 * TimeLost(c) - 30 < x <= 30 * TimeLost(c)
  {
    var x := c.frameRate * c.trackBuffer;
    assert c.frameRate as real / 30.0 * c.trackBuffer as real == x as real / 30.0;
  }

  /** The reports on the confirmed tracks. */
  method Report(ts: seq<STrack>) returns (out: seq<TrackResult>)
    ensures out == ResultsOf(ts)
  {
    out := [];
    for k := 0 to |ts|
      invariant out == ResultsOf(ts[..k])
    {
      assert ts[..k + 1][..k] == ts[..k];
      if ts[k].isActivated {
        out := out + [ResultOf(ts[k])];
      }
    }
    assert ts[..|ts|] == ts;
  }

  /** Removed tracks are out of the lists for good. */
  ghost predicate Retired(removed: seq<STrack>, tracked: seq<STrack>, lost: seq<STrack>, nextId: nat)
    reads removed
  {
    forall i :: 0 <= i < |removed| ==>
      removed[i] !in tracked && removed[i] !in lost && removed[i].trackId < nextId && removed[i].state == Removed
  }

  /** No track on one list shares its face with a track on the other. */
  ghost predicate NoTwins(a: seq<STrack>, b: seq<STrack>)
    reads a, b
  {
    forall i, j :: 0 <= i < |a| && 0 <= j < |b| ==> !SameFace(a[i], b[j])
  }

  /** Of two tracks on one face, the longer-lived stays, the followed one only if it is strictly older. */
  ghost predicate LongestStay(a: seq<STrack>, b: seq<STrack>, followed: seq<STrack>, waiting: seq<STrack>)
    reads followed, waiting
  {
    && Among(a, followed) && Among(b, waiting)
    && (forall i :: 0 <= i < |followed| ==> (followed[i] in a <==> !Outlived(followed[i], waiting)))
    && (forall i :: 0 <= i < |waiting| ==> (waiting[i] in b <==> !Outranked(waiting[i], followed)))
  }

  ghost predicate AllObserve(ts: seq<STrack>, input: seq<FaceDetection>, frame: int)
    reads ts
  {
    forall i :: 0 <= i < |ts| ==> Observes(ts[i], input, frame)
  }

  /** Lost tracks are followed again on a score above the threshold only. */
  ghost predicate FoundAgainOnHigh(lost: seq<STrack>, followed: seq<STrack>, threshold: real)
    reads lost
  {
    forall i :: 0 <= i < |lost| && lost[i] in followed ==> lost[i].score > threshold
  }

  /** Every reported track that started after the first frame held a high-score detection in the very next frame. */
  ghost predicate SeenTwice(out: seq<TrackResult>, history: seq<Sighting>, threshold: real) {
    forall k :: 0 <= k < |out| && out[k].start != 1 ==> HeldHigh(history, out[k].id, out[k].start + 1, threshold)
  }

  lemma ReportedSeenTwice(ts: seq<STrack>, others: seq<STrack>, history: seq<Sighting>, threshold: real)
    requires Proven(ts + others, history, threshold)
    ensures SeenTwice(ResultsOf(ts), history, threshold)
  {
    hide ResultsOf, HeldHigh;
    var out := ResultsOf(ts);
    forall k | 0 <= k < |out| && out[k].start != 1 ensures HeldHigh(history, out[k].id, out[k].start + 1, threshold) {
      assert out[k] in out;
      var i :| 0 <= i < |ts| && ts[i].isActivated && out[k] == ResultOf(ts[i]);
      assert ProvenView((ts + others)[i].Now(), history, threshold);
    }
  }

  /** The lost tracks were all seen recently enough for the configured limit. */
  ghost predicate WithinLimit(lost: seq<STrack>, frame: int, maxTimeLost: int)
    reads lost
  {
    forall i :: 0 <= i < |lost| ==> frame - lost[i].frameId <= maxTimeLost
  }

  /** No track that was followed before this frame is on the list of lost ones after it. */
  ghost predicate NobodyJustLost(tracked: seq<STrack>, lost: seq<STrack>) {
    forall i :: 0 <= i < |lost| ==> lost[i] !in tracked
  }

  /** The configured limit is met exactly when it allows for one frame or nobody was lost just now. */
  lemma LimitMetIff(tracked: seq<STrack>, lost: seq<STrack>, waiting: seq<STrack>, b: seq<STrack>, frame: int,
                    maxTimeLost: int)
    requires AgesWithin(tracked, waiting, frame, 1, 1) && AgesWithin(lost, waiting, frame, 2, maxTimeLost)
    requires Among(b, waiting) && Among(waiting, tracked + lost) && maxTimeLost >= 0
    ensures WithinLimit(b, frame, maxTimeLost) <==> maxTimeLost >= 1 || NobodyJustLost(tracked, b)
  {
    forall i | 0 <= i < |b|
      ensures if b[i] in tracked then frame - b[i].frameId == 1 else frame - b[i].frameId <= maxTimeLost
    {
      var t := b[i];
      assert t in waiting;
      var k :| 0 <= k < |waiting| && waiting[k] == t;
      assert t in tracked + lost;
      if t in tracked {
        var j :| 0 <= j < |tracked| && tracked[j] == t;
      } else {
        var j :| 0 <= j < |lost| && lost[j] == t;
      }
    }
  }

  /** The new tracks are all followed, bear the next ids, and start as the frame says. */
  ghost predicate NewTracks(started: seq<STrack>, followed: seq<STrack>, waiting: seq<STrack>, nextId: nat,
                            input: seq<FaceDetection>, frame: int, cfg: Config)
    reads started
  {
    && Distinct(started)
    && (forall k :: 0 <= k < |started| ==> started[k] in followed && started[k] !in waiting)
    && (forall k :: 0 <= k < |started| ==> Started(started[k], nextId + k, input, frame, cfg))
  }

  /** What one frame does, for the old tracks with their views before it, the lists it leaves, and what it reports on
      the way: followed and waiting are the lists before twins are thinned out, newlyLost and gone the tracks lost and
      removed now. */
  ghost predicate FrameDone(tracked: seq<STrack>, vt: seq<View>, lost: seq<STrack>, vl: seq<View>, a: seq<STrack>,
                            b: seq<STrack>, followed: seq<STrack>, waiting: seq<STrack>, newlyLost: seq<STrack>,
                            gone: seq<STrack>, started: seq<STrack>, input: seq<FaceDetection>, cfg: Config, frame: int,
                            nextId: nat, next: nat, maxTimeLost: int)
    requires |vt| == |tracked| && |vl| == |lost|
    reads tracked, lost, a, b, followed, waiting, started
  {
    // How each old track came out, and where it is then: followed, lost, or removed just now.
    && AllTurned(tracked, vt, followed, newlyLost, gone, cfg.trackThreshold, input, frame, maxTimeLost)
    && AllTurned(lost, vl, followed, newlyLost, gone, cfg.trackThreshold, input, frame, maxTimeLost)
    && Settled(tracked, followed, waiting, gone, frame, next, maxTimeLost)
    && Settled(lost, followed, waiting, gone, frame, next, maxTimeLost)
    && next == nextId + |started|
    && NewTracks(started, followed, waiting, nextId, input, frame, cfg)
    && Among(followed, tracked + lost + started) && Among(waiting, tracked + lost) && Among(gone, tracked + lost)
    // A track lost just now is one frame old, one lost before at most as many as allowed.
    && AgesWithin(tracked, waiting, frame, 1, 1) && AgesWithin(lost, waiting, frame, 2, maxTimeLost)
    // No detection that scores enough goes unused.
    && AllUsed(followed, input, cfg)
    // Of two tracks on one face, the longer-lived stays.
    && LongestStay(a, b, followed, waiting) && NoTwins(a, b)
    // Each followed track holds a detection of this frame, no two the same; lost ones come back on high scores only.
    && AllObserve(a, input, frame) && SlotsDiffer(a) && FoundAgainOnHigh(lost, a, cfg.trackThreshold)
  }

  /** One frame up to its report, on the lists. */
  method RunFrame(tracked: seq<STrack>, lost: seq<STrack>, ghost removed: seq<STrack>, ghost history: seq<Sighting>,
                  input: seq<FaceDetection>, cfg: Config, frame: int, nextId: nat, maxTimeLost: int)
    returns (ok: bool, a: seq<STrack>, b: seq<STrack>, gone: seq<STrack>, next: nat,
             ghost followed: seq<STrack>, ghost waiting: seq<STrack>, ghost newlyLost: seq<STrack>,
               ghost started: seq<STrack>)
    requires InOrder(tracked, lost, frame - 1, nextId, maxTimeLost) && maxTimeLost >= 0 && nextId >= 1
    requires Retired(removed, tracked, lost, nextId)
    requires |history| == frame - 1 && Proven(tracked + lost, history, cfg.trackThreshold)
    modifies tracked, lost
    ensures NeverThrows(old(Views(tracked)), old(Views(lost))) ==> ok
    ensures ok ==> InOrder(a, b, frame, next, maxTimeLost) && Retired(removed + gone, a, b, next)
    ensures ok ==> Proven(a + b, history + [RecordOf(input, a)], cfg.trackThreshold)
    ensures ok ==> Conserves(RecordOf(input, a))
    ensures ok ==> Turnover(Census(old(Ids(tracked + lost)), nextId), Census(Ids(a + b), next))
    ensures ok ==>
      FrameDone(tracked, old(Views(tracked)), lost, old(Views(lost)), a, b, followed, waiting, newlyLost, gone, started,
                             input, cfg, frame, nextId, next, maxTimeLost)
    ensures ok ==> NewTracks(started, followed, waiting, nextId, input, frame, cfg)
    ensures ok ==> next == nextId + |started| && forall k :: 0 <= k < |started| ==> fresh(started[k])
    ensures ok ==> (WithinLimit(b, frame, maxTimeLost) <==> maxTimeLost >= 1 || NobodyJustLost(tracked, b))
  {
    hide Turned, Followed, Waiting, STrack.Now, Started, Observes, UniqueIds, InOrder, AllTurned, Settled, Among, Came,
         Thinned, Proven, ProvenView, SlotsDiffer, Distinct, Outlived, Outranked, SameFace, ExactlyOne, Turnover,
         WasInOrder, Ids, Retired, NoTwins, LongestStay, AllObserve, FoundAgainOnHigh, NeverThrows, AllUsed, AgesWithin,
         WithinLimit, NobodyJustLost, RecordOf, Conserves;
    a, b, followed, waiting, newlyLost, started := [], [], [], [], [], [];
    ghost var base, vt, vl := tracked + lost, Views(tracked), Views(lost);
    ghost var ids, was := Ids(base), vt + vl;
    OrderedViews(tracked, lost, frame - 1, nextId, maxTimeLost);
    BeforeFrame(tracked, lost, history, cfg.trackThreshold);
    ViewsOf(lost, vl);
    RetiredApart(removed, tracked, lost, nextId);
    var f, w;
    ok, f, w, gone, next, started, newlyLost := Step(tracked, lost, input, cfg, frame, nextId, maxTimeLost);
    followed, waiting := f, w;
    if !ok {
      return;
    }
    BothCame(tracked, lost, vt, vl, f, w, newlyLost, gone, cfg.trackThreshold, input, frame, nextId, next, maxTimeLost);
    CameKeepIds(base, was, f, w, newlyLost, gone, cfg.trackThreshold, input, frame, nextId, maxTimeLost);
    a, b := RemoveDuplicates(f, w);
    OrderedViews(f, w, frame, next, maxTimeLost);
    ThinnedLists(a, b, base, started, f, w);
    ThinnedInOrder(a, b, f, w, frame, next, maxTimeLost);
    OrderedIds(a, b, frame, next, maxTimeLost);
    FrameProven(a, b, base, was, started, f, w, newlyLost, gone, history, cfg, input, frame, nextId, maxTimeLost);
    StartedIds(started, nextId, input, frame, cfg);
    OldIds(base, was, ids);
    IdsTurnOver(a, b, base, started, f, w, ids, nextId);
    GoneAreRemoved(base, was, f, w, newlyLost, gone, cfg.trackThreshold, input, frame, nextId, maxTimeLost);
    RetiredStay(removed, gone, tracked, lost, started, a, b, f, w, nextId, next);
    FollowedObserve(base, was, started, f, w, newlyLost, gone, cfg, input, frame, nextId, maxTimeLost);
    FramesObservations(a, f, input, frame);
    RecordConserves(input, a, frame);
    FoundAgainHigh(tracked, lost, vt, vl, a, f, cfg.trackThreshold);
    TwinsAreGone(a, b, f, w);
    LimitMetIff(tracked, lost, w, b, frame, maxTimeLost);
  }

  lemma OrderedIds(a: seq<STrack>, b: seq<STrack>, frame: int, nextId: nat, maxTimeLost: int)
    requires InOrder(a, b, frame, nextId, maxTimeLost)
    ensures UniqueIds(a)
  {
    hide Followed, Waiting, STrack.Now;
    forall i, j | 0 <= i < |a| && 0 <= j < |a| && a[i].trackId == a[j].trackId ensures a[i] == a[j] {
      assert (a + b)[i] == a[i] && (a + b)[j] == a[j];
    }
  }

  lemma RetiredApart(removed: seq<STrack>, tracked: seq<STrack>, lost: seq<STrack>, nextId: nat)
    requires Retired(removed, tracked, lost, nextId)
    ensures forall i :: 0 <= i < |removed| ==> removed[i] !in tracked && removed[i] !in lost
  {
  }

  lemma CameKeepIds(base: seq<STrack>, was: seq<View>, followed: seq<STrack>, waiting: seq<STrack>, lost: seq<STrack>,
                    removed: seq<STrack>, threshold: real, input: seq<FaceDetection>, frame: int, nextId: nat,
                    maxTimeLost: int)
    requires Came(base, was, followed, waiting, lost, removed, threshold, input, frame, nextId, maxTimeLost)
    ensures |was| == |base| && forall i :: 0 <= i < |base| ==> base[i].trackId == was[i].id
  {
  }

  lemma ThinnedLists(a: seq<STrack>, b: seq<STrack>, base: seq<STrack>, started: seq<STrack>,
                     followed: seq<STrack>, waiting: seq<STrack>)
    requires Distinct(a) && Distinct(b) && Among(followed, base + started) && Among(waiting, base)
    requires forall t :: t in a ==> t in followed
    requires forall t :: t in b ==> t in waiting
    ensures Thinned(a, b, base, started, followed, waiting) && Among(a, followed) && Among(b, waiting)
  {
    MembersAmong(a, followed);
    MembersAmong(b, waiting);
  }

  lemma OldIds(base: seq<STrack>, was: seq<View>, ids: set<nat>)
    requires |was| == |base| && forall i :: 0 <= i < |was| ==> was[i].id in ids && base[i].trackId == was[i].id
    ensures forall i :: 0 <= i < |base| ==> base[i].trackId in ids
  {
  }

  lemma RetiredStay(removed: seq<STrack>, gone: seq<STrack>, tracked: seq<STrack>, lost: seq<STrack>,
                    started: seq<STrack>, a: seq<STrack>, b: seq<STrack>, followed: seq<STrack>, waiting: seq<STrack>,
                    nextId: nat, next: nat)
    requires Retired(removed, tracked, lost, nextId) && nextId <= next
    requires Thinned(a, b, tracked + lost, started, followed, waiting)
    requires forall i :: 0 <= i < |removed| ==> removed[i] !in started
    requires forall i :: 0 <= i < |gone| ==>
      gone[i] !in followed && gone[i] !in waiting && gone[i].trackId < nextId && gone[i].state == Removed
    ensures Retired(removed + gone, a, b, next)
  {
    var all := removed + gone;
    forall t | t in a ensures t in followed && t in tracked + lost + started {
      var i :| 0 <= i < |a| && a[i] == t;
      var j :| 0 <= j < |followed| && followed[j] == t;
    }
    forall t | t in b ensures t in waiting && t in tracked + lost {
      var i :| 0 <= i < |b| && b[i] == t;
      var j :| 0 <= j < |waiting| && waiting[j] == t;
    }
    forall i | 0 <= i < |all|
      ensures all[i] !in a && all[i] !in b && all[i].trackId < next && all[i].state == Removed
    {
      if i < |removed| {
        assert all[i] == removed[i];
        assert removed[i] !in tracked + lost && removed[i] !in tracked + lost + started;
      } else {
        assert all[i] == gone[i - |removed|];
      }
    }
  }

  lemma FramesObservations(a: seq<STrack>, followed: seq<STrack>, input: seq<FaceDetection>, frame: int)
    requires Among(a, followed) && SlotsDiffer(followed)
    requires forall t :: t in followed ==> Observes(t, input, frame)
    ensures AllObserve(a, input, frame) && SlotsDiffer(a)
  {
    hide Observes;
    SlotsPermute(followed, a);
  }

  /** The lost tracks that come back do so on a high score. */
  lemma FoundAgainHigh(tracked: seq<STrack>, lost: seq<STrack>, vt: seq<View>, vl: seq<View>, a: seq<STrack>,
                       followed: seq<STrack>, threshold: real)
    requires |vt| == |tracked| && |vl| == |lost| && Among(a, followed)
    requires forall i :: 0 <= i < |vl| ==> vl[i].state == Lost
    requires var base, was := tracked + lost, vt + vl;
      forall i :: 0 <= i < |base| && base[i] in followed && was[i].state == Lost ==> base[i].score > threshold
    ensures FoundAgainOnHigh(lost, a, threshold)
  {
    var base, was := tracked + lost, vt + vl;
    forall i | 0 <= i < |lost| && lost[i] in a ensures lost[i].score > threshold {
      var k :| 0 <= k < |a| && a[k] == lost[i];
      assert base[|tracked| + i] == lost[i] && was[|tracked| + i] == vl[i];
    }
  }

  lemma TwinsAreGone(a: seq<STrack>, b: seq<STrack>, followed: seq<STrack>, waiting: seq<STrack>)
    requires forall t :: t in a <==> t in followed && !Outlived(t, waiting)
    requires forall t :: t in b <==> t in waiting && !Outranked(t, followed)
    ensures NoTwins(a, b) && LongestStay(a, b, followed, waiting)
  {
    hide Outlived, Outranked, SameFace;
    MembersAmong(a, followed);
    MembersAmong(b, waiting);
    forall i, j | 0 <= i < |a| && 0 <= j < |b| ensures !SameFace(a[i], b[j]) {
      assert a[i] in a && b[j] in b;
      if SameFace(a[i], b[j]) {
        NoTwinsLeft(followed, waiting, a[i], b[j]);
      }
    }
  }

  /** The result says of the track what its fields say, and its box is the one its filter stands for. */
  ghost predicate Shows(r: TrackResult, t: STrack)
    reads t
  {
    && r.id == t.trackId && r.score == t.score && r.state == t.state && r.start == t.startFrame && r.frame == t.frameId
    && r.length == t.trackletLen && r.hasObservation == t.hasObservation && r.observation == t.observation
    && StandsFor(r.box, t.filter.mean)
  }

  /** Results are about the confirmed tracks of the list, and every confirmed track has one. */
  ghost predicate ShowsConfirmed(out: seq<TrackResult>, ts: seq<STrack>)
    reads ts
  {
    && (forall r :: r in out ==> exists i :: 0 <= i < |ts| && ts[i].isActivated && Shows(r, ts[i]))
    && (forall i :: 0 <= i < |ts| && ts[i].isActivated ==> exists r :: r in out && Shows(r, ts[i]))
  }

  predicate NotFlat(d: FaceDetection) {
    d.y2 - d.y1 >= 0.000001
  }

  /** A new track that is confirmed and whose detection is not flat is reported at the detection's corners. */
  ghost predicate NewAtCorners(out: seq<TrackResult>, ts: seq<STrack>, started: seq<STrack>)
    reads started
  {
    forall k :: 0 <= k < |started| && started[k] in ts && started[k].isActivated && NotFlat(started[k].observation) ==>
      exists r :: r in out && r.id == started[k].trackId && r.box == Corners(started[k].observation)
  }

  lemma ResultShows(t: STrack)
    requires t.hasState
    ensures Shows(ResultOf(t), t)
  {
    BoxMeans(t.Now());
  }

  lemma ReportShows(ts: seq<STrack>, others: seq<STrack>, frame: int, nextId: nat, maxTimeLost: int)
    requires InOrder(ts, others, frame, nextId, maxTimeLost)
    ensures ShowsConfirmed(ResultsOf(ts), ts)
  {
    hide ResultOf, ResultsOf, Waiting, KalmanFilter.Sound, Shows, UniqueIds;
    var out := ResultsOf(ts);
    forall i | 0 <= i < |ts| ensures Shows(ResultOf(ts[i]), ts[i]) {
      assert Followed(ts[i].Now(), frame, nextId);
      ResultShows(ts[i]);
    }
  }

  lemma StartedAtCorners(t: STrack, id: nat, input: seq<FaceDetection>, frame: int, cfg: Config)
    requires Started(t, id, input, frame, cfg) && NotFlat(t.observation)
    ensures ResultOf(t).id == t.trackId && ResultOf(t).box == Corners(t.observation)
  {
    hide KalmanFilter.Sound, TlwhToXyah, TlbrToTlwh;
    StartGivesBack(t.Now(), t.observation);
  }

  lemma NewShown(ts: seq<STrack>, started: seq<STrack>, followed: seq<STrack>, waiting: seq<STrack>, nextId: nat,
                 input: seq<FaceDetection>, frame: int, cfg: Config)
    requires NewTracks(started, followed, waiting, nextId, input, frame, cfg)
    ensures NewAtCorners(ResultsOf(ts), ts, started)
  {
    hide ResultOf, ResultsOf, Started;
    forall k | 0 <= k < |started| && started[k] in ts && started[k].isActivated && NotFlat(started[k].observation)
      ensures exists r :: r in ResultsOf(ts) && r.id == started[k].trackId && r.box == Corners(started[k].observation)
    {
      StartedAtCorners(started[k], nextId + k, input, frame, cfg);
      var i :| 0 <= i < |ts| && ts[i] == started[k];
      assert ResultOf(ts[i]) in ResultsOf(ts);
    }
  }

  /** The views and ids before the frame. */
  lemma BeforeFrame(tracked: seq<STrack>, lost: seq<STrack>, history: seq<Sighting>, threshold: real)
    requires Proven(tracked + lost, history, threshold)
    ensures var was := Views(tracked) + Views(lost);
      && (forall i :: 0 <= i < |was| ==> ProvenView(was[i], history, threshold) && was[i].id in Ids(tracked + lost))
      && (forall i :: 0 <= i < |was| ==> was[i] == (tracked + lost)[i].Now())
  {
    hide ProvenView;
    var was, base := Views(tracked) + Views(lost), tracked + lost;
    forall i | 0 <= i < |was| ensures was[i] == base[i].Now() && was[i].id in Ids(base) {
      assert HasId(base, base[i].trackId);
    }
  }

  class ByteTracker {
    const cfg: Config
    const maxTimeLost: int
    var tracked: seq<STrack>
    var lost: seq<STrack>
    var removed: seq<STrack>
    var frame: int
    var nextId: nat
    /** The frames since the last reset, as they were and as they were used. */
    ghost var history: seq<Sighting>

    ghost predicate Valid()
      reads this, tracked, lost, removed
    {
      && maxTimeLost >= 0 && frame == |history| && nextId >= 1
      && InOrder(tracked, lost, frame, nextId, maxTimeLost)
      && Retired(removed, tracked, lost, nextId)
      && Proven(tracked + lost, history, cfg.trackThreshold) && AllConserve(history)
    }

    ghost function Now(): Census
      reads this, tracked, lost
    {
      Census(Ids(tracked + lost), nextId)
    }

    constructor (c: Config)
      ensures cfg == if c.newTrackThreshold <= 0.0 then c.(newTrackThreshold := c.trackThreshold + 0.1) else c
      ensures maxTimeLost == TimeLost(c)
      ensures tracked == lost == removed == [] && frame == 0 && nextId == 1 && history == []
      ensures TimeLost(c) >= 0 ==> Valid()
    {
      cfg := if c.newTrackThreshold <= 0.0 then c.(newTrackThreshold := c.trackThreshold + 0.1) else c;
      maxTimeLost := TimeLost(c);
      tracked, lost, removed := [], [], [];
      frame, nextId, history := 0, 1, [];
    }

    method Reset()
      requires maxTimeLost >= 0
      modifies this
      ensures Valid()
      ensures tracked == lost == removed == [] && frame == 0 && nextId == 1 && history == []
    {
      tracked, lost, removed := [], [], [];
      frame, nextId, history := 0, 1, [];
    }

    /** One frame. ok is false when the filter throws, which it cannot when every filter is tall enough; the program
        then lets the exception end the run. */
    method Update(input: seq<FaceDetection>)
      returns (ok: bool, out: seq<TrackResult>, ghost followed: seq<STrack>, ghost waiting: seq<STrack>,
               ghost newlyLost: seq<STrack>, ghost gone: seq<STrack>, ghost started: seq<STrack>)
      requires Valid()
      modifies this, tracked, lost
      ensures NeverThrows(old(Views(tracked)), old(Views(lost))) ==> ok
      ensures ok ==> Valid() && frame == old(frame) + 1 && Turnover(old(Now()), Now())
      ensures ok ==>
        FrameDone(old(tracked), old(Views(tracked)), old(lost), old(Views(lost)), tracked, lost, followed, waiting,
                               newlyLost, gone, started, input, cfg, frame, old(nextId), nextId, maxTimeLost)
      ensures ok ==> removed == old(removed) + gone && forall k :: 0 <= k < |started| ==> fresh(started[k])
      // Lost tracks are within the limit exactly when it allows for one frame or nobody was lost just now.
      ensures ok ==> (WithinLimit(lost, frame, maxTimeLost) <==> maxTimeLost >= 1 || NobodyJustLost(old(tracked), lost))
      // What is reported was seen right after its start.
      ensures ok ==> history == old(history) + [RecordOf(input, tracked)]
      ensures ok ==> out == ResultsOf(tracked) && SeenTwice(out, history, cfg.trackThreshold)
      // Boxes are reported where the filters put them, new ones where they were detected.
      ensures ok ==> ShowsConfirmed(out, tracked) && NewAtCorners(out, tracked, started)
    {
      hide InOrder, Proven, Turnover, Ids, Retired, ResultsOf, ResultOf, NeverThrows, Views, FrameDone, WithinLimit,
           NobodyJustLost, RecordOf, Conserves, AllConserve, SeenTwice, STrack.Now, STrack.Box, UniqueIds, Distinct,
           ShowsConfirmed, NewAtCorners, NewTracks;
      out, followed, waiting, newlyLost, started := [], [], [], [], [];
      frame := frame + 1;
      var a, b, r, next;
      ok, a, b, r, next, followed, waiting, newlyLost, started :=
        RunFrame(tracked, lost, removed, history, input, cfg, frame, nextId, maxTimeLost);
      gone := r;
      if !ok {
        return;
      }
      out := Report(a);
      ReportShows(a, b, frame, next, maxTimeLost);
      NewShown(a, started, followed, waiting, nextId, input, frame, cfg);
      ReportedSeenTwice(a, b, history + [RecordOf(input, a)], cfg.trackThreshold);
      ConservesMore(history, RecordOf(input, a));
      Store(a, b, removed + r, next, history + [RecordOf(input, a)]);
    }

    method Store(a: seq<STrack>, b: seq<STrack>, r: seq<STrack>, next: nat, ghost record: seq<Sighting>)
      modifies this
      ensures tracked == a && lost == b && removed == r && nextId == next && history == record && frame == old(frame)
    {
      tracked, lost, removed, nextId, history := a, b, r, next, record;
    }
  }
}
