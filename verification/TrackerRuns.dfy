/** Runs of the tracker. */
module TrackerRuns {
  import opened Collections
  import opened STracks
  import opened TrackLists
  import opened TrackPhases
  import opened TrackRounds
  import opened TrackTurns
  import opened TrackerSteps
  import opened ByteTracker

  /** A new track of a box that is tall enough does not make the filter throw in the next frame. */
  lemma StartStaysTall(t: STrack, id: nat, input: seq<FaceDetection>, frame: int, cfg: Config)
    requires Started(t, id, input, frame, cfg) && t.observation.y2 - t.observation.y1 >= 0.00002
    ensures StaysTall(t.Now())
  {
    hide KalmanFilter.Sound;
  }

  /** With an empty input a confirmed track is lost, and only so. */
  lemma EmptyFrameLoses(v: View, w: View, followed: bool, lost: bool, removed: bool, threshold: real, frame: int,
                        maxTimeLost: int)
    requires v.state == Tracked && v.activated && Turned(v, w, followed, lost, removed, threshold, [], frame,
                                                         maxTimeLost)
    ensures lost && !followed && !removed && w.frame == v.frame
  {
  }

  /** Where one list of the tracker was empty and nothing waits, all followed tracks stay. */
  lemma AllStay(a: seq<STrack>, b: seq<STrack>, followed: seq<STrack>)
    requires LongestStay(a, b, followed, [])
    ensures b == [] && forall i :: 0 <= i < |followed| ==> followed[i] in a
  {
    if |b| > 0 {
      FirstIsMember(b);
    }
  }

  lemma NothingAmongNothing(ts: seq<STrack>)
    requires Among(ts, [])
    ensures ts == []
  {
    if |ts| > 0 {
      FirstIsMember(ts);
    }
  }

  lemma FirstTwoDiffer(ts: seq<STrack>)
    requires Distinct(ts) && |ts| > 1
    ensures ts[0] != ts[1]
  {
  }

  /** Distinct tracks with different detections out of one are one track. */
  lemma OnlyOne(a: seq<STrack>, d: FaceDetection, frame: int)
    requires Distinct(a) && SlotsDiffer(a) && AllObserve(a, [d], frame)
    ensures |a| <= 1
  {
    forall i | 0 <= i < |a| ensures a[i].slot == 0 {
      assert Observes(a[i], [d], frame);
    }
    if |a| > 1 {
      FirstTwoDiffer(a);
    }
  }

  /** After a first frame with one detection that scores enough, one confirmed track holds it. */
  lemma FirstFrame(a: seq<STrack>, b: seq<STrack>, followed: seq<STrack>, waiting: seq<STrack>, newlyLost: seq<STrack>,
                   gone: seq<STrack>, started: seq<STrack>, d: FaceDetection, cfg: Config, next: nat, maxTimeLost: int)
    requires FrameDone([], [], [], [], a, b, followed, waiting, newlyLost, gone, started, [d], cfg, 1, 1, next,
                       maxTimeLost)
    requires Distinct(a)
    requires d.score > cfg.trackThreshold && d.score >= cfg.newTrackThreshold && d.y2 - d.y1 >= 0.00002
    ensures b == [] && |a| == 1 && a[0] in started
    ensures a[0].state == Tracked && a[0].isActivated && StaysTall(a[0].Now())
  {
    hide Settled, Started, SlotHeld, STrack.Now, NoTwins, AllTurned, LongestStay, StaysTall, AllObserve, SlotsDiffer,
         Among, Distinct;
    var none: seq<STrack> := [];
    assert none + none == none && none + none + started == started;
    NothingAmongNothing(waiting);
    AllStay(a, b, followed);
    var x: nat := 0;
    assert [d][x] == d && SlotHeld(followed, x);
    var i := HolderOf(followed, x);
    OnlyOne(a, d, 1);
    assert a[0] == followed[i];
    StartedTall(started, followed, i, d, cfg);
  }

  lemma StartedTall(started: seq<STrack>, followed: seq<STrack>, i: nat, d: FaceDetection, cfg: Config)
    requires i < |followed| && Among(followed, started) && d.y2 - d.y1 >= 0.00002
    requires forall k :: 0 <= k < |started| ==> Started(started[k], 1 + k, [d], 1, cfg)
    ensures var t := followed[i]; t in started && t.state == Tracked && t.isActivated && StaysTall(t.Now())
  {
    hide Started, StaysTall, STrack.Now;
    assert followed[i] in started;
    var k: nat :| k < |started| && started[k] == followed[i];
    StartedObserves(started[k], 1 + k, [d], 1, cfg);
    StartStaysTall(started[k], 1 + k, [d], 1, cfg);
  }

  lemma HolderOf(ts: seq<STrack>, slot: nat) returns (i: nat)
    requires SlotHeld(ts, slot)
    ensures i < |ts| && ts[i].slot == slot
  {
    i :| 0 <= i < |ts| && ts[i].slot == slot;
  }

  /** After a second frame without detections that track is lost, and one frame old. */
  lemma SecondFrame(t: STrack, v: View, a: seq<STrack>, b: seq<STrack>, followed: seq<STrack>, waiting: seq<STrack>,
                    newlyLost: seq<STrack>, gone: seq<STrack>, started: seq<STrack>, cfg: Config, nextId: nat,
                    next: nat, maxTimeLost: int)
    requires FrameDone([t], [v], [], [], a, b, followed, waiting, newlyLost, gone, started, [], cfg, 2, nextId, next,
                       maxTimeLost)
    requires Distinct(b) && v.state == Tracked && v.activated
    ensures b == [t] && 2 - t.frameId == 1
  {
    hide Started, SlotHeld, STrack.Now, NoTwins, AllTurned, LongestStay, AllObserve, SlotsDiffer, Settled, AgesWithin;
    TurnedAlone(t, v, followed, newlyLost, gone, cfg, 2, maxTimeLost);
    EmptyFrameLoses(v, t.Now(), t in followed, t in newlyLost, t in gone, cfg.trackThreshold, 2, maxTimeLost);
    if |started| > 0 {
      StartedObserves(started[0], nextId, [], 2, cfg);
    }
    if |followed| > 0 {
      FirstIsMember(followed);
    }
    SettledAlone(t, followed, waiting, gone, 2, next, maxTimeLost);
    AllWait(t, a, b, waiting);
    AgeAlone(t, waiting, 2);
  }

  lemma TurnedAlone(t: STrack, v: View, followed: seq<STrack>, lost: seq<STrack>, removed: seq<STrack>, cfg: Config,
                    frame: int, maxTimeLost: int)
    requires AllTurned([t], [v], followed, lost, removed, cfg.trackThreshold, [], frame, maxTimeLost)
    ensures Turned(v, t.Now(), t in followed, t in lost, t in removed, cfg.trackThreshold, [], frame, maxTimeLost)
  {
    hide Turned, STrack.Now;
    assert [t][0] == t && [v][0] == v;
  }

  lemma SettledAlone(t: STrack, followed: seq<STrack>, waiting: seq<STrack>, gone: seq<STrack>, frame: int, next: nat,
                     maxTimeLost: int)
    requires Settled([t], followed, waiting, gone, frame, next, maxTimeLost)
    ensures ExactlyOne(t in followed, t in waiting, t in gone)
  {
    hide Followed, Waiting, STrack.Now;
    assert [t][0] == t;
  }

  lemma AgeAlone(t: STrack, waiting: seq<STrack>, frame: int)
    requires AgesWithin([t], waiting, frame, 1, 1) && t in waiting
    ensures frame - t.frameId == 1
  {
    assert [t][0] == t;
  }

  /** Where nobody is followed, all lost tracks stay. */
  lemma AllWait(t: STrack, a: seq<STrack>, b: seq<STrack>, waiting: seq<STrack>)
    requires LongestStay(a, b, [], waiting) && Among(waiting, [t] + []) && t in waiting && Distinct(b)
    ensures b == [t]
  {
    var k: nat :| k < |waiting| && waiting[k] == t;
    assert waiting[k] in b;
    forall j | 0 <= j < |b| ensures b[j] == t {
      var i: nat :| i < |waiting| && waiting[i] == b[j];
      assert waiting[i] in [t] + [];
    }
    if |b| > 1 {
      FirstTwoDiffer(b);
    }
  }

  /** One frame with one detection that scores enough: one confirmed track. */
  method OneFaceSeen(c: Config, d: FaceDetection) returns (tracker: ByteTracker, t: STrack)
    requires TimeLost(c) == 0 && d.y2 - d.y1 >= 0.00002
    requires d.score > c.trackThreshold
    requires d.score >= if c.newTrackThreshold <= 0.0 then c.trackThreshold + 0.1 else c.newTrackThreshold
    ensures fresh(tracker) && fresh(t) && tracker.Valid() && tracker.maxTimeLost == 0 && tracker.frame == 1
    ensures tracker.tracked == [t] && tracker.lost == []
    ensures t.isActivated && t.state == Tracked && StaysTall(t.Now())
  {
    hide FrameDone, NeverThrows, InOrder, Retired, Proven, AllConserve, WithinLimit, NobodyJustLost, Turnover,
         ResultsOf, Views, STrack.Now, StaysTall, Ids, Conserves, RecordOf, SeenTwice, Distinct, ShowsConfirmed,
         NewAtCorners;
    tracker := new ByteTracker(c);
    ghost var followed, waiting, newlyLost, gone, started;
    NothingThrows();
    var ok, out;
    ok, out, followed, waiting, newlyLost, gone, started := tracker.Update([d]);
    OrderedLists(tracker);
    FirstFrame(tracker.tracked, tracker.lost, followed, waiting, newlyLost, gone, started, d, tracker.cfg,
               tracker.nextId, 0);
    t := tracker.tracked[0];
  }

  /** With no lost frames allowed at all, one detection and then none leave a lost track that is one frame old: the
      limit is not met. */
  method LostBeyondLimit(c: Config, d: FaceDetection) returns (tracker: ByteTracker)
    requires TimeLost(c) == 0 && d.y2 - d.y1 >= 0.00002
    requires d.score > c.trackThreshold
    requires d.score >= if c.newTrackThreshold <= 0.0 then c.trackThreshold + 0.1 else c.newTrackThreshold
    ensures tracker.Valid() && tracker.maxTimeLost == 0 && tracker.frame == 2
    ensures |tracker.lost| == 1 && tracker.frame - tracker.lost[0].frameId == 1
    ensures !WithinLimit(tracker.lost, tracker.frame, tracker.maxTimeLost)
  {
    hide FrameDone, NeverThrows, InOrder, Retired, Proven, AllConserve, WithinLimit, NobodyJustLost, Turnover,
         ResultsOf, Views, STrack.Now, StaysTall, Ids, Conserves, RecordOf, SeenTwice, Distinct, ShowsConfirmed,
         NewAtCorners;
    var t;
    tracker, t := OneFaceSeen(c, d);
    ghost var v, nextId := t.Now(), tracker.nextId;
    OneDoesNotThrow(t);
    ghost var followed, waiting, newlyLost, gone, started;
    var ok, out;
    ok, out, followed, waiting, newlyLost, gone, started := tracker.Update([]);
    OrderedLists(tracker);
    SecondFrame(t, v, tracker.tracked, tracker.lost, followed, waiting, newlyLost, gone, started, tracker.cfg, nextId,
                tracker.nextId, 0);
    JustLost(t, tracker.lost);
  }

  lemma OrderedLists(tracker: ByteTracker)
    requires tracker.Valid()
    ensures Distinct(tracker.tracked) && Distinct(tracker.lost)
  {
    OrderedViews(tracker.tracked, tracker.lost, tracker.frame, tracker.nextId, tracker.maxTimeLost);
  }

  lemma NothingThrows()
    ensures NeverThrows(Views([]), Views([])) && Views([]) == []
  {
  }

  lemma OneDoesNotThrow(t: STrack)
    requires t.isActivated && t.state == Tracked && StaysTall(t.Now())
    ensures NeverThrows(Views([t]), Views([])) && Views([t]) == [t.Now()] && Views([]) == []
    ensures t.Now().activated && t.Now().state == Tracked
  {
    hide StaysTall;
    assert t.Now().activated;
  }

  lemma JustLost(t: STrack, lost: seq<STrack>)
    requires lost == [t]
    ensures !NobodyJustLost([t], lost)
  {
    assert lost[0] in [t];
  }
}
