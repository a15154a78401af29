/** One frame of the tracker on its lists, up to the thinning out of twins. */
module TrackerSteps {
  import opened Collections
  import opened STracks
  import opened TrackLists
  import opened TrackPhases
  import opened TrackRounds
  import opened TrackTurns

  function MaxAge(maxTimeLost: int): int {
    if maxTimeLost < 1 then 1 else maxTimeLost
  }

  /** A followed track between frames: it was seen in the last frame, and is confirmed unless it started there. */
  ghost predicate Followed(v: View, frame: int, nextId: nat) {
    && v.state == Tracked && v.frame == frame && 1 <= v.id < nextId && v.start <= frame
    && v.hasState && KalmanFilter.Sound(v.filter)
    && (v.activated || v.start == frame)
  }

  /** A lost track between frames: confirmed, and not unseen for longer than allowed. */
  ghost predicate Waiting(v: View, frame: int, nextId: nat, maxTimeLost: int) {
    && v.state == Lost && v.activated && v.start <= v.frame < frame && frame - v.frame <= MaxAge(maxTimeLost)
    && 1 <= v.id < nextId && v.hasState && KalmanFilter.Sound(v.filter)
  }

  // ---------- rebuilding the lists

  lemma AmongIdentify(a: seq<STrack>, b: seq<STrack>, live: seq<STrack>)
    requires UniqueIds(live) && Among(a, live) && Among(b, live)
    ensures IdsIdentify(a, b)
    ensures forall t :: t in a ==> (HasId(b, t.trackId) <==> t in b)
  {
    forall s, t | s in a + b && t in a + b && s.trackId == t.trackId ensures s == t {
      assert s in live && t in live by {
        InOne(a, b, live, s);
        InOne(a, b, live, t);
      }
      var i :| 0 <= i < |live| && live[i] == s;
      var j :| 0 <= j < |live| && live[j] == t;
    }
    forall t | t in a ensures HasId(b, t.trackId) <==> t in b {
      if HasId(b, t.trackId) {
        var i :| 0 <= i < |b| && b[i].trackId == t.trackId;
        assert b[i] in a + b && t in a + b;
      }
      if t in b {
        var i :| 0 <= i < |b| && b[i] == t;
      }
    }
  }

  lemma InOne(a: seq<STrack>, b: seq<STrack>, live: seq<STrack>, t: STrack)
    requires Among(a, live) && Among(b, live) && t in a + b
    ensures t in live
  {
    var k :| 0 <= k < |a + b| && (a + b)[k] == t;
    if k < |a| {
      assert a[k] == t;
    } else {
      assert b[k - |a|] == t;
    }
  }

  /** The new followed and lost lists, before twins are thinned out. */
  method Rebuild(tracked: seq<STrack>, lost: seq<STrack>, activated: seq<STrack>, refound: seq<STrack>,
                 newlyLost: seq<STrack>, newlyRemoved: seq<STrack>, ghost live: seq<STrack>)
    returns (followed: seq<STrack>, waiting: seq<STrack>)
    requires UniqueIds(live) && Distinct(tracked) && Distinct(lost) && Distinct(newlyLost)
    requires Among(tracked, live) && Among(lost, live) && Among(activated, live) && Among(refound, live)
    requires Among(newlyLost, live) && Among(newlyRemoved, live)
    requires forall t :: t in newlyLost ==> t !in lost
    ensures Distinct(followed) && Distinct(waiting)
    ensures forall t :: t in followed <==> (t in tracked && t.state == Tracked) || t in activated || t in refound
    ensures forall t :: t in waiting <==> ((t in lost && t !in followed) || t in newlyLost) && t !in newlyRemoved
  {
    hide UniqueIds, IdsIdentify, HasId;
    var only := StillTracked(tracked);
    assert Among(only, live) by {
      forall i | 0 <= i < |only| ensures only[i] in live {
        assert only[i] in only;
      }
    }
    AmongIdentify(only, activated, live);
    var joined := JointTracks(only, activated);
    assert Among(joined, live) by {
      forall i | 0 <= i < |joined| ensures joined[i] in live {
        assert joined[i] in joined;
      }
    }
    AmongIdentify(joined, refound, live);
    followed := JointTracks(joined, refound);
    assert Among(followed, live) by {
      forall i | 0 <= i < |followed| ensures followed[i] in live {
        assert followed[i] in followed;
      }
    }
    AmongIdentify(lost, followed, live);
    var unseen := SubtractTracks(lost, followed);
    JoinDistinct(unseen, newlyLost, newlyLost);
    var pending := unseen + newlyLost;
    assert Among(pending, live) by {
      forall i | 0 <= i < |pending| ensures pending[i] in live {
        assert pending[i] in unseen || pending[i] in newlyLost;
      }
    }
    AmongIdentify(pending, newlyRemoved, live);
    waiting := SubtractTracks(pending, newlyRemoved);
  }

  // ---------- one frame on the lists

  /** The lists between frames: each track on one list, with an id of its own, in the state that goes with its list. */
  ghost predicate InOrder(tracked: seq<STrack>, lost: seq<STrack>, frame: int, nextId: nat, maxTimeLost: int)
    reads tracked, lost
  {
    && Distinct(tracked + lost) && UniqueIds(tracked + lost)
    && (forall i :: 0 <= i < |tracked| ==> Followed(tracked[i].Now(), frame, nextId))
    && (forall i :: 0 <= i < |lost| ==> Waiting(lost[i].Now(), frame, nextId, maxTimeLost))
  }

  lemma FollowedStays(v: View, w: View, lost: bool, removed: bool, threshold: real, input: seq<FaceDetection>,
                      frame: int, nextId: nat, next: nat, maxTimeLost: int)
    requires Followed(v, frame - 1, nextId) || Waiting(v, frame - 1, nextId, maxTimeLost)
    requires Turned(v, w, true, lost, removed, threshold, input, frame, maxTimeLost) && nextId <= next
    ensures Followed(w, frame, next)
  {
    hide KalmanFilter.Sound;
  }

  lemma DroppedWaits(v: View, w: View, removed: bool, threshold: real, input: seq<FaceDetection>, frame: int,
                     nextId: nat, next: nat, maxTimeLost: int)
    requires Followed(v, frame - 1, nextId)
    requires Turned(v, w, false, true, removed, threshold, input, frame, maxTimeLost) && nextId <= next
    ensures Waiting(w, frame, next, maxTimeLost) && frame - w.frame == 1
  {
    hide KalmanFilter.Sound;
  }

  lemma WaitingStays(v: View, w: View, threshold: real, input: seq<FaceDetection>, frame: int,
                     nextId: nat, next: nat, maxTimeLost: int)
    requires Waiting(v, frame - 1, nextId, maxTimeLost)
    requires Turned(v, w, false, false, false, threshold, input, frame, maxTimeLost) && nextId <= next
    ensures Waiting(w, frame, next, maxTimeLost) && 2 <= frame - w.frame <= maxTimeLost
  {
    hide KalmanFilter.Sound;
  }

  lemma StartedIsFollowed(t: STrack, id: nat, input: seq<FaceDetection>, frame: int, cfg: Config, next: nat)
    requires Started(t, id, input, frame, cfg) && 1 <= id < next
    ensures Followed(t.Now(), frame, next)
  {
    hide KalmanFilter.Sound;
  }

  /** A track that was followed or lost before the frame, as its view then says. */
  ghost predicate WasInOrder(v: View, tracked: bool, frame: int, nextId: nat, maxTimeLost: int) {
    if tracked then Followed(v, frame, nextId) else Waiting(v, frame, nextId, maxTimeLost)
  }

  lemma TurnedKeepsId(v: View, w: View, followed: bool, lost: bool, removed: bool, threshold: real,
                      input: seq<FaceDetection>, frame: int, maxTimeLost: int)
    requires Turned(v, w, followed, lost, removed, threshold, input, frame, maxTimeLost)
    ensures w.id == v.id && w.start == v.start
    ensures w.state == if followed then Tracked else if removed && !lost then Removed else Lost
    ensures followed ==> !lost && !removed
    ensures lost ==> !removed && v.state == Tracked
    ensures !followed && !lost && !removed ==> v.state == Lost
  {
    hide KalmanFilter.Sound;
  }

  /** Ids and birthdays of old tracks do not depend on how they came out. */
  lemma IdsStay(ts: seq<STrack>, was: seq<View>, followed: seq<STrack>, lost: seq<STrack>, removed: seq<STrack>,
                threshold: real, input: seq<FaceDetection>, frame: int, maxTimeLost: int)
    requires |was| == |ts| && AllTurned(ts, was, followed, lost, removed, threshold, input, frame, maxTimeLost)
    ensures forall i :: 0 <= i < |ts| ==> ts[i].trackId == was[i].id && ts[i].startFrame == was[i].start
  {
    hide Turned;
    forall i | 0 <= i < |ts|
      ensures ts[i].trackId == was[i].id && ts[i].startFrame == was[i].start
    {
      TurnedKeepsId(was[i], ts[i].Now(), ts[i] in followed, ts[i] in lost, ts[i] in removed, threshold, input, frame,
                    maxTimeLost);
    }
  }

  lemma NewIdsUnique(base: seq<STrack>, started: seq<STrack>, was: seq<View>, nextId: nat)
    requires |was| == |base| && forall i :: 0 <= i < |base| ==> base[i].trackId == was[i].id < nextId
    requires forall i, j :: 0 <= i < |was| && 0 <= j < |was| && was[i].id == was[j].id ==> base[i] == base[j]
    requires forall k :: 0 <= k < |started| ==> started[k].trackId == nextId + k
    ensures UniqueIds(base + started)
  {
    var live := base + started;
    forall i, j | 0 <= i < |live| && 0 <= j < |live| && live[i].trackId == live[j].trackId ensures live[i] == live[j] {
      assert i < |base| ==> live[i] == base[i];
      assert j < |base| ==> live[j] == base[j];
      assert i >= |base| ==> live[i] == started[i - |base|];
      assert j >= |base| ==> live[j] == started[j - |base|];
    }
  }

  /** One of the three, and only one. */
  predicate ExactlyOne(a: bool, b: bool, c: bool) {
    (a && !b && !c) || (!a && b && !c) || (!a && !b && c)
  }

  /** What the rebuilt lists contain, in terms of what the phases reported. */
  ghost predicate Rebuilt(t: STrack, wasTracked: bool, activated: seq<STrack>, refound: seq<STrack>,
                          newlyLost: seq<STrack>, newlyRemoved: seq<STrack>, followed: seq<STrack>,
                          waiting: seq<STrack>)
    reads t
  {
    && (t in followed <==> (wasTracked && t.state == Tracked) || t in activated + refound)
    && (t in waiting <==> ((!wasTracked && t !in followed) || t in newlyLost) && t !in newlyRemoved)
  }

  /** Where an old track is afterwards, and that it is there in the right state. */
  lemma OldTrackSettles(t: STrack, v: View, wasTracked: bool, activated: seq<STrack>, refound: seq<STrack>,
                        newlyLost: seq<STrack>, newlyRemoved: seq<STrack>, followed: seq<STrack>, waiting: seq<STrack>,
                        threshold: real, input: seq<FaceDetection>, frame: int, nextId: nat, next: nat,
                        maxTimeLost: int)
    requires WasInOrder(v, wasTracked, frame - 1, nextId, maxTimeLost) && nextId <= next
    requires Turned(v, t.Now(), t in activated + refound, t in newlyLost, t in newlyRemoved, threshold, input, frame,
                    maxTimeLost)
    requires Rebuilt(t, wasTracked, activated, refound, newlyLost, newlyRemoved, followed, waiting)
    ensures t in followed <==> t in activated + refound
    ensures t in newlyLost ==> t in waiting
    ensures ExactlyOne(t in followed, t in waiting, t in newlyRemoved)
    ensures t in followed ==> Followed(t.Now(), frame, next)
    ensures t in waiting ==> Waiting(t.Now(), frame, next, maxTimeLost)
    ensures t in waiting ==>
      if wasTracked then frame - t.Now().frame == 1 else 2 <= frame - t.Now().frame <= maxTimeLost
  {
    StateOf(t, v, wasTracked, frame - 1, nextId, maxTimeLost);
    hide Turned, Followed, Waiting, STrack.Now;
    var f, l, r := t in activated + refound, t in newlyLost, t in newlyRemoved;
    TurnedKeepsId(v, t.Now(), f, l, r, threshold, input, frame, maxTimeLost);
    if f {
      FollowedStays(v, t.Now(), l, r, threshold, input, frame, nextId, next, maxTimeLost);
    } else if l {
      DroppedWaits(v, t.Now(), r, threshold, input, frame, nextId, next, maxTimeLost);
    } else if !r {
      WaitingStays(v, t.Now(), threshold, input, frame, nextId, next, maxTimeLost);
    }
  }

  lemma StateOf(t: STrack, v: View, wasTracked: bool, frame: int, nextId: nat, maxTimeLost: int)
    requires WasInOrder(v, wasTracked, frame, nextId, maxTimeLost)
    ensures v.state == (if wasTracked then Tracked else Lost) && t.Now().state == t.state
  {
    hide KalmanFilter.Sound;
  }

  /** Those of the list that are lost now were last seen so many frames ago. */
  ghost predicate AgesWithin(ts: seq<STrack>, waiting: seq<STrack>, frame: int, low: int, high: int)
    reads ts
  {
    forall i :: 0 <= i < |ts| && ts[i] in waiting ==> low <= frame - ts[i].frameId <= high
  }

  /** What holds of an old list after the frame. */
  ghost predicate Settled(ts: seq<STrack>, followed: seq<STrack>, waiting: seq<STrack>, newlyRemoved: seq<STrack>,
                          frame: int, next: nat, maxTimeLost: int)
    reads ts
  {
    forall i :: 0 <= i < |ts| ==>
      && ExactlyOne(ts[i] in followed, ts[i] in waiting, ts[i] in newlyRemoved)
      && (ts[i] in followed ==> Followed(ts[i].Now(), frame, next))
      && (ts[i] in waiting ==> Waiting(ts[i].Now(), frame, next, maxTimeLost))
  }

  lemma OldTracksSettle(ts: seq<STrack>, was: seq<View>, wasTracked: bool, activated: seq<STrack>, refound: seq<STrack>,
                        newlyLost: seq<STrack>, newlyRemoved: seq<STrack>, followed: seq<STrack>, waiting: seq<STrack>,
                        threshold: real, input: seq<FaceDetection>, frame: int, nextId: nat, next: nat,
                        maxTimeLost: int)
    requires |was| == |ts| && nextId <= next
    requires forall i :: 0 <= i < |ts| ==> WasInOrder(was[i], wasTracked, frame - 1, nextId, maxTimeLost)
    requires AllTurned(ts, was, activated + refound, newlyLost, newlyRemoved, threshold, input, frame, maxTimeLost)
    requires forall i :: 0 <= i < |ts| ==>
      Rebuilt(ts[i], wasTracked, activated, refound, newlyLost, newlyRemoved, followed, waiting)
    ensures Settled(ts, followed, waiting, newlyRemoved, frame, next, maxTimeLost)
    ensures AllTurned(ts, was, followed, newlyLost, newlyRemoved, threshold, input, frame, maxTimeLost)
    ensures forall i :: 0 <= i < |ts| ==> (ts[i] in followed <==> ts[i] in activated + refound)
    ensures forall i :: 0 <= i < |ts| ==> (ts[i] in newlyLost ==> ts[i] in waiting)
    ensures AgesWithin(ts, waiting, frame, if wasTracked then 1 else 2, if wasTracked then 1 else maxTimeLost)
  {
    hide Turned, Followed, Waiting, STrack.Now, WasInOrder, Rebuilt;
    forall i | 0 <= i < |ts|
      ensures ts[i] in waiting ==>
        if wasTracked then frame - ts[i].frameId == 1 else 2 <= frame - ts[i].frameId <= maxTimeLost
      ensures ExactlyOne(ts[i] in followed, ts[i] in waiting, ts[i] in newlyRemoved)
      ensures ts[i] in followed ==> Followed(ts[i].Now(), frame, next)
      ensures ts[i] in waiting ==> Waiting(ts[i].Now(), frame, next, maxTimeLost)
      ensures ts[i] in followed <==> ts[i] in activated + refound
      ensures ts[i] in newlyLost ==> ts[i] in waiting
    {
      OldTrackSettles(ts[i], was[i], wasTracked, activated, refound, newlyLost, newlyRemoved, followed, waiting,
                      threshold, input, frame, nextId, next, maxTimeLost);
      FrameOf(ts[i]);
    }
  }

  lemma FrameOf(t: STrack)
    ensures t.Now().frame == t.frameId
  {
  }

  /** The new lists are in order again. */
  lemma NewListsInOrder(tracked: seq<STrack>, lost: seq<STrack>, started: seq<STrack>, followed: seq<STrack>,
                        waiting: seq<STrack>, newlyRemoved: seq<STrack>, frame: int, next: nat, maxTimeLost: int)
    requires Distinct(followed) && Distinct(waiting) && UniqueIds(tracked + lost + started)
    requires Among(followed, tracked + lost + started) && Among(waiting, tracked + lost)
    requires Settled(tracked, followed, waiting, newlyRemoved, frame, next, maxTimeLost)
    requires Settled(lost, followed, waiting, newlyRemoved, frame, next, maxTimeLost)
    requires forall k :: 0 <= k < |started| ==> started[k] !in waiting && Followed(started[k].Now(), frame, next)
    ensures InOrder(followed, waiting, frame, next, maxTimeLost)
  {
    hide Followed, Waiting, STrack.Now;
    var live := tracked + lost + started;
    forall t | t in followed ensures t !in waiting && Followed(t.Now(), frame, next) {
      var i :| 0 <= i < |followed| && followed[i] == t;
      assert t in live;
      assert t in tracked || t in lost || t in started;
    }
    forall t | t in waiting ensures t in live && Waiting(t.Now(), frame, next, maxTimeLost) {
      var i :| 0 <= i < |waiting| && waiting[i] == t;
      assert t in tracked + lost;
      assert t in tracked || t in lost;
    }
    JoinDistinct(followed, waiting, waiting);
    var all := followed + waiting;
    forall i, j | 0 <= i < |all| && 0 <= j < |all| && all[i].trackId == all[j].trackId ensures all[i] == all[j] {
      assert all[i] in followed || all[i] in waiting;
      assert all[j] in followed || all[j] in waiting;
      assert all[i] in live && all[j] in live;
      var k :| 0 <= k < |live| && live[k] == all[i];
      var l :| 0 <= l < |live| && live[l] == all[j];
    }
    forall i | 0 <= i < |followed| ensures Followed(followed[i].Now(), frame, next) {
      assert followed[i] in followed;
    }
    forall i | 0 <= i < |waiting| ensures Waiting(waiting[i].Now(), frame, next, maxTimeLost) {
      assert waiting[i] in waiting;
    }
  }

  /** One frame on the lists, before twins are thinned out. ok is false when the filter throws. */
  method Step(tracked: seq<STrack>, lost: seq<STrack>, input: seq<FaceDetection>, cfg: Config, frame: int, nextId: nat,
              maxTimeLost: int)
    returns (ok: bool, followed: seq<STrack>, waiting: seq<STrack>, newlyRemoved: seq<STrack>, next: nat,
             ghost started: seq<STrack>, ghost newlyLost: seq<STrack>)
    requires InOrder(tracked, lost, frame - 1, nextId, maxTimeLost) && maxTimeLost >= 0 && nextId >= 1
    modifies tracked, lost
    ensures NeverThrows(old(Views(tracked)), old(Views(lost))) ==> ok
    ensures ok ==> AllUsed(followed, input, cfg)
    ensures ok ==> InOrder(followed, waiting, frame, next, maxTimeLost)
    ensures ok ==> AllTurned(tracked, old(Views(tracked)), followed, newlyLost, newlyRemoved, cfg.trackThreshold, input,
                             frame, maxTimeLost)
    ensures ok ==> AllTurned(lost, old(Views(lost)), followed, newlyLost, newlyRemoved, cfg.trackThreshold, input,
                             frame, maxTimeLost)
    ensures ok ==> Settled(tracked, followed, waiting, newlyRemoved, frame, next, maxTimeLost)
    ensures ok ==> Settled(lost, followed, waiting, newlyRemoved, frame, next, maxTimeLost)
    ensures ok ==> AgesWithin(tracked, waiting, frame, 1, 1) && AgesWithin(lost, waiting, frame, 2, maxTimeLost)
    ensures ok ==> Among(followed, tracked + lost + started) && Among(waiting, tracked + lost)
    ensures ok ==> Among(newlyRemoved, tracked + lost) && Among(newlyLost, waiting)
    ensures ok ==> next == nextId + |started| && Distinct(started)
    ensures ok ==> forall k :: 0 <= k < |started| ==>
      fresh(started[k]) && started[k] in followed && started[k] !in waiting
    ensures ok ==> forall k :: 0 <= k < |started| ==> Started(started[k], nextId + k, input, frame, cfg)
    ensures ok ==> SlotsDiffer(followed)
  {
    hide Followed, Waiting, STrack.Now, Turned, Started, UniqueIds, SlotsDiffer, WasInOrder, AllTurned, Settled, Among,
         Rebuilt, Distinct, InOrder, NeverThrows, AllUsed, AgesWithin;
    OrderedViews(tracked, lost, frame - 1, nextId, maxTimeLost);
    ghost var vt, vl := Views(tracked), Views(lost);
    ghost var base, was := tracked + lost, vt + vl;
    var activated, refound, lostNow;
    ok, activated, refound, lostNow, newlyRemoved, started, next :=
      Advance(tracked, lost, input, cfg, frame, nextId, maxTimeLost);
    newlyLost := lostNow;
    followed, waiting := [], [];
    if !ok {
      return;
    }
    IdsStay(tracked, vt, activated + refound, lostNow, newlyRemoved, cfg.trackThreshold, input, frame, maxTimeLost);
    IdsStay(lost, vl, activated + refound, lostNow, newlyRemoved, cfg.trackThreshold, input, frame, maxTimeLost);
    StartedIds(started, nextId, input, frame, cfg);
    NewIdsUnique(base, started, was, nextId);
    AmongAll(tracked, lost, started, activated, refound, lostNow, newlyRemoved);
    followed, waiting := Rebuild(tracked, lost, activated, refound, lostNow, newlyRemoved, base + started);
    UsedByFollowed(activated, refound, followed, input, cfg);
    RebuiltLists(tracked, lost, started, activated, refound, lostNow, newlyRemoved, followed, waiting);
    OldTracksSettle(tracked, vt, true, activated, refound, lostNow, newlyRemoved, followed, waiting, cfg.trackThreshold,
                    input, frame, nextId, next, maxTimeLost);
    OldTracksSettle(lost, vl, false, activated, refound, lostNow, newlyRemoved, followed, waiting, cfg.trackThreshold,
                    input, frame, nextId, next, maxTimeLost);
    ListsOfStep(tracked, lost, started, activated, refound, lostNow, newlyRemoved, followed, waiting);
    forall k | 0 <= k < |started| ensures Followed(started[k].Now(), frame, next) {
      StartedIsFollowed(started[k], nextId + k, input, frame, cfg, next);
    }
    NewListsInOrder(tracked, lost, started, followed, waiting, newlyRemoved, frame, next, maxTimeLost);
  }

  lemma UsedByFollowed(activated: seq<STrack>, refound: seq<STrack>, followed: seq<STrack>, input: seq<FaceDetection>,
                       cfg: Config)
    requires AllUsed(activated + refound, input, cfg) && forall t :: t in activated || t in refound ==> t in followed
    ensures AllUsed(followed, input, cfg)
  {
    hide SlotHeld;
    forall x: nat | x < |input| && input[x].score > cfg.trackThreshold && input[x].score >= cfg.newTrackThreshold
      ensures SlotHeld(followed, x)
    {
      HeldAmong(activated + refound, followed, x);
    }
  }

  lemma RebuiltLists(tracked: seq<STrack>, lost: seq<STrack>, started: seq<STrack>, activated: seq<STrack>,
                     refound: seq<STrack>, newlyLost: seq<STrack>, newlyRemoved: seq<STrack>, followed: seq<STrack>,
                     waiting: seq<STrack>)
    requires forall t :: t in tracked ==> t !in lost
    requires forall t :: t in followed <==> (t in tracked && t.state == Tracked) || t in activated || t in refound
    requires forall t :: t in waiting <==> ((t in lost && t !in followed) || t in newlyLost) && t !in newlyRemoved
    ensures forall i :: 0 <= i < |tracked| ==>
      Rebuilt(tracked[i], true, activated, refound, newlyLost, newlyRemoved, followed, waiting)
    ensures forall i :: 0 <= i < |lost| ==>
      Rebuilt(lost[i], false, activated, refound, newlyLost, newlyRemoved, followed, waiting)
  {
    forall i | 0 <= i < |tracked|
      ensures Rebuilt(tracked[i], true, activated, refound, newlyLost, newlyRemoved, followed, waiting)
    {
      assert tracked[i] in tracked;
    }
    forall i | 0 <= i < |lost|
      ensures Rebuilt(lost[i], false, activated, refound, newlyLost, newlyRemoved, followed, waiting)
    {
      assert lost[i] in lost;
      assert lost[i] !in tracked;
    }
  }

  lemma ListsOfStep(tracked: seq<STrack>, lost: seq<STrack>, started: seq<STrack>, activated: seq<STrack>,
                    refound: seq<STrack>, newlyLost: seq<STrack>, newlyRemoved: seq<STrack>, followed: seq<STrack>,
                    waiting: seq<STrack>)
    requires forall t :: t in followed <==> (t in tracked && t.state == Tracked) || t in activated || t in refound
    requires forall t :: t in waiting <==> ((t in lost && t !in followed) || t in newlyLost) && t !in newlyRemoved
    requires Among(activated, tracked + started) && Among(refound, lost) && Among(newlyLost, tracked)
      && Among(started, activated)
    requires forall i :: 0 <= i < |tracked| ==> (tracked[i] in followed <==> tracked[i] in activated + refound)
    requires forall i :: 0 <= i < |tracked| ==> (tracked[i] in newlyLost ==> tracked[i] in waiting)
    requires forall k :: 0 <= k < |started| ==> started[k] !in tracked && started[k] !in lost
    requires SlotsDiffer(activated + refound)
    ensures Among(followed, tracked + lost + started) && Among(waiting, tracked + lost) && Among(newlyLost, waiting)
    ensures forall k :: 0 <= k < |started| ==> started[k] in followed && started[k] !in waiting
    ensures SlotsDiffer(followed)
  {
    hide SlotsDiffer;
    forall t | t in followed ensures t in tracked + lost + started && t in activated + refound {
      if t in activated {
        var i :| 0 <= i < |activated| && activated[i] == t;
        assert t in tracked + started;
      } else if t in refound {
        var i :| 0 <= i < |refound| && refound[i] == t;
      }
    }
    MembersAmong(followed, tracked + lost + started);
    forall t | t in newlyLost ensures t in tracked && t in waiting {
      var i :| 0 <= i < |newlyLost| && newlyLost[i] == t;
      var j :| 0 <= j < |tracked| && tracked[j] == t;
    }
    MembersAmong(newlyLost, waiting);
    MembersAmong(waiting, tracked + lost);
    forall i | 0 <= i < |followed| ensures followed[i] in activated + refound {
      assert followed[i] in followed;
    }
    SlotsPermute(activated + refound, followed);
    forall k | 0 <= k < |started| ensures started[k] in followed && started[k] !in waiting {
      assert started[k] in activated;
    }
  }

  /** The order between frames, as views. */
  lemma OrderedViews(tracked: seq<STrack>, lost: seq<STrack>, frame: int, nextId: nat, maxTimeLost: int)
    requires InOrder(tracked, lost, frame, nextId, maxTimeLost)
    ensures Distinct(tracked + lost) && UniqueIds(tracked + lost)
    ensures Distinct(tracked) && Distinct(lost) && forall t :: t in tracked ==> t !in lost
    ensures forall i :: 0 <= i < |tracked| ==> tracked[i].state == Tracked
    ensures forall i :: 0 <= i < |lost| ==> lost[i].state == Lost
    ensures forall i :: 0 <= i < |tracked| ==> WasInOrder(Views(tracked)[i], true, frame, nextId, maxTimeLost)
    ensures forall i :: 0 <= i < |lost| ==> WasInOrder(Views(lost)[i], false, frame, nextId, maxTimeLost)
    ensures var was, base := Views(tracked) + Views(lost), tracked + lost;
      forall i, j :: 0 <= i < |was| && 0 <= j < |was| && was[i].id == was[j].id ==>
        base[i] == base[j] && was[i] == was[j]
    ensures var was := Views(tracked) + Views(lost); forall i :: 0 <= i < |was| ==> was[i].id < nextId
  {
    hide KalmanFilter.Sound;
    TrackedNotLost(tracked, lost);
    var was, base := Views(tracked) + Views(lost), tracked + lost;
    forall i | 0 <= i < |was| ensures was[i] == base[i].Now() && was[i].id < nextId {
      if i < |tracked| {
        assert Followed(tracked[i].Now(), frame, nextId);
      } else {
        assert Waiting(lost[i - |tracked|].Now(), frame, nextId, maxTimeLost);
      }
    }
  }

  lemma StartedIds(started: seq<STrack>, nextId: nat, input: seq<FaceDetection>, frame: int, cfg: Config)
    requires forall k :: 0 <= k < |started| ==> Started(started[k], nextId + k, input, frame, cfg)
    ensures forall k :: 0 <= k < |started| ==> started[k].trackId == nextId + k
  {
    forall k | 0 <= k < |started| ensures started[k].trackId == nextId + k {
      assert Started(started[k], nextId + k, input, frame, cfg);
    }
  }

  lemma AmongAll(tracked: seq<STrack>, lost: seq<STrack>, started: seq<STrack>, activated: seq<STrack>,
                 refound: seq<STrack>, newlyLost: seq<STrack>, newlyRemoved: seq<STrack>)
    requires Among(activated, tracked + started) && Among(refound, lost) && Among(newlyLost, tracked)
    requires Among(newlyRemoved, tracked + lost) && forall t :: t in tracked ==> t !in lost
    ensures var live := tracked + lost + started;
      && Among(tracked, live) && Among(lost, live) && Among(activated, live) && Among(refound, live)
      && Among(newlyLost, live) && Among(newlyRemoved, live)
    ensures forall t :: t in newlyLost ==> t !in lost
    ensures forall i :: 0 <= i < |tracked| ==> tracked[i] !in refound
  {
  }
}
