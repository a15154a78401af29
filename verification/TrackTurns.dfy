/** One frame of the tracker, seen from each track: who is followed, lost, kept waiting or removed. */
module TrackTurns {
  import opened Collections
  import opened STracks
  import opened TrackLists
  import opened TrackPhases
  import opened TrackRounds

  /** v is followed on as w; lost and unconfirmed tracks need a detection above the track threshold for that. */
  ghost predicate Follows(v: View, w: View, threshold: real, input: seq<FaceDetection>, frame: int) {
    && Refreshed(v, w, input, frame)
    && (v.state == Lost || !v.activated ==> w.score > threshold)
  }

  /** Unconfirmed tracks leave without a detection, lost ones when they were not seen for too long. */
  ghost predicate Leaves(v: View, w: View, frame: int, maxTimeLost: int) {
    && w == v.(filter := w.filter, state := Removed)
    && (if v.state == Lost then frame - v.frame > maxTimeLost else !v.activated)
  }

  ghost predicate Waits(v: View, w: View, frame: int, maxTimeLost: int) {
    && Foreseen(v, w) && v.state == Lost && frame - v.frame <= maxTimeLost
  }

  /** How one track comes out of the frame, and on which list. */
  ghost predicate Turned(v: View, w: View, followed: bool, lost: bool, removed: bool,
                         threshold: real, input: seq<FaceDetection>, frame: int, maxTimeLost: int) {
    if followed then !lost && !removed && Follows(v, w, threshold, input, frame)
    else if lost then !removed && v.activated && v.state == Tracked && Dropped(v, w)
    else if removed then Leaves(v, w, frame, maxTimeLost)
    else Waits(v, w, frame, maxTimeLost)
  }

  ghost predicate HighSlots(slots: set<nat>, input: seq<FaceDetection>, threshold: real) {
    forall x :: x in slots ==> x < |input| && input[x].score > threshold
  }

  lemma DetectionsAreHigh(vs: seq<View>, input: seq<FaceDetection>, threshold: real)
    requires DetectionsOf(vs, input, |input|, Above(threshold))
    ensures HighSlots(Slots(vs), input, threshold)
  {
  }

  lemma LeftSlotsAreHigh(vs: seq<View>, cols: seq<nat>)
    ensures SlotsAt(vs, cols) <= Slots(vs)
  {
  }

  lemma ConfirmedTurns(t: STrack, v: View, first: seq<STrack>, newlyLost: seq<STrack>,
                       threshold: real, input: seq<FaceDetection>, frame: int, maxTimeLost: int)
    requires v.activated && v.state == Tracked && ConfirmedOutcome(t, v, first, newlyLost, input, frame)
    ensures Turned(v, t.Now(), t in first, t in newlyLost, false, threshold, input, frame, maxTimeLost)
  {
    hide KalmanFilter.Sound;
  }

  lemma UnconfirmedTurns(t: STrack, v: View, third: seq<STrack>, gone: seq<STrack>, slots: set<nat>,
                         threshold: real, input: seq<FaceDetection>, frame: int, maxTimeLost: int)
    requires !v.activated && v.state == Tracked && UnconfirmedOutcome(t, v, third, gone, slots, input, frame)
    requires HighSlots(slots, input, threshold)
    ensures Turned(v, t.Now(), t in third, false, t in gone, threshold, input, frame, maxTimeLost)
  {
    hide KalmanFilter.Sound;
  }

  /** x is the lost track after the first round, and the age check comes last. */
  lemma LostTurns(t: STrack, v: View, x: View, refound: seq<STrack>, slots: set<nat>,
                  threshold: real, input: seq<FaceDetection>, frame: int, maxTimeLost: int)
    requires v.state == Lost && maxTimeLost >= 0
    requires if t in refound then Refreshed(v, x, input, frame) && x.slot in slots else Foreseen(v, x)
    requires t.Now() == if frame - x.frame > maxTimeLost then x.(state := Removed) else x
    requires HighSlots(slots, input, threshold)
    ensures t in refound ==> frame - t.frameId <= maxTimeLost
    ensures Turned(v, t.Now(), t in refound, false, frame - t.frameId > maxTimeLost, threshold, input, frame,
                   maxTimeLost)
  {
    hide KalmanFilter.Sound;
  }

  // ---------- keeping the lists apart

  /** The frame's tracks: confirmed, unconfirmed and lost ones, and the new detections, are all different objects. */
  ghost predicate AllApart(confirmed: seq<STrack>, unconfirmed: seq<STrack>, lost: seq<STrack>, high: seq<STrack>) {
    && (forall i :: 0 <= i < |confirmed| ==>
        confirmed[i] !in unconfirmed && confirmed[i] !in lost && confirmed[i] !in high)
    && (forall i :: 0 <= i < |unconfirmed| ==>
        unconfirmed[i] !in confirmed && unconfirmed[i] !in lost && unconfirmed[i] !in high)
    && (forall i :: 0 <= i < |lost| ==> lost[i] !in confirmed && lost[i] !in unconfirmed && lost[i] !in high)
    && (forall i :: 0 <= i < |high| ==> high[i] !in confirmed && high[i] !in unconfirmed && high[i] !in lost)
  }

  lemma SplitApart(tracked: seq<STrack>, lost: seq<STrack>, confirmed: seq<STrack>, unconfirmed: seq<STrack>,
                   high: seq<STrack>)
    requires Distinct(tracked + lost) && Distinct(confirmed)
    requires forall t :: t in unconfirmed <==> t in tracked && !t.isActivated
    requires forall t :: t in confirmed <==> t in tracked && t.isActivated
    requires forall t :: t in high ==> t !in tracked && t !in lost
    ensures AllApart(confirmed, unconfirmed, lost, high) && Distinct(confirmed + lost) && Distinct(lost)
  {
    TrackedNotLost(tracked, lost);
    JoinDistinct(confirmed, lost, lost);
  }

  lemma TrackedNotLost(tracked: seq<STrack>, lost: seq<STrack>)
    requires Distinct(tracked + lost)
    ensures Distinct(tracked) && Distinct(lost)
    ensures forall t :: t in tracked ==> t !in lost
  {
    var all := tracked + lost;
    forall i, j | 0 <= i < j < |lost| ensures lost[i] != lost[j] {
      assert all[|tracked| + i] == lost[i] && all[|tracked| + j] == lost[j];
    }
    forall i, j | 0 <= i < j < |tracked| ensures tracked[i] != tracked[j] {
      assert all[i] == tracked[i] && all[j] == tracked[j];
    }
    forall t | t in tracked ensures t !in lost {
      var i :| 0 <= i < |tracked| && tracked[i] == t;
      forall j | 0 <= j < |lost| ensures lost[j] != t {
        assert all[i] == t && all[|tracked| + j] == lost[j];
      }
    }
  }

  lemma ApartFromNew(tracks: seq<STrack>, dets: seq<STrack>)
    requires forall t :: t in dets ==> t !in tracks
    ensures Apart(tracks, dets)
  {
    forall i, j | 0 <= i < |tracks| && 0 <= j < |dets| ensures tracks[i] != dets[j] {
      assert dets[j] in dets;
    }
  }

  ghost predicate UniqueIds(live: seq<STrack>)
    reads live
  {
    forall i, j :: 0 <= i < |live| && 0 <= j < |live| && live[i].trackId == live[j].trackId ==> live[i] == live[j]
  }

  lemma UniqueIdsIdentify(live: seq<STrack>, a: seq<STrack>, b: seq<STrack>)
    requires UniqueIds(live) && (forall t :: t in a ==> t in live) && (forall t :: t in b ==> t in live)
    ensures IdsIdentify(a, b)
  {
    forall s, t | s in a + b && t in a + b && s.trackId == t.trackId ensures s == t {
      assert s in live && t in live;
      var i :| 0 <= i < |live| && live[i] == s;
      var j :| 0 <= j < |live| && live[j] == t;
    }
  }

  /** All detections held by followed and new tracks differ. */
  lemma AllSlotsDiffer(first: seq<STrack>, refound: seq<STrack>, third: seq<STrack>, started: seq<STrack>,
                       highs: seq<View>, cols: seq<nat>)
    requires SlotsDiffer(first + refound) && ColumnsFree(first + refound, highs, cols)
    requires SlotsDiffer(third + started) && SlotsAmong(third + started, SlotsAt(highs, cols))
    ensures SlotsDiffer(first + third + started + refound)
  {
    var a, b := first + refound, third + started;
    forall i | 0 <= i < |a| ensures a[i].slot !in SlotsAt(highs, cols) {
    }
    var all := a + b;
    forall i, j | 0 <= i < |all| && 0 <= j < |all| && all[i] != all[j] ensures all[i].slot != all[j].slot {
      if i < |a| && j < |a| {
        assert all[i] == a[i] && all[j] == a[j];
      } else if i >= |a| && j >= |a| {
        assert all[i] == b[i - |a|] && all[j] == b[j - |a|];
      }
    }
    var end := first + third + started + refound;
    forall i | 0 <= i < |end| ensures end[i] in all {
      assert end[i] in first || end[i] in third || end[i] in started || end[i] in refound;
    }
    SlotsPermute(all, end);
  }

  // ---------- the frame up to the age check

  /** Rounds one and two, then the detections they leave. */
  method FollowAndPick(confirmed: seq<STrack>, unconfirmed: seq<STrack>, lost: seq<STrack>, high: seq<STrack>,
                       low: seq<STrack>, cfg: Config, frame: int, ghost input: seq<FaceDetection>)
    returns (ok: bool, first: seq<STrack>, refound: seq<STrack>, newlyLost: seq<STrack>, left: seq<STrack>,
             ghost cols: seq<nat>)
    requires AllApart(confirmed, unconfirmed, lost, high) && Distinct(confirmed + lost) && Distinct(high)
    requires Apart(confirmed + lost, high) && Apart(confirmed + lost, low) && IdsIdentify(confirmed, lost)
    requires DetectionsOf(Views(high), input, |input|, Above(cfg.trackThreshold))
    requires DetectionsOf(Views(low), input, |input|, Between(cfg.lowThreshold, cfg.trackThreshold))
    requires forall i :: 0 <= i < |confirmed| ==> confirmed[i].state == Tracked
    requires forall i :: 0 <= i < |lost| ==> lost[i].state == Lost
    modifies confirmed, lost
    ensures AllStayTall(old(Views(confirmed + lost))) ==> ok
    ensures ok ==> OthersTaken(first + refound, old(Views(high)), cols)
    ensures ok ==> Distinct(first) && Distinct(refound) && Distinct(newlyLost)
    ensures ok ==>
      (forall t :: t in first || t in newlyLost ==> t in confirmed) && (forall t :: t in refound ==> t in lost)
    ensures ok ==> forall i :: 0 <= i < |confirmed| ==>
      ConfirmedOutcome(confirmed[i], old(confirmed[i].Now()), first, newlyLost, input, frame)
    ensures ok ==> forall i :: 0 <= i < |lost| ==>
      LostOutcome(lost[i], old(lost[i].Now()), refound, Slots(old(Views(high))), input, frame)
    ensures ok ==> SlotsDiffer(first + refound) && ColumnsFree(first + refound, old(Views(high)), cols)
    ensures ok ==> Distinct(left) && DistinctSlots(Views(left)) && (forall t :: t in left ==> t in high)
    ensures ok ==> forall c :: 0 <= c < |left| ==> Born(left[c].Now(), input)
    ensures ok ==> Slots(Views(left)) == SlotsAt(old(Views(high)), cols)
  {
    hide KalmanFilter.Sound, Refreshed, Foreseen, Born, DetectionsOf, Slots, SlotsAt, STrack.Now, SlotsDiffer,
         ColumnsFree, ConfirmedOutcome, LostOutcome, AllApart, Apart, IdsIdentify, OthersTaken, AllStayTall;
    var r;
    left, cols := [], [];
    ok, r, first, refound, newlyLost := FollowTracks(confirmed, lost, high, low, cfg, frame, input);
    if !ok {
      return;
    }
    cols := r.unmatchedCols;
    UnmatchedInRange(confirmed + lost, high, r);
    left := Pick(high, r.unmatchedCols);
    LeftDetections(high, r.unmatchedCols, left, input, Above(cfg.trackThreshold));
    forall t | t in left ensures t in high {
      var c :| 0 <= c < |left| && left[c] == t;
    }
  }

  /** A track the frame started from a detection that no track took. */
  ghost predicate Started(t: STrack, id: nat, input: seq<FaceDetection>, frame: int, cfg: Config)
    reads t
  {
    var w := t.Now();
    && w.id == id && w.state == Tracked && w.start == frame && w.frame == frame && w.activated == (frame == 1)
    && w.hasState && KalmanFilter.Sound(w.filter) && KalmanFilter.StartsAt(w.filter,
                                                                           TlwhToXyah(TlbrToTlwh(w.observation)))
    && w.slot < |input| && w.observation == input[w.slot] && w.score == w.observation.score && w.hasObservation
    && w.score > cfg.trackThreshold && w.score >= cfg.newTrackThreshold
  }

  /** Every leftover detection that scores enough for a new track is held. */
  ghost predicate LeftHeld(ts: seq<STrack>, lefts: seq<View>, limit: real)
    reads ts`slot
  {
    forall c :: 0 <= c < |lefts| && lefts[c].score >= limit ==> SlotHeld(ts, lefts[c].slot)
  }

  /** No detection that scores above the track threshold, and enough for a new track, goes unused. */
  ghost predicate AllUsed(ts: seq<STrack>, input: seq<FaceDetection>, cfg: Config)
    reads ts`slot
  {
    forall x: nat :: x < |input| && input[x].score > cfg.trackThreshold && input[x].score >= cfg.newTrackThreshold ==>
      SlotHeld(ts, x)
  }

  lemma EverythingIsUsed(first: seq<STrack>, refound: seq<STrack>, third: seq<STrack>, started: seq<STrack>,
                         highs: seq<View>, lefts: seq<View>, cols: seq<nat>, input: seq<FaceDetection>, cfg: Config)
    requires DetectionsOf(highs, input, |input|, Above(cfg.trackThreshold)) && OthersTaken(first + refound, highs, cols)
    requires Slots(lefts) == SlotsAt(highs, cols) && forall c :: 0 <= c < |lefts| ==> Born(lefts[c], input)
    requires LeftHeld(third + started, lefts, cfg.newTrackThreshold)
    ensures AllUsed(first + third + started + refound, input, cfg)
  {
    hide SlotHeld;
    var all := first + third + started + refound;
    forall x: nat | x < |input| && input[x].score > cfg.trackThreshold && input[x].score >= cfg.newTrackThreshold
      ensures SlotHeld(all, x)
    {
      assert x in Slots(highs);
      var c: nat :| c < |highs| && highs[c].slot == x;
      if c in cols {
        assert x in SlotsAt(highs, cols);
        var k :| 0 <= k < |lefts| && lefts[k].slot == x;
        HeldAmong(third + started, all, x);
      } else {
        HeldAmong(first + refound, all, x);
      }
    }
  }

  lemma HeldAmong(a: seq<STrack>, b: seq<STrack>, slot: nat)
    requires SlotHeld(a, slot) && forall i :: 0 <= i < |a| ==> a[i] in b
    ensures SlotHeld(b, slot)
  {
    var i :| 0 <= i < |a| && a[i].slot == slot;
    MemberHolds(b, a[i]);
  }

  /** Rounds three and the age check, as seen from the unconfirmed and the lost tracks. */
  method StartAndAge(unconfirmed: seq<STrack>, lost: seq<STrack>, left: seq<STrack>, refound: seq<STrack>, cfg: Config,
                     frame: int, nextId: nat, maxTimeLost: int, ghost input: seq<FaceDetection>, ghost slots: set<nat>)
    returns (ok: bool, third: seq<STrack>, gone: seq<STrack>, aged: seq<STrack>, started: seq<STrack>, next: nat)
    requires Distinct(unconfirmed) && Distinct(left) && Distinct(lost) && Apart(unconfirmed, left)
    requires Apart(lost, left) && Apart(lost, unconfirmed)
    requires DistinctSlots(Views(left)) && forall c :: 0 <= c < |left| ==> Born(left[c].Now(), input)
    requires Slots(Views(left)) <= slots && HighSlots(slots, input, cfg.trackThreshold)
    requires forall i :: 0 <= i < |unconfirmed| ==>
      Views(unconfirmed)[i].state == Tracked && !unconfirmed[i].isActivated
    modifies unconfirmed, left, lost`state
    ensures AllTall(old(Views(unconfirmed))) ==> ok
    ensures ok ==> LeftHeld(third + started, old(Views(left)), cfg.newTrackThreshold)
    ensures ok ==> Distinct(third) && Distinct(gone) && Distinct(started) && Distinct(aged)
    ensures ok ==> forall t :: t in third || t in gone ==> t in unconfirmed
    ensures ok ==> forall t :: t in started ==> t in left
    ensures ok ==> forall i :: 0 <= i < |unconfirmed| ==>
      Turned(old(unconfirmed[i].Now()), unconfirmed[i].Now(), unconfirmed[i] in third, false, unconfirmed[i] in gone,
             cfg.trackThreshold, input, frame, maxTimeLost)
    ensures ok ==> forall i :: 0 <= i < |lost| ==>
      lost[i].Now() == if frame - old(lost[i].frameId) > maxTimeLost then old(lost[i].Now()).(state := Removed)
        else old(lost[i].Now())
    ensures ok ==> forall t :: t in aged <==> t in lost && frame - t.frameId > maxTimeLost
    ensures ok ==> next == nextId + |started|
    ensures ok ==> forall k :: 0 <= k < |started| ==> Started(started[k], nextId + k, input, frame, cfg)
    ensures ok ==> SlotsDiffer(third + started) && SlotsAmong(third + started, Slots(old(Views(left))))
  {
    hide KalmanFilter.Sound, Refreshed, Born, Slots, SlotsDiffer, SlotsAmong, UnconfirmedOutcome, HighSlots, Turned,
         StartedAs, Started, AllTall, SlotHeld;
    aged := [];
    ghost var was := Views(left);
    HighSubset(Slots(was), slots, input, cfg.trackThreshold);
    ok, third, gone, started, next := RoundThree(unconfirmed, left, cfg, frame, nextId, input);
    if !ok {
      return;
    }
    forall i | 0 <= i < |unconfirmed|
      ensures Turned(old(unconfirmed[i].Now()), unconfirmed[i].Now(), unconfirmed[i] in third, false,
                     unconfirmed[i] in gone, cfg.trackThreshold, input, frame, maxTimeLost)
    {
      UnconfirmedTurns(unconfirmed[i], old(unconfirmed[i].Now()), third, gone, Slots(was), cfg.trackThreshold, input,
                       frame, maxTimeLost);
    }
    forall k | 0 <= k < |started| ensures Started(started[k], nextId + k, input, frame, cfg) {
      assert started[k] in started;
      assert started[k] in left;
      var c :| 0 <= c < |left| && left[c] == started[k];
      SlotOf(was, c);
      StartedFrom(started[k], was[c], nextId + k, input, frame, cfg, slots);
    }
    forall t | t in third + started ensures t !in lost {
      assert t in third || t in started;
      ListsApart(lost, left, unconfirmed, t);
    }
    ListsApartAll(lost, unconfirmed);
    aged := AgeOut(lost, frame, maxTimeLost);
  }

  lemma ListsApart(lost: seq<STrack>, left: seq<STrack>, unconfirmed: seq<STrack>, t: STrack)
    requires Apart(lost, left) && Apart(lost, unconfirmed) && (t in left || t in unconfirmed)
    ensures t !in lost
  {
  }

  lemma ListsApartAll(a: seq<STrack>, b: seq<STrack>)
    requires Apart(a, b)
    ensures (forall i :: 0 <= i < |a| ==> a[i] !in b) && (forall i :: 0 <= i < |b| ==> b[i] !in a)
  {
  }

  lemma SlotOf(vs: seq<View>, c: nat)
    requires c < |vs|
    ensures vs[c].slot in Slots(vs)
  {
  }

  lemma HighSubset(a: set<nat>, b: set<nat>, input: seq<FaceDetection>, threshold: real)
    requires a <= b && HighSlots(b, input, threshold)
    ensures HighSlots(a, input, threshold)
  {
  }

  lemma StartedFrom(t: STrack, v: View, id: nat, input: seq<FaceDetection>, frame: int, cfg: Config, slots: set<nat>)
    requires Born(v, input) && StartedAs(v, t.Now(), id, frame) && t.score >= cfg.newTrackThreshold
    requires HighSlots(slots, input, cfg.trackThreshold) && v.slot in slots
    ensures Started(t, id, input, frame, cfg)
  {
    hide KalmanFilter.Sound, KalmanFilter.StartsAt, TlwhToXyah, TlbrToTlwh;
  }

  // ---------- all phases together

  /** All tracks of the list are among the others. */
  ghost predicate Among(ts: seq<STrack>, others: seq<STrack>) {
    forall i :: 0 <= i < |ts| ==> ts[i] in others
  }

  lemma MembersAmong(ts: seq<STrack>, others: seq<STrack>)
    requires forall t :: t in ts ==> t in others
    ensures Among(ts, others)
  {
    forall i | 0 <= i < |ts| ensures ts[i] in others {
      assert ts[i] in ts;
    }
  }

  /** The lists the phases report, each within the list it draws from. */
  ghost predicate Reports(confirmed: seq<STrack>, unconfirmed: seq<STrack>, lost: seq<STrack>, high: seq<STrack>,
                          first: seq<STrack>, refound: seq<STrack>, newlyLost: seq<STrack>,
                          third: seq<STrack>, gone: seq<STrack>, aged: seq<STrack>, started: seq<STrack>) {
    && AllApart(confirmed, unconfirmed, lost, high)
    && Among(first, confirmed) && Among(newlyLost, confirmed)
    && Among(refound, lost) && Among(aged, lost)
    && Among(third, unconfirmed) && Among(gone, unconfirmed)
    && Among(started, high)
  }

  lemma WhereTracksGo(confirmed: seq<STrack>, unconfirmed: seq<STrack>, lost: seq<STrack>, high: seq<STrack>,
                      first: seq<STrack>, refound: seq<STrack>, newlyLost: seq<STrack>,
                      third: seq<STrack>, gone: seq<STrack>, aged: seq<STrack>, started: seq<STrack>)
    requires Reports(confirmed, unconfirmed, lost, high, first, refound, newlyLost, third, gone, aged, started)
    ensures var followed := first + third + started + refound;
      && (forall t :: t in confirmed ==> (t in followed <==> t in first) && t !in gone + aged)
      && (forall t :: t in unconfirmed ==>
          (t in followed <==> t in third) && t !in newlyLost && (t in gone + aged <==> t in gone))
      && (forall t :: t in lost ==>
          (t in followed <==> t in refound) && t !in newlyLost && (t in gone + aged <==> t in aged))
  {
  }

  /** All phases on the lists of the frame. ok is false when the filter throws. */
  method RunPhases(confirmed: seq<STrack>, unconfirmed: seq<STrack>, lost: seq<STrack>, high: seq<STrack>,
                   low: seq<STrack>, input: seq<FaceDetection>, cfg: Config, frame: int, nextId: nat, maxTimeLost: int)
    returns (ok: bool, activated: seq<STrack>, refound: seq<STrack>, newlyLost: seq<STrack>, newlyRemoved: seq<STrack>,
             ghost started: seq<STrack>, next: nat)
    requires AllApart(confirmed, unconfirmed, lost, high) && Distinct(confirmed + lost) && Distinct(high)
    requires Distinct(unconfirmed) && Distinct(lost) && maxTimeLost >= 0
    requires Apart(confirmed + lost, high) && Apart(confirmed + lost, low) && IdsIdentify(confirmed, lost)
    requires DetectionsOf(Views(high), input, |input|, Above(cfg.trackThreshold))
    requires DetectionsOf(Views(low), input, |input|, Between(cfg.lowThreshold, cfg.trackThreshold))
    requires forall i :: 0 <= i < |confirmed| ==> confirmed[i].state == Tracked && confirmed[i].isActivated
    requires forall i :: 0 <= i < |unconfirmed| ==>
      Views(unconfirmed)[i].state == Tracked && !unconfirmed[i].isActivated
    requires forall i :: 0 <= i < |lost| ==> lost[i].state == Lost
    modifies confirmed, unconfirmed, lost, high
    ensures AllStayTall(old(Views(confirmed + lost))) && AllTall(old(Views(unconfirmed))) ==> ok
    ensures ok ==> AllUsed(activated + refound, input, cfg)
    ensures ok ==> forall i :: 0 <= i < |confirmed| ==>
      Turned(old(confirmed[i].Now()), confirmed[i].Now(), confirmed[i] in activated + refound,
             confirmed[i] in newlyLost, confirmed[i] in newlyRemoved, cfg.trackThreshold, input, frame, maxTimeLost)
    ensures ok ==> forall i :: 0 <= i < |unconfirmed| ==>
      Turned(old(unconfirmed[i].Now()), unconfirmed[i].Now(), unconfirmed[i] in activated + refound,
             unconfirmed[i] in newlyLost, unconfirmed[i] in newlyRemoved, cfg.trackThreshold, input, frame, maxTimeLost)
    ensures ok ==> forall i :: 0 <= i < |lost| ==>
      Turned(old(lost[i].Now()), lost[i].Now(), lost[i] in activated + refound, lost[i] in newlyLost,
             lost[i] in newlyRemoved, cfg.trackThreshold, input, frame, maxTimeLost)
    ensures ok ==>
      Among(activated, confirmed + unconfirmed + started) && Among(refound, lost) && Among(newlyLost, confirmed)
    ensures ok ==> Among(newlyRemoved, unconfirmed + lost) && Among(started, activated) && Among(started, high)
    ensures ok ==> Distinct(newlyLost) && Distinct(started)
    ensures ok ==> next == nextId + |started|
    ensures ok ==> forall k :: 0 <= k < |started| ==> Started(started[k], nextId + k, input, frame, cfg)
    ensures ok ==> SlotsDiffer(activated + refound)
  {
    hide KalmanFilter.Sound, Refreshed, Foreseen, Born, DetectionsOf, Slots, SlotsAt, STrack.Now, SlotsDiffer,
         ColumnsFree, SlotsAmong, ConfirmedOutcome, LostOutcome, UnconfirmedOutcome, HighSlots, Turned, Started,
         IdsIdentify, Distinct, AllApart, Apart, Reports, Among, DistinctSlots, OthersTaken, AllStayTall, AllTall,
         LeftHeld, AllUsed;
    activated, newlyRemoved, started, next := [], [], [], nextId;
    ghost var highs := Views(high);
    DetectionsAreHigh(highs, input, cfg.trackThreshold);
    ghost var vc, vu, vl := Views(confirmed), Views(unconfirmed), Views(lost);
    ViewsOf(confirmed, vc);
    ViewsOf(lost, vl);
    var first, left;
    ghost var cols;
    ok, first, refound, newlyLost, left, cols := FollowAndPick(confirmed, unconfirmed, lost, high, low, cfg, frame,
                                                               input);
    if !ok {
      return;
    }
    LeftSlotsAreHigh(highs, cols);
    LeftApart(confirmed, unconfirmed, lost, high, left);
    assert Views(unconfirmed) == vu;
    ghost var lefts := Views(left);
    ViewsOf(left, lefts);
    ghost var mid := Views(lost);
    AfterRounds(lost, vl, refound, Slots(highs), input, frame);
    FoundApart(confirmed, unconfirmed, lost, high, left, first, refound, newlyLost);
    var third, gone, aged, begun;
    ok, third, gone, aged, begun, next :=
      StartAndAge(unconfirmed, lost, left, refound, cfg, frame, nextId, maxTimeLost, input, Slots(highs));
    if !ok {
      return;
    }
    started := begun;
    activated := first + third + begun;
    newlyRemoved := gone + aged;
    Reporting(confirmed, unconfirmed, lost, high, left, first, refound, newlyLost, third, gone, aged, begun);
    ReportsWithin(confirmed, unconfirmed, lost, high, first, refound, newlyLost, third, gone, aged, begun);
    AllSlotsDiffer(first, refound, third, begun, highs, cols);
    EverythingIsUsed(first, refound, third, begun, highs, lefts, cols, input, cfg);
    WhereTracksGo(confirmed, unconfirmed, lost, high, first, refound, newlyLost, third, gone, aged, begun);
    forall i | 0 <= i < |confirmed|
      ensures Turned(vc[i], confirmed[i].Now(), confirmed[i] in activated + refound, confirmed[i] in newlyLost,
                     confirmed[i] in newlyRemoved, cfg.trackThreshold, input, frame, maxTimeLost)
    {
      ConfirmedTurns(confirmed[i], vc[i], first, newlyLost, cfg.trackThreshold, input, frame, maxTimeLost);
    }
    forall i | 0 <= i < |lost|
      ensures Turned(vl[i], lost[i].Now(), lost[i] in activated + refound, lost[i] in newlyLost,
                     lost[i] in newlyRemoved, cfg.trackThreshold, input, frame, maxTimeLost)
    {
      LostGoes(lost[i], vl[i], mid[i], refound, aged, Slots(highs), cfg.trackThreshold, input, frame, maxTimeLost);
    }
  }

  lemma Reporting(confirmed: seq<STrack>, unconfirmed: seq<STrack>, lost: seq<STrack>, high: seq<STrack>,
                  left: seq<STrack>, first: seq<STrack>, refound: seq<STrack>, newlyLost: seq<STrack>,
                  third: seq<STrack>, gone: seq<STrack>, aged: seq<STrack>, started: seq<STrack>)
    requires AllApart(confirmed, unconfirmed, lost, high)
    requires forall t :: t in first || t in newlyLost ==> t in confirmed
    requires forall t :: t in refound || t in aged ==> t in lost
    requires forall t :: t in third || t in gone ==> t in unconfirmed
    requires (forall t :: t in started ==> t in left) && (forall t :: t in left ==> t in high)
    ensures Reports(confirmed, unconfirmed, lost, high, first, refound, newlyLost, third, gone, aged, started)
  {
    hide AllApart, Among;
    MembersAmong(first, confirmed);
    MembersAmong(newlyLost, confirmed);
    MembersAmong(refound, lost);
    MembersAmong(aged, lost);
    MembersAmong(third, unconfirmed);
    MembersAmong(gone, unconfirmed);
    MembersAmong(started, high);
  }

  lemma ReportsWithin(confirmed: seq<STrack>, unconfirmed: seq<STrack>, lost: seq<STrack>, high: seq<STrack>,
                      first: seq<STrack>, refound: seq<STrack>, newlyLost: seq<STrack>,
                      third: seq<STrack>, gone: seq<STrack>, aged: seq<STrack>, started: seq<STrack>)
    requires Reports(confirmed, unconfirmed, lost, high, first, refound, newlyLost, third, gone, aged, started)
    ensures Among(first + third + started, confirmed + unconfirmed + started) && Among(refound, lost)
      && Among(newlyLost, confirmed)
    ensures Among(gone + aged, unconfirmed + lost) && Among(started, first + third + started) && Among(started, high)
  {
  }

  lemma LostGoes(t: STrack, v: View, x: View, refound: seq<STrack>, aged: seq<STrack>, slots: set<nat>,
                 threshold: real, input: seq<FaceDetection>, frame: int, maxTimeLost: int)
    requires v.state == Lost && maxTimeLost >= 0
    requires LostStep(v, x, t in refound, slots, input, frame)
    requires t.Now() == if frame - x.frame > maxTimeLost then x.(state := Removed) else x
    requires HighSlots(slots, input, threshold) && (t in aged <==> frame - t.frameId > maxTimeLost)
    ensures Turned(v, t.Now(), t in refound, false, t in aged, threshold, input, frame, maxTimeLost)
  {
    hide Turned, Refreshed, Foreseen, HighSlots, STrack.Now;
    LostTurns(t, v, x, refound, slots, threshold, input, frame, maxTimeLost);
  }

  ghost predicate LostStep(v: View, x: View, found: bool, slots: set<nat>, input: seq<FaceDetection>, frame: int) {
    if found then Refreshed(v, x, input, frame) && x.slot in slots else Foreseen(v, x)
  }

  lemma AfterRounds(lost: seq<STrack>, was: seq<View>, refound: seq<STrack>, slots: set<nat>, input: seq<FaceDetection>,
                    frame: int)
    requires |was| == |lost| && forall i :: 0 <= i < |lost| ==>
      LostOutcome(lost[i], was[i], refound, slots, input, frame)
    ensures forall i :: 0 <= i < |lost| ==>
      LostStep(was[i], Views(lost)[i], lost[i] in refound, slots, input, frame)
        && Views(lost)[i].frame == lost[i].frameId
  {
    hide Refreshed, Foreseen;
    forall i | 0 <= i < |lost|
      ensures LostStep(was[i], Views(lost)[i], lost[i] in refound, slots, input, frame)
        && Views(lost)[i].frame == lost[i].frameId
    {
      assert LostOutcome(lost[i], was[i], refound, slots, input, frame);
    }
  }

  lemma FoundApart(confirmed: seq<STrack>, unconfirmed: seq<STrack>, lost: seq<STrack>, high: seq<STrack>,
                   left: seq<STrack>, first: seq<STrack>, refound: seq<STrack>, newlyLost: seq<STrack>)
    requires AllApart(confirmed, unconfirmed, lost, high) && forall t :: t in left ==> t in high
    requires (forall t :: t in first || t in newlyLost ==> t in confirmed) && (forall t :: t in refound ==> t in lost)
    ensures forall k :: 0 <= k < |first + refound| ==>
      (first + refound)[k] !in unconfirmed && (first + refound)[k] !in left
  {
    var found := first + refound;
    forall k | 0 <= k < |found| ensures found[k] !in unconfirmed && found[k] !in left {
      var t := found[k];
      assert t in first || t in refound;
      if t in first {
        var i :| 0 <= i < |confirmed| && confirmed[i] == t;
      } else {
        assert t in refound;
        var i :| 0 <= i < |lost| && lost[i] == t;
      }
    }
  }

  lemma ViewsOf(ts: seq<STrack>, vs: seq<View>)
    requires vs == Views(ts)
    ensures forall i :: 0 <= i < |ts| ==>
      vs[i] == ts[i].Now() && vs[i].state == ts[i].state && vs[i].activated == ts[i].isActivated
  {
  }

  lemma StatesAre(tracked: seq<STrack>, confirmed: seq<STrack>, unconfirmed: seq<STrack>)
    requires forall i :: 0 <= i < |tracked| ==> tracked[i].state == Tracked
    requires forall t :: t in unconfirmed <==> t in tracked && !t.isActivated
    requires forall t :: t in confirmed <==> t in tracked && t.isActivated
    ensures forall i :: 0 <= i < |confirmed| ==> confirmed[i].state == Tracked && confirmed[i].isActivated
    ensures forall i :: 0 <= i < |unconfirmed| ==> Views(unconfirmed)[i].state == Tracked && !unconfirmed[i].isActivated
  {
    forall i | 0 <= i < |confirmed| ensures confirmed[i].state == Tracked && confirmed[i].isActivated {
      assert confirmed[i] in confirmed;
    }
    forall i | 0 <= i < |unconfirmed| ensures unconfirmed[i].state == Tracked && !unconfirmed[i].isActivated {
      assert unconfirmed[i] in unconfirmed;
    }
  }

  /** Detections are new objects. */
  lemma StartApart(tracked: seq<STrack>, lost: seq<STrack>, confirmed: seq<STrack>, high: seq<STrack>, low: seq<STrack>)
    requires forall t :: t in high + low ==> t !in tracked && t !in lost
    requires forall t :: t in confirmed ==> t in tracked
    requires UniqueIds(tracked + lost)
    ensures Apart(confirmed + lost, high) && Apart(confirmed + lost, low)
    ensures IdsIdentify(confirmed, lost)
  {
    UniqueIdsIdentify(tracked + lost, confirmed, lost);
    forall t | t in high + low ensures t !in confirmed + lost {
    }
    ApartFromNew(confirmed + lost, high);
    ApartFromNew(confirmed + lost, low);
  }

  lemma LeftApart(confirmed: seq<STrack>, unconfirmed: seq<STrack>, lost: seq<STrack>, high: seq<STrack>,
                  left: seq<STrack>)
    requires AllApart(confirmed, unconfirmed, lost, high) && forall t :: t in left ==> t in high
    ensures Apart(unconfirmed, left) && Apart(lost, left) && Apart(lost, unconfirmed)
    ensures forall i :: 0 <= i < |confirmed| ==>
      confirmed[i] !in unconfirmed && confirmed[i] !in left && confirmed[i] !in lost
    ensures forall i :: 0 <= i < |left| ==> left[i] in high
  {
    forall i, j | 0 <= i < |lost| && 0 <= j < |left| ensures lost[i] != left[j] {
      assert left[j] in left;
    }
    forall i, j | 0 <= i < |unconfirmed| && 0 <= j < |left| ensures unconfirmed[i] != left[j] {
      assert left[j] in left;
    }
    forall i, j | 0 <= i < |lost| && 0 <= j < |unconfirmed| ensures lost[i] != unconfirmed[j] {
      assert lost[i] !in unconfirmed;
    }
  }

  /** Every track came out of the frame in one of the ways there are. */
  ghost predicate AllTurned(ts: seq<STrack>, was: seq<View>, followed: seq<STrack>, lost: seq<STrack>,
                            removed: seq<STrack>, threshold: real, input: seq<FaceDetection>, frame: int,
                            maxTimeLost: int)
    requires |was| == |ts|
    reads ts
  {
    forall i :: 0 <= i < |ts| ==>
      Turned(was[i], ts[i].Now(), ts[i] in followed, ts[i] in lost, ts[i] in removed, threshold, input, frame,
             maxTimeLost)
  }

  /** Every filter is fit for all corrections the frame can bring: confirmed and lost tracks after their prediction,
      unconfirmed ones as they are. */
  ghost predicate NeverThrows(tracked: seq<View>, lost: seq<View>) {
    && (forall i :: 0 <= i < |tracked| ==> if tracked[i].activated then StaysTall(tracked[i]) else Tall(tracked[i]))
    && (forall i :: 0 <= i < |lost| ==> StaysTall(lost[i]))
  }

  lemma SplitTall(tracked: seq<STrack>, lost: seq<STrack>, confirmed: seq<STrack>, unconfirmed: seq<STrack>)
    requires NeverThrows(Views(tracked), Views(lost))
    requires forall t :: t in unconfirmed <==> t in tracked && !t.isActivated
    requires forall t :: t in confirmed <==> t in tracked && t.isActivated
    ensures AllStayTall(Views(confirmed + lost)) && AllTall(Views(unconfirmed))
  {
    hide Tall, StaysTall;
    var pool := confirmed + lost;
    forall k | 0 <= k < |pool| ensures StaysTall(Views(pool)[k]) {
      if k < |confirmed| {
        assert confirmed[k] in confirmed;
        var i :| 0 <= i < |tracked| && tracked[i] == confirmed[k];
        assert Views(tracked)[i] == Views(pool)[k];
      } else {
        assert Views(lost)[k - |confirmed|] == Views(pool)[k];
      }
    }
    forall k | 0 <= k < |unconfirmed| ensures Tall(Views(unconfirmed)[k]) {
      assert unconfirmed[k] in unconfirmed;
      var i :| 0 <= i < |tracked| && tracked[i] == unconfirmed[k];
      assert Views(tracked)[i] == Views(unconfirmed)[k];
    }
  }

  /** Everything an update does before it rebuilds its lists. ok is false when the filter throws. */
  method Advance(tracked: seq<STrack>, lost: seq<STrack>, input: seq<FaceDetection>, cfg: Config, frame: int,
                 nextId: nat, maxTimeLost: int)
    returns (ok: bool, activated: seq<STrack>, refound: seq<STrack>, newlyLost: seq<STrack>, newlyRemoved: seq<STrack>,
             ghost started: seq<STrack>, next: nat)
    requires Distinct(tracked + lost) && UniqueIds(tracked + lost) && maxTimeLost >= 0
    requires forall i :: 0 <= i < |tracked| ==> tracked[i].state == Tracked
    requires forall i :: 0 <= i < |lost| ==> lost[i].state == Lost
    modifies tracked, lost
    ensures NeverThrows(old(Views(tracked)), old(Views(lost))) ==> ok
    ensures ok ==> AllUsed(activated + refound, input, cfg)
    ensures ok ==>
      AllTurned(tracked, old(Views(tracked)), activated + refound, newlyLost, newlyRemoved, cfg.trackThreshold, input,
                             frame, maxTimeLost)
    ensures ok ==>
      AllTurned(lost, old(Views(lost)), activated + refound, newlyLost, newlyRemoved, cfg.trackThreshold, input,
                             frame, maxTimeLost)
    ensures ok ==> Among(activated, tracked + started) && Among(refound, lost) && Among(newlyLost, tracked)
    ensures ok ==> Among(newlyRemoved, tracked + lost) && Among(started, activated)
    ensures ok ==> Distinct(newlyLost) && Distinct(started) && forall i :: 0 <= i < |started| ==> fresh(started[i])
    ensures ok ==> next == nextId + |started|
    ensures ok ==> forall k :: 0 <= k < |started| ==> Started(started[k], nextId + k, input, frame, cfg)
    ensures ok ==> SlotsDiffer(activated + refound)
  {
    hide KalmanFilter.Sound, Born, DetectionsOf, STrack.Now, SlotsDiffer, Turned, Started, IdsIdentify, UniqueIds,
         AllApart, Apart, Among, AllUsed, AllTall, AllStayTall, NeverThrows;
    var high, low := SplitInput(input, cfg.trackThreshold, cfg.lowThreshold);
    var unconfirmed, confirmed := SplitTracked(tracked);
    TrackedNotLost(tracked, lost);
    SplitApart(tracked, lost, confirmed, unconfirmed, high);
    StatesAre(tracked, confirmed, unconfirmed);
    StartApart(tracked, lost, confirmed, high, low);
    ghost var vt, vc, vu := Views(tracked), Views(confirmed), Views(unconfirmed);
    SplitViews(tracked, confirmed, unconfirmed);
    if NeverThrows(vt, Views(lost)) {
      SplitTall(tracked, lost, confirmed, unconfirmed);
    }
    ok, activated, refound, newlyLost, newlyRemoved, started, next :=
      RunPhases(confirmed, unconfirmed, lost, high, low, input, cfg, frame, nextId, maxTimeLost);
    if !ok {
      return;
    }
    forall i | 0 <= i < |tracked|
      ensures Turned(vt[i], tracked[i].Now(), tracked[i] in activated + refound, tracked[i] in newlyLost,
                     tracked[i] in newlyRemoved, cfg.trackThreshold, input, frame, maxTimeLost)
    {
      assert ViewedIn(tracked[i], vt[i], confirmed, vc) || ViewedIn(tracked[i], vt[i], unconfirmed, vu);
    }
    WithinTracked(tracked, lost, confirmed, unconfirmed, activated, newlyLost, newlyRemoved, started);
    assert forall i :: 0 <= i < |started| ==> fresh(started[i]) by {
      AllIn(started, high);
    }
  }

  ghost predicate ViewedIn(t: STrack, v: View, ts: seq<STrack>, vs: seq<View>)
    requires |ts| == |vs|
  {
    exists k :: 0 <= k < |ts| && ts[k] == t && vs[k] == v
  }

  lemma SplitViews(tracked: seq<STrack>, confirmed: seq<STrack>, unconfirmed: seq<STrack>)
    requires forall t :: t in unconfirmed <==> t in tracked && !t.isActivated
    requires forall t :: t in confirmed <==> t in tracked && t.isActivated
    ensures forall i :: 0 <= i < |tracked| ==>
      (ViewedIn(tracked[i], Views(tracked)[i], confirmed, Views(confirmed))
       || ViewedIn(tracked[i], Views(tracked)[i], unconfirmed, Views(unconfirmed)))
    ensures forall i :: 0 <= i < |confirmed| ==> confirmed[i] in tracked
    ensures forall i :: 0 <= i < |unconfirmed| ==> unconfirmed[i] in tracked
  {
    hide STrack.Now;
    forall i | 0 <= i < |tracked| ensures ViewedIn(tracked[i], Views(tracked)[i], confirmed, Views(confirmed))
      || ViewedIn(tracked[i], Views(tracked)[i], unconfirmed, Views(unconfirmed))
    {
      assert tracked[i] in tracked;
      if tracked[i].isActivated {
        var k :| 0 <= k < |confirmed| && confirmed[k] == tracked[i];
        assert Views(confirmed)[k] == Views(tracked)[i];
      } else {
        var k :| 0 <= k < |unconfirmed| && unconfirmed[k] == tracked[i];
        assert Views(unconfirmed)[k] == Views(tracked)[i];
      }
    }
    forall i | 0 <= i < |confirmed| ensures confirmed[i] in tracked {
      assert confirmed[i] in confirmed;
    }
    forall i | 0 <= i < |unconfirmed| ensures unconfirmed[i] in tracked {
      assert unconfirmed[i] in unconfirmed;
    }
  }

  lemma AllIn(ts: seq<STrack>, others: seq<STrack>)
    requires Among(ts, others)
    ensures forall i :: 0 <= i < |ts| ==> ts[i] in others
  {
  }

  lemma WithinTracked(tracked: seq<STrack>, lost: seq<STrack>, confirmed: seq<STrack>, unconfirmed: seq<STrack>,
                      activated: seq<STrack>, newlyLost: seq<STrack>, newlyRemoved: seq<STrack>, started: seq<STrack>)
    requires forall i :: 0 <= i < |confirmed| ==> confirmed[i] in tracked
    requires forall i :: 0 <= i < |unconfirmed| ==> unconfirmed[i] in tracked
    requires Among(activated, confirmed + unconfirmed + started) && Among(newlyLost, confirmed)
    requires Among(newlyRemoved, unconfirmed + lost)
    ensures Among(activated, tracked + started) && Among(newlyLost, tracked) && Among(newlyRemoved, tracked + lost)
  {
  }
}
