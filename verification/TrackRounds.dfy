/** The three association rounds of a tracker update, and the start of new tracks. */
module TrackRounds {
  import opened Collections
  import opened STracks
  import opened TrackLists
  import opened TrackPhases

  datatype Config = Config(
    trackThreshold: real, lowThreshold: real, newTrackThreshold: real, matchThreshold: real,
    secondMatchThreshold: real, unconfirmedMatchThreshold: real, trackBuffer: int, frameRate: int, mot20: bool)

  /** Refreshing after predicting is refreshing. */
  lemma RefreshedAfterForeseen(v: View, x: View, w: View, input: seq<FaceDetection>, frame: int)
    requires Foreseen(v, x) && Refreshed(x, w, input, frame)
    ensures Refreshed(v, w, input, frame)
  {
    hide KalmanFilter.Sound;
  }

  /** As Associated, for tracks whose filters moved on first. */
  ghost predicate AssociatedAfter(was: seq<View>, now: seq<View>, dets: seq<View>, r: LinearAssignment.Result,
                                  input: seq<FaceDetection>, frame: int)
    requires r.Solved?
  {
    && |was| == |now|
    && (forall i: nat :: i < |was| ==>
          if i in r.unmatchedRows then Foreseen(was[i], now[i])
          else Refreshed(was[i], now[i], input, frame) && now[i].slot in Slots(dets))
    && (forall i: nat, j: nat :: i < j < |was| && i !in r.unmatchedRows && j !in r.unmatchedRows ==>
        now[i].slot != now[j].slot)
    && (forall i: nat, c :: i < |was| && i !in r.unmatchedRows && c in r.unmatchedCols && c < |dets| ==>
          now[i].slot != dets[c].slot)
    && MatchedHeld(now, dets, r)
  }

  lemma AssociateAfterPredict(was: seq<View>, mid: seq<View>, now: seq<View>, dets: seq<View>,
                              r: LinearAssignment.Result, input: seq<FaceDetection>, frame: int)
    requires |was| == |mid| && forall i :: 0 <= i < |was| ==> Foreseen(was[i], mid[i])
    requires r.Solved? && Associated(mid, now, dets, r, input, frame)
    ensures AssociatedAfter(was, now, dets, r, input, frame)
  {
    hide Refreshed, Foreseen, Slots, MatchedHeld;
    forall i: nat | i < |was| && i !in r.unmatchedRows ensures Refreshed(was[i], now[i], input, frame) {
      RefreshedAfterForeseen(was[i], mid[i], now[i], input, frame);
    }
  }

  lemma ReportedAfterPredict(ts: seq<STrack>, was: seq<View>, mid: seq<View>, r: LinearAssignment.Result,
                             list: seq<STrack>, followed: bool)
    requires |was| == |mid| == |ts| && forall i :: 0 <= i < |was| ==> Foreseen(was[i], mid[i])
    requires r.Solved? && Reported(ts, mid, r, list, followed)
    ensures Reported(ts, was, r, list, followed)
  {
    hide KalmanFilter.Sound;
    assert forall i :: 0 <= i < |was| ==> was[i].state == mid[i].state;
  }

  ghost predicate AllStayTall(vs: seq<View>) {
    forall i :: 0 <= i < |vs| ==> StaysTall(vs[i])
  }

  lemma StillTall(was: seq<View>, mid: seq<View>)
    requires |was| == |mid| && AllStayTall(was) && forall i :: 0 <= i < |was| ==> Foreseen(was[i], mid[i])
    ensures AllTall(mid)
  {
    hide Tall, StaysTall, Foreseen;
    forall i | 0 <= i < |mid| ensures Tall(mid[i]) {
      StillTallOne(was[i], mid[i]);
    }
  }

  lemma StillTallOne(v: View, x: View)
    requires StaysTall(v) && Foreseen(v, x)
    ensures Tall(x)
  {
    hide PredictedFrom, Tall, KalmanFilter.Sound;
    TallAfterPrediction(v, x.filter);
  }

  /** First round: confirmed and lost tracks against the high-score detections, where the filters expect them. */
  method FirstRound(confirmed: seq<STrack>, lost: seq<STrack>, high: seq<STrack>, cfg: Config, frame: int,
                    ghost input: seq<FaceDetection>)
    returns (ok: bool, pool: seq<STrack>, r: LinearAssignment.Result, activated: seq<STrack>, refound: seq<STrack>,
             ghost mid: seq<View>)
    requires Distinct(confirmed + lost) && Apart(confirmed + lost, high) && IdsIdentify(confirmed, lost)
    requires DetectionsOf(Views(high), input, |input|, Above(cfg.trackThreshold))
    modifies confirmed, lost
    ensures pool == confirmed + lost
    ensures r.Solved? && LinearAssignment.Partitions(|pool|, |high|, r)
    ensures Views(high) == old(Views(high))
    ensures |mid| == |pool| && forall i :: 0 <= i < |pool| ==> Foreseen(old(Views(confirmed + lost))[i], mid[i])
    ensures Cheapest(ItemsOf(mid), ItemsOf(Views(high)), !cfg.mot20, cfg.matchThreshold, r)
    ensures AllStayTall(old(Views(confirmed + lost))) ==> ok && AllTall(mid)
    ensures ok ==> AssociatedAfter(old(Views(confirmed + lost)), Views(pool), Views(high), r, input, frame)
    ensures ok ==> Distinct(activated) && Reported(pool, old(Views(confirmed + lost)), r, activated, true)
    ensures ok ==> Distinct(refound) && Reported(pool, old(Views(confirmed + lost)), r, refound, false)
  {
    hide KalmanFilter.Sound, Refreshed, Foreseen, Born, Cheapest, Associated, AssociatedAfter, Reported, STrack.Now,
         AllTall, AllStayTall;
    pool := JointTracks(confirmed, lost);
    ghost var was := Views(pool);
    PredictAll(pool);
    mid := Views(pool);
    forall i | 0 <= i < |high| ensures Views(high)[i] == old(Views(high))[i] {
      assert high[i] !in pool;
    }
    assert forall i :: 0 <= i < |pool| ==> Foreseen(was[i], mid[i]);
    if AllStayTall(was) {
      StillTall(was, mid);
    }
    ok, r, activated, refound := MatchStage(pool, high, !cfg.mot20, cfg.matchThreshold, frame, input);
    if ok {
      AssociateAfterPredict(was, mid, Views(pool), Views(high), r, input, frame);
      ReportedAfterPredict(pool, was, mid, r, activated, true);
      ReportedAfterPredict(pool, was, mid, r, refound, false);
    }
  }

  /** As Associated, with the unmatched tracks marked afterwards. */
  ghost predicate AssociatedThen(was: seq<View>, now: seq<View>, dets: seq<View>, r: LinearAssignment.Result,
                                 input: seq<FaceDetection>, frame: int, mark: TrackState)
    requires r.Solved?
  {
    && |was| == |now|
    && (forall i: nat :: i < |was| ==>
          if i in r.unmatchedRows then now[i] == was[i].(state := mark)
          else Refreshed(was[i], now[i], input, frame) && now[i].slot in Slots(dets))
    && (forall i: nat, j: nat :: i < j < |was| && i !in r.unmatchedRows && j !in r.unmatchedRows ==>
        now[i].slot != now[j].slot)
    && (forall i: nat, c :: i < |was| && i !in r.unmatchedRows && c in r.unmatchedCols && c < |dets| ==>
          now[i].slot != dets[c].slot)
    && MatchedHeld(now, dets, r)
  }

  lemma AssociateBeforeMark(was: seq<View>, mid: seq<View>, now: seq<View>, dets: seq<View>, r: LinearAssignment.Result,
                            input: seq<FaceDetection>, frame: int, mark: TrackState)
    requires r.Solved? && Associated(was, mid, dets, r, input, frame) && |now| == |mid|
    requires forall i: nat :: i < |mid| ==> now[i] == if i in r.unmatchedRows then mid[i].(state := mark) else mid[i]
    ensures AssociatedThen(was, now, dets, r, input, frame, mark)
  {
    hide Refreshed, Slots, MatchedHeld;
    MarkedHold(mid, now, dets, r);
  }

  lemma MarkedHold(mid: seq<View>, now: seq<View>, dets: seq<View>, r: LinearAssignment.Result)
    requires r.Solved? && MatchedHeld(mid, dets, r) && |now| == |mid|
    requires forall i: nat :: i < |mid| ==> now[i].slot == mid[i].slot
    ensures MatchedHeld(now, dets, r)
  {
    forall c: nat | c < |dets| && c !in r.unmatchedCols ensures Held(now, r, dets[c].slot) {
      assert Held(mid, r, dets[c].slot);
    }
  }

  /** The list holds exactly the unmatched tracks. */
  ghost predicate LeftOver(tracks: seq<STrack>, r: LinearAssignment.Result, list: seq<STrack>)
    requires r.Solved?
  {
    (forall t :: t in list ==> t in tracks) && (forall i: nat :: i < |tracks| ==>
                                                (tracks[i] in list <==> i in r.unmatchedRows))
  }

  /** Second round: confirmed tracks still without a detection against the low-score ones; the rest are lost. */
  method SecondRound(remaining: seq<STrack>, low: seq<STrack>, cfg: Config, frame: int, ghost input: seq<FaceDetection>)
    returns (ok: bool, r: LinearAssignment.Result, activated: seq<STrack>, refound: seq<STrack>, newlyLost: seq<STrack>)
    requires Distinct(remaining) && Apart(remaining, low)
    requires DetectionsOf(Views(low), input, |input|, Between(cfg.lowThreshold, cfg.trackThreshold))
    requires forall i :: 0 <= i < |remaining| ==> Views(remaining)[i].state == Tracked
    modifies remaining
    ensures r.Solved? && LinearAssignment.Partitions(|remaining|, |low|, r)
    ensures Cheapest(ItemsOf(old(Views(remaining))), ItemsOf(old(Views(low))), false, cfg.secondMatchThreshold, r)
    ensures AllTall(old(Views(remaining))) ==> ok
    ensures ok ==> AssociatedThen(old(Views(remaining)), Views(remaining), old(Views(low)), r, input, frame, Lost)
    ensures ok ==> Distinct(activated) && Reported(remaining, old(Views(remaining)), r, activated, true)
    ensures ok ==> refound == [] && Distinct(newlyLost) && LeftOver(remaining, r, newlyLost)
  {
    hide KalmanFilter.Sound, Refreshed, Born, Cheapest, AssociatedThen, Slots, AllTall, MatchedHeld, Associated,
         Reported;
    ghost var was := Views(remaining);
    ok, r, activated, refound := MatchStage(remaining, low, false, cfg.secondMatchThreshold, frame, input);
    if !ok {
      newlyLost := [];
      return;
    }
    ghost var mid := Views(remaining);
    UnmatchedInRange(remaining, low, r);
    NothingRefound(remaining, was, r, refound);
    StillFollowed(was, mid, old(Views(low)), r, input, frame);
    newlyLost := LoseRows(remaining, r.unmatchedRows);
    AssociateBeforeMark(was, mid, Views(remaining), old(Views(low)), r, input, frame, Lost);
  }

  lemma UnmatchedInRange(tracks: seq<STrack>, dets: seq<STrack>, r: LinearAssignment.Result)
    requires r.Solved? && LinearAssignment.Partitions(|tracks|, |dets|, r)
    ensures forall k :: 0 <= k < |r.unmatchedRows| ==> r.unmatchedRows[k] < |tracks|
    ensures forall k :: 0 <= k < |r.unmatchedCols| ==> r.unmatchedCols[k] < |dets|
  {
    forall k | 0 <= k < |r.unmatchedRows| ensures r.unmatchedRows[k] < |tracks| {
      assert r.unmatchedRows[k] in r.unmatchedRows;
    }
    forall k | 0 <= k < |r.unmatchedCols| ensures r.unmatchedCols[k] < |dets| {
      assert r.unmatchedCols[k] in r.unmatchedCols;
    }
  }

  lemma FirstIsMember<T>(s: seq<T>)
    requires |s| > 0
    ensures s[0] in s
  {
  }

  /** Where every track was followed, none is found again. */
  lemma NothingRefound(tracks: seq<STrack>, was: seq<View>, r: LinearAssignment.Result, refound: seq<STrack>)
    requires |was| == |tracks| && r.Solved? && Reported(tracks, was, r, refound, false)
    requires forall i :: 0 <= i < |was| ==> was[i].state == Tracked
    ensures refound == []
  {
    if |refound| > 0 {
      FirstIsMember(refound);
    }
  }

  lemma StillFollowed(was: seq<View>, mid: seq<View>, dets: seq<View>, r: LinearAssignment.Result,
                      input: seq<FaceDetection>, frame: int)
    requires r.Solved? && Associated(was, mid, dets, r, input, frame)
    requires forall i :: 0 <= i < |was| ==> was[i].state == Tracked
    ensures forall i :: 0 <= i < |mid| ==> mid[i].state == Tracked
  {
    hide KalmanFilter.Sound;
  }

  /** Third round: unconfirmed tracks against the high-score detections left over; the rest are removed. */
  method ThirdRound(unconfirmed: seq<STrack>, left: seq<STrack>, cfg: Config, frame: int,
                    ghost input: seq<FaceDetection>)
    returns (ok: bool, r: LinearAssignment.Result, activated: seq<STrack>, removed: seq<STrack>)
    requires Distinct(unconfirmed) && Apart(unconfirmed, left)
    requires DistinctSlots(Views(left)) && forall c :: 0 <= c < |left| ==> Born(left[c].Now(), input)
    requires forall i :: 0 <= i < |unconfirmed| ==> Views(unconfirmed)[i].state == Tracked
    modifies unconfirmed
    ensures r.Solved? && LinearAssignment.Partitions(|unconfirmed|, |left|, r)
    ensures Cheapest(ItemsOf(old(Views(unconfirmed))), ItemsOf(old(Views(left))), !cfg.mot20,
                     cfg.unconfirmedMatchThreshold, r)
    ensures AllTall(old(Views(unconfirmed))) ==> ok
    ensures Views(left) == old(Views(left))
    ensures ok ==> AssociatedThen(old(Views(unconfirmed)), Views(unconfirmed), Views(left), r, input, frame, Removed)
    ensures ok ==> Distinct(activated) && Reported(unconfirmed, old(Views(unconfirmed)), r, activated, true)
    ensures ok ==> Distinct(removed) && LeftOver(unconfirmed, r, removed)
  {
    hide KalmanFilter.Sound, Refreshed, Born, Cheapest, AssociatedThen, Associated, Slots, Reported, AllTall,
         MatchedHeld;
    ghost var was, seen := Views(unconfirmed), Views(left);
    var refound;
    ok, r, activated, refound := MatchStage(unconfirmed, left, !cfg.mot20, cfg.unconfirmedMatchThreshold, frame, input);
    if !ok {
      removed := [];
      return;
    }
    ghost var mid := Views(unconfirmed);
    UnmatchedInRange(unconfirmed, left, r);
    removed := RemoveRows(unconfirmed, r.unmatchedRows);
    forall c | 0 <= c < |left| ensures Views(left)[c] == seen[c] {
      assert left[c] !in unconfirmed;
    }
    AssociateBeforeMark(was, mid, Views(unconfirmed), seen, r, input, frame, Removed);
  }

  // ---------- the first two rounds, seen from the tracks

  /** Different tracks of the list hold different detections. */
  ghost predicate SlotsDiffer(ts: seq<STrack>)
    reads ts`slot
  {
    forall i, j :: 0 <= i < |ts| && 0 <= j < |ts| && ts[i] != ts[j] ==> ts[i].slot != ts[j].slot
  }

  /** No track of the list holds one of the detections in these columns. */
  ghost predicate ColumnsFree(ts: seq<STrack>, dets: seq<View>, cols: seq<nat>)
    reads ts`slot
  {
    forall i, c :: 0 <= i < |ts| && c in cols && c < |dets| ==> ts[i].slot != dets[c].slot
  }

  /** Each detection outside these columns is held by a track of the list. */
  ghost predicate OthersTaken(ts: seq<STrack>, dets: seq<View>, cols: seq<nat>)
    reads ts`slot
  {
    forall c: nat :: c < |dets| && c !in cols ==> SlotHeld(ts, dets[c].slot)
  }

  ghost predicate SlotHeld(ts: seq<STrack>, slot: nat)
    reads ts`slot
  {
    exists i :: 0 <= i < |ts| && ts[i].slot == slot
  }

  ghost predicate SlotsAmong(ts: seq<STrack>, slots: set<nat>)
    reads ts`slot
  {
    forall i :: 0 <= i < |ts| ==> ts[i].slot in slots
  }

  /** The track only lost its detection: the filter moved on, the state is Lost. */
  ghost predicate Dropped(v: View, w: View) {
    w == v.(filter := w.filter, state := Lost) && (KalmanFilter.Sound(v.filter) ==> KalmanFilter.Sound(w.filter))
  }

  /** What the first round means for slots. */
  lemma FirstRoundSlots(pool: seq<STrack>, was: seq<View>, dets: seq<View>, r: LinearAssignment.Result,
                        activated: seq<STrack>, refound: seq<STrack>, input: seq<FaceDetection>, frame: int)
    requires |was| == |pool| && r.Solved? && AssociatedAfter(was, Views(pool), dets, r, input, frame)
    requires Reported(pool, was, r, activated, true) && Reported(pool, was, r, refound, false)
    ensures SlotsDiffer(activated + refound) && ColumnsFree(activated + refound, dets, r.unmatchedCols)
    ensures SlotsAmong(activated + refound, Slots(dets))
    ensures OthersTaken(activated + refound, dets, r.unmatchedCols)
  {
    hide Refreshed, Foreseen, Slots, Held;
    var all := activated + refound;
    forall c: nat | c < |dets| && c !in r.unmatchedCols ensures SlotHeld(all, dets[c].slot) {
      var i := HolderOf(pool, dets[c].slot, r);
      assert pool[i] in activated || pool[i] in refound;
      assert pool[i] in all;
      MemberHolds(all, pool[i]);
    }
    forall k | 0 <= k < |all| ensures MatchedSomewhere(pool, r, all[k]) {
      assert all[k] in activated || all[k] in refound;
      var i: nat :| i < |pool| && pool[i] == all[k];
      assert i !in r.unmatchedRows;
    }
    forall k, l | 0 <= k < |all| && 0 <= l < |all| && all[k] != all[l] ensures all[k].slot != all[l].slot {
      assert MatchedSomewhere(pool, r, all[k]) && MatchedSomewhere(pool, r, all[l]);
      var i: nat :| i < |pool| && i !in r.unmatchedRows && pool[i] == all[k];
      var j: nat :| j < |pool| && j !in r.unmatchedRows && pool[j] == all[l];
      assert Views(pool)[i].slot != Views(pool)[j].slot;
    }
    forall k, c | 0 <= k < |all| && c in r.unmatchedCols && c < |dets| ensures all[k].slot != dets[c].slot {
      assert MatchedSomewhere(pool, r, all[k]);
      var i: nat :| i < |pool| && i !in r.unmatchedRows && pool[i] == all[k];
      assert Views(pool)[i].slot != dets[c].slot;
    }
    forall k | 0 <= k < |all| ensures all[k].slot in Slots(dets) {
      assert MatchedSomewhere(pool, r, all[k]);
      var i: nat :| i < |pool| && i !in r.unmatchedRows && pool[i] == all[k];
      assert Views(pool)[i].slot in Slots(dets);
    }
  }

  lemma HolderOf(tracks: seq<STrack>, slot: nat, r: LinearAssignment.Result) returns (i: nat)
    requires r.Solved? && Held(Views(tracks), r, slot)
    ensures i < |tracks| && i !in r.unmatchedRows && tracks[i].slot == slot
  {
    i :| i < |Views(tracks)| && i !in r.unmatchedRows && Views(tracks)[i].slot == slot;
  }

  lemma MemberHolds(ts: seq<STrack>, t: STrack)
    requires t in ts
    ensures SlotHeld(ts, t.slot)
  {
  }

  ghost predicate MatchedSomewhere(pool: seq<STrack>, r: LinearAssignment.Result, t: STrack)
    requires r.Solved?
  {
    exists i: nat :: i < |pool| && i !in r.unmatchedRows && pool[i] == t
  }

  /** The same for a round after which the unmatched tracks are marked. */
  lemma LaterRoundSlots(tracks: seq<STrack>, was: seq<View>, dets: seq<View>, r: LinearAssignment.Result,
                        mark: TrackState, activated: seq<STrack>, input: seq<FaceDetection>, frame: int)
    requires |was| == |tracks| && r.Solved? && AssociatedThen(was, Views(tracks), dets, r, input, frame, mark)
    requires Reported(tracks, was, r, activated, true)
    requires forall i :: 0 <= i < |was| ==> was[i].state == Tracked
    ensures SlotsDiffer(activated) && ColumnsFree(activated, dets, r.unmatchedCols)
    ensures SlotsAmong(activated, Slots(dets)) && OthersTaken(activated, dets, r.unmatchedCols)
  {
    hide Refreshed, Slots, Held;
    forall c: nat | c < |dets| && c !in r.unmatchedCols ensures SlotHeld(activated, dets[c].slot) {
      var i := HolderOf(tracks, dets[c].slot, r);
      MemberHolds(activated, tracks[i]);
    }
    forall k | 0 <= k < |activated| ensures MatchedSomewhere(tracks, r, activated[k]) {
      assert activated[k] in activated;
      var i: nat :| i < |tracks| && tracks[i] == activated[k];
      assert i !in r.unmatchedRows;
    }
    forall k, l | 0 <= k < |activated| && 0 <= l < |activated| && activated[k] != activated[l]
      ensures activated[k].slot != activated[l].slot
    {
      assert MatchedSomewhere(tracks, r, activated[k]) && MatchedSomewhere(tracks, r, activated[l]);
      var i: nat :| i < |tracks| && i !in r.unmatchedRows && tracks[i] == activated[k];
      var j: nat :| j < |tracks| && j !in r.unmatchedRows && tracks[j] == activated[l];
      assert Views(tracks)[i].slot != Views(tracks)[j].slot;
    }
    forall k, c | 0 <= k < |activated| && c in r.unmatchedCols && c < |dets| ensures activated[k].slot != dets[c].slot {
      assert MatchedSomewhere(tracks, r, activated[k]);
      var i: nat :| i < |tracks| && i !in r.unmatchedRows && tracks[i] == activated[k];
      assert Views(tracks)[i].slot != dets[c].slot;
    }
    forall k | 0 <= k < |activated| ensures activated[k].slot in Slots(dets) {
      assert MatchedSomewhere(tracks, r, activated[k]);
      var i: nat :| i < |tracks| && i !in r.unmatchedRows && tracks[i] == activated[k];
      assert Views(tracks)[i].slot in Slots(dets);
    }
  }

  /** High and low detections never share a slot, their scores differ. */
  lemma HighLowSlots(high: seq<View>, low: seq<View>, input: seq<FaceDetection>, cfg: Config)
    requires DetectionsOf(high, input, |input|, Above(cfg.trackThreshold))
    requires DetectionsOf(low, input, |input|, Between(cfg.lowThreshold, cfg.trackThreshold))
    ensures Slots(high) !! Slots(low)
  {
  }

  lemma SlotsJoin(a: seq<STrack>, b: seq<STrack>, sa: set<nat>, sb: set<nat>)
    requires SlotsDiffer(a) && SlotsDiffer(b) && SlotsAmong(a, sa) && SlotsAmong(b, sb) && sa !! sb
    ensures SlotsDiffer(a + b)
  {
  }

  /** How a track confirmed before the frame comes out of the first two rounds. */
  ghost predicate ConfirmedOutcome(t: STrack, v: View, activated: seq<STrack>, newlyLost: seq<STrack>,
                                   input: seq<FaceDetection>, frame: int)
    reads t
  {
    (t in activated && t !in newlyLost && Refreshed(v, t.Now(), input, frame))
    || (t !in activated && t in newlyLost && Dropped(v, t.Now()))
  }

  /** How a lost track comes out of the first round: found again by a high-score detection, or not. */
  ghost predicate LostOutcome(t: STrack, v: View, refound: seq<STrack>, high: set<nat>, input: seq<FaceDetection>,
                              frame: int)
    reads t
  {
    if t in refound then Refreshed(v, t.Now(), input, frame) && t.slot in high else Foreseen(v, t.Now())
  }

  /** How a confirmed track comes out of the first round: refreshed, or predicted and left for the second. */
  ghost predicate FirstFate(t: STrack, v: View, activated: seq<STrack>, remaining: seq<STrack>,
                            input: seq<FaceDetection>, frame: int)
    reads t
  {
    if t in activated then Refreshed(v, t.Now(), input, frame) else t in remaining && Foreseen(v, t.Now())
  }

  lemma FirstOutcome(confirmed: seq<STrack>, lost: seq<STrack>, was: seq<View>, dets: seq<View>,
                     r: LinearAssignment.Result, activated: seq<STrack>, refound: seq<STrack>, remaining: seq<STrack>,
                     input: seq<FaceDetection>, frame: int)
    requires var pool := confirmed + lost;
      && Distinct(pool) && |was| == |pool| && r.Solved?
      && AssociatedAfter(was, Views(pool), dets, r, input, frame)
      && Reported(pool, was, r, activated, true) && Reported(pool, was, r, refound, false)
      && (forall i: nat :: i < |pool| ==> (pool[i] in remaining <==> i in r.unmatchedRows && pool[i].state == Tracked))
      && (forall t :: t in remaining ==> t in pool)
    requires forall i :: 0 <= i < |was| ==> was[i].state == if i < |confirmed| then Tracked else Lost
    ensures forall t :: t in activated ==> t in confirmed && t !in remaining
    ensures forall t :: t in refound ==> t in lost && t !in remaining
    ensures forall t :: t in remaining ==> t in confirmed
    ensures forall i :: 0 <= i < |remaining| ==> Views(remaining)[i].state == Tracked
    ensures forall i :: 0 <= i < |confirmed| ==> FirstFate(confirmed[i], was[i], activated, remaining, input, frame)
    ensures forall i :: 0 <= i < |lost| ==>
      LostOutcome(lost[i], was[|confirmed| + i], refound, Slots(dets), input, frame)
  {
    hide Slots, Refreshed;
    var pool := confirmed + lost;
    forall i: nat | i < |pool| ensures i in r.unmatchedRows ==> Views(pool)[i].state == was[i].state {
    }
    forall i: nat | i < |confirmed|
      ensures FirstFate(confirmed[i], was[i], activated, remaining, input, frame)
    {
      assert pool[i] == confirmed[i] && Views(pool)[i] == confirmed[i].Now();
    }
    forall i: nat | i < |lost|
      ensures LostOutcome(lost[i], was[|confirmed| + i], refound, Slots(dets), input, frame)
    {
      var k: nat := |confirmed| + i;
      assert pool[k] == lost[i] && Views(pool)[k] == lost[i].Now();
    }
    forall t | t in remaining ensures t in confirmed && t.state == Tracked {
      var k: nat :| k < |pool| && pool[k] == t;
      assert Views(pool)[k].state == was[k].state;
    }
    forall i | 0 <= i < |remaining| ensures Views(remaining)[i].state == Tracked {
      assert remaining[i] in remaining;
    }
    forall t | t in activated ensures t in confirmed && t !in remaining {
      var k: nat :| k < |pool| && pool[k] == t;
    }
    forall t | t in refound ensures t in lost && t !in remaining {
      var k: nat :| k < |pool| && pool[k] == t;
      assert k >= |confirmed|;
      assert pool[k] == lost[k - |confirmed|];
    }
  }

  lemma SecondOutcome(remaining: seq<STrack>, mid: seq<View>, dets: seq<View>, r: LinearAssignment.Result,
                      activated: seq<STrack>, newlyLost: seq<STrack>, input: seq<FaceDetection>, frame: int)
    requires |mid| == |remaining| && r.Solved?
    requires AssociatedThen(mid, Views(remaining), dets, r, input, frame, Lost)
    requires Reported(remaining, mid, r, activated, true) && LeftOver(remaining, r, newlyLost)
    requires forall i :: 0 <= i < |mid| ==> mid[i].state == Tracked
    ensures forall i :: 0 <= i < |remaining| ==>
      if remaining[i] in activated then remaining[i] !in newlyLost
        && Refreshed(mid[i], remaining[i].Now(), input, frame)
      else remaining[i] in newlyLost && remaining[i].Now() == mid[i].(state := Lost)
  {
    hide Refreshed, Slots;
    forall i: nat | i < |remaining|
      ensures if remaining[i] in activated then remaining[i] !in newlyLost
        && Refreshed(mid[i], remaining[i].Now(), input, frame)
        else remaining[i] in newlyLost && remaining[i].Now() == mid[i].(state := Lost)
    {
      assert Views(remaining)[i] == remaining[i].Now();
    }
  }

  lemma DroppedAfterForeseen(v: View, x: View, w: View)
    requires Foreseen(v, x) && w == x.(state := Lost)
    ensures Dropped(v, w)
  {
    hide KalmanFilter.Sound;
  }

  lemma SublistApart(sub: seq<STrack>, list: seq<STrack>, others: seq<STrack>)
    requires Apart(list, others) && forall t :: t in sub ==> t in list
    ensures Apart(sub, others)
  {
    forall i, j | 0 <= i < |sub| && 0 <= j < |others| ensures sub[i] != others[j] {
      assert sub[i] in sub;
      assert sub[i] in list;
    }
  }

  /** The first round and what it leaves for the second. */
  method RoundOne(confirmed: seq<STrack>, lost: seq<STrack>, high: seq<STrack>, cfg: Config, frame: int,
                  ghost input: seq<FaceDetection>)
    returns (ok: bool, r: LinearAssignment.Result, activated: seq<STrack>, refound: seq<STrack>, remaining: seq<STrack>)
    requires Distinct(confirmed + lost) && Apart(confirmed + lost, high) && IdsIdentify(confirmed, lost)
    requires DetectionsOf(Views(high), input, |input|, Above(cfg.trackThreshold))
    requires forall i :: 0 <= i < |confirmed| ==> confirmed[i].state == Tracked
    requires forall i :: 0 <= i < |lost| ==> lost[i].state == Lost
    modifies confirmed, lost
    ensures r.Solved? && LinearAssignment.Partitions(|confirmed + lost|, |high|, r)
    ensures Views(high) == old(Views(high))
    ensures AllStayTall(old(Views(confirmed + lost))) ==> ok && AllTall(Views(remaining))
    ensures ok ==> OthersTaken(activated + refound, Views(high), r.unmatchedCols)
    ensures ok ==> Distinct(activated) && Distinct(refound) && Distinct(remaining)
    ensures ok ==> forall t :: t in activated ==> t in confirmed && t !in remaining
    ensures ok ==> forall t :: t in refound ==> t in lost && t !in remaining
    ensures ok ==> forall i :: 0 <= i < |remaining| ==>
      remaining[i] in confirmed && Views(remaining)[i].state == Tracked
    ensures ok ==> forall i :: 0 <= i < |confirmed| ==>
      FirstFate(confirmed[i], old(Views(confirmed))[i], activated, remaining, input, frame)
    ensures ok ==> forall i :: 0 <= i < |lost| ==>
      LostOutcome(lost[i], old(Views(lost))[i], refound, Slots(Views(high)), input, frame)
    ensures ok ==> SlotsDiffer(activated + refound) && ColumnsFree(activated + refound, Views(high), r.unmatchedCols)
    ensures ok ==> SlotsAmong(activated + refound, Slots(Views(high)))
  {
    hide KalmanFilter.Sound, Refreshed, Foreseen, Born, AssociatedAfter, DetectionsOf, Slots, Reported,
         STrack.Now, SlotsDiffer, ColumnsFree, SlotsAmong, OthersTaken, AllStayTall, AllTall, Cheapest, ItemsOf,
         LostOutcome, FirstFate;
    var pool;
    remaining := [];
    StatesOf(confirmed, lost);
    ghost var wc, wl := Views(confirmed), Views(lost);
    ViewsJoin(confirmed, lost);
    ghost var mid;
    ok, pool, r, activated, refound, mid := FirstRound(confirmed, lost, high, cfg, frame, input);
    if !ok {
      return;
    }
    UnmatchedInRange(pool, high, r);
    remaining := FollowedRows(pool, r.unmatchedRows);
    OneDone(confirmed, lost, wc, wl, Views(high), r, activated, refound, remaining, input, frame);
  }

  lemma ViewsJoin(a: seq<STrack>, b: seq<STrack>)
    ensures Views(a + b) == Views(a) + Views(b)
  {
  }

  /** What the first round means for each list. */
  lemma OneDone(confirmed: seq<STrack>, lost: seq<STrack>, wc: seq<View>, wl: seq<View>, highs: seq<View>,
                r: LinearAssignment.Result, activated: seq<STrack>, refound: seq<STrack>, remaining: seq<STrack>,
                input: seq<FaceDetection>, frame: int)
    requires |wc| == |confirmed| && |wl| == |lost| && Distinct(confirmed + lost) && r.Solved?
    requires forall i :: 0 <= i < |wc + wl| ==> (wc + wl)[i].state == if i < |confirmed| then Tracked else Lost
    requires AssociatedAfter(wc + wl, Views(confirmed + lost), highs, r, input, frame)
    requires Reported(confirmed + lost, wc + wl, r, activated, true)
      && Reported(confirmed + lost, wc + wl, r, refound, false)
    requires forall t :: t in remaining ==> t in confirmed + lost
    requires forall i: nat :: i < |confirmed + lost| ==>
      ((confirmed + lost)[i] in remaining <==> i in r.unmatchedRows && (confirmed + lost)[i].state == Tracked)
    ensures AllStayTall(wc + wl) ==> AllTall(Views(remaining))
    ensures OthersTaken(activated + refound, highs, r.unmatchedCols)
    ensures forall t :: t in activated ==> t in confirmed && t !in remaining
    ensures forall t :: t in refound ==> t in lost && t !in remaining
    ensures forall i :: 0 <= i < |remaining| ==> remaining[i] in confirmed && Views(remaining)[i].state == Tracked
    ensures forall i :: 0 <= i < |confirmed| ==> FirstFate(confirmed[i], wc[i], activated, remaining, input, frame)
    ensures forall i :: 0 <= i < |lost| ==> LostOutcome(lost[i], wl[i], refound, Slots(highs), input, frame)
    ensures SlotsDiffer(activated + refound) && ColumnsFree(activated + refound, highs, r.unmatchedCols)
    ensures SlotsAmong(activated + refound, Slots(highs))
  {
    hide Refreshed, Foreseen, AssociatedAfter, Slots, Reported, STrack.Now, SlotsDiffer, ColumnsFree, SlotsAmong,
         OthersTaken, AllStayTall, AllTall, LostOutcome, FirstFate;
    var was := wc + wl;
    FirstRoundSlots(confirmed + lost, was, highs, r, activated, refound, input, frame);
    FirstOutcome(confirmed, lost, was, highs, r, activated, refound, remaining, input, frame);
    forall i | 0 <= i < |remaining| ensures remaining[i] in confirmed {
      assert remaining[i] in remaining;
    }
    if AllStayTall(was) {
      RemainingTall(confirmed, lost, was, activated, remaining, input, frame);
    }
    forall i | 0 <= i < |confirmed| ensures FirstFate(confirmed[i], wc[i], activated, remaining, input, frame) {
      assert was[i] == wc[i];
    }
    forall i | 0 <= i < |lost| ensures LostOutcome(lost[i], wl[i], refound, Slots(highs), input, frame) {
      assert was[|confirmed| + i] == wl[i];
    }
  }

  /** The tracks left for the second round are as tall as predicted. */
  lemma RemainingTall(confirmed: seq<STrack>, lost: seq<STrack>, was: seq<View>, activated: seq<STrack>,
                      remaining: seq<STrack>, input: seq<FaceDetection>, frame: int)
    requires |was| == |confirmed + lost| && AllStayTall(was) && forall t :: t in remaining ==> t in confirmed
    requires forall t :: t in activated ==> t !in remaining
    requires forall i :: 0 <= i < |confirmed| ==> FirstFate(confirmed[i], was[i], activated, remaining, input, frame)
    ensures AllTall(Views(remaining))
  {
    hide Tall, StaysTall, Foreseen;
    forall k | 0 <= k < |remaining| ensures Tall(Views(remaining)[k]) {
      assert remaining[k] in remaining;
      var i :| 0 <= i < |confirmed| && confirmed[i] == remaining[k];
      StillTallOne(was[i], confirmed[i].Now());
    }
  }

  lemma StatesOf(confirmed: seq<STrack>, lost: seq<STrack>)
    requires forall i :: 0 <= i < |confirmed| ==> confirmed[i].state == Tracked
    requires forall i :: 0 <= i < |lost| ==> lost[i].state == Lost
    ensures forall i :: 0 <= i < |confirmed + lost| ==>
      Views(confirmed + lost)[i].state == if i < |confirmed| then Tracked else Lost
  {
  }

  /** The second round as seen from its tracks. */
  method RoundTwo(remaining: seq<STrack>, low: seq<STrack>, cfg: Config, frame: int, ghost input: seq<FaceDetection>)
    returns (ok: bool, activated: seq<STrack>, newlyLost: seq<STrack>)
    requires Distinct(remaining) && Apart(remaining, low)
    requires DetectionsOf(Views(low), input, |input|, Between(cfg.lowThreshold, cfg.trackThreshold))
    requires forall i :: 0 <= i < |remaining| ==> Views(remaining)[i].state == Tracked
    modifies remaining
    ensures AllTall(old(Views(remaining))) ==> ok
    ensures ok ==> Distinct(activated) && Distinct(newlyLost)
    ensures ok ==> forall t :: t in activated || t in newlyLost ==> t in remaining
    ensures ok ==> forall i :: 0 <= i < |remaining| ==>
      if remaining[i] in activated
      then remaining[i] !in newlyLost && Refreshed(old(remaining[i].Now()), remaining[i].Now(), input, frame)
      else remaining[i] in newlyLost && remaining[i].Now() == old(remaining[i].Now()).(state := Lost)
    ensures ok ==> SlotsDiffer(activated) && SlotsAmong(activated, Slots(old(Views(low))))
  {
    hide KalmanFilter.Sound, Refreshed, Born, AssociatedThen, DetectionsOf, Slots, STrack.Now, SlotsDiffer, SlotsAmong,
         AllTall, OthersTaken, Cheapest, ItemsOf;
    ghost var mid := Views(remaining);
    var r, found;
    ok, r, activated, found, newlyLost := SecondRound(remaining, low, cfg, frame, input);
    if ok {
      SecondOutcome(remaining, mid, old(Views(low)), r, activated, newlyLost, input, frame);
      LaterRoundSlots(remaining, mid, old(Views(low)), r, Lost, activated, input, frame);
      assert forall i :: 0 <= i < |remaining| ==> mid[i] == old(remaining[i].Now());
    }
  }

  lemma TwoRoundOutcome(t: STrack, v: View, x: View, first: seq<STrack>, second: seq<STrack>, newlyLost: seq<STrack>,
                        input: seq<FaceDetection>, frame: int)
    requires t in first ==> t !in second && t !in newlyLost && Refreshed(v, t.Now(), input, frame)
    requires t !in first ==> Foreseen(v, x)
    requires t !in first && t in second ==> t !in newlyLost && Refreshed(x, t.Now(), input, frame)
    requires t !in first && t !in second ==> t in newlyLost && t.Now() == x.(state := Lost)
    ensures ConfirmedOutcome(t, v, first + second, newlyLost, input, frame)
  {
    hide KalmanFilter.Sound, Refreshed, STrack.Now;
    if t !in first {
      if t in second {
        RefreshedAfterForeseen(v, x, t.Now(), input, frame);
      } else {
        DroppedAfterForeseen(v, x, t.Now());
      }
    }
  }

  /** The first two rounds: what becomes of the confirmed and of the lost tracks. */
  method FollowTracks(confirmed: seq<STrack>, lost: seq<STrack>, high: seq<STrack>, low: seq<STrack>, cfg: Config,
                      frame: int,
                      ghost input: seq<FaceDetection>)
    returns (ok: bool, r: LinearAssignment.Result, activated: seq<STrack>, refound: seq<STrack>, newlyLost: seq<STrack>)
    requires Distinct(confirmed + lost) && Apart(confirmed + lost, high) && Apart(confirmed + lost, low)
    requires IdsIdentify(confirmed, lost)
    requires DetectionsOf(Views(high), input, |input|, Above(cfg.trackThreshold))
    requires DetectionsOf(Views(low), input, |input|, Between(cfg.lowThreshold, cfg.trackThreshold))
    requires forall i :: 0 <= i < |confirmed| ==> confirmed[i].state == Tracked
    requires forall i :: 0 <= i < |lost| ==> lost[i].state == Lost
    modifies confirmed, lost
    ensures r.Solved? && LinearAssignment.Partitions(|confirmed + lost|, |high|, r)
    ensures AllStayTall(old(Views(confirmed + lost))) ==> ok
    ensures ok ==> OthersTaken(activated + refound, Views(high), r.unmatchedCols)
    ensures ok ==> Views(high) == old(Views(high))
    ensures ok ==> Distinct(activated) && Distinct(refound) && Distinct(newlyLost)
    ensures ok ==>
      (forall t :: t in activated || t in newlyLost ==> t in confirmed) && (forall t :: t in refound ==> t in lost)
    ensures ok ==> forall i :: 0 <= i < |confirmed| ==>
      ConfirmedOutcome(confirmed[i], old(confirmed[i].Now()), activated, newlyLost, input, frame)
    ensures ok ==> forall i :: 0 <= i < |lost| ==>
      LostOutcome(lost[i], old(lost[i].Now()), refound, Slots(Views(high)), input, frame)
    ensures ok ==> SlotsDiffer(activated + refound) && ColumnsFree(activated + refound, Views(high), r.unmatchedCols)
  {
    hide KalmanFilter.Sound, Refreshed, Foreseen, Born, DetectionsOf, Slots, STrack.Now, SlotsDiffer, ColumnsFree,
         SlotsAmong, ConfirmedOutcome, LostOutcome, OthersTaken, AllStayTall, AllTall;
    var first, second, remaining;
    newlyLost, activated := [], [];
    ok, r, first, refound, remaining := RoundOne(confirmed, lost, high, cfg, frame, input);
    if !ok {
      return;
    }
    label AfterOne:
    ghost var highs := Views(high);
    SublistApart(remaining, confirmed + lost, low);
    SublistApart(remaining, confirmed + lost, high);
    forall j | 0 <= j < |low| ensures Views(low)[j] == old(Views(low))[j] {
      assert low[j] !in confirmed && low[j] !in lost by {
        NotInEither(confirmed, lost, low, j);
      }
    }
    assert Views(low) == old(Views(low));
    HighLowSlots(highs, Views(low), input, cfg);
    ghost var firsts, highSlots, lowSlots := first + refound, Slots(highs), Slots(Views(low));
    ok, second, newlyLost := RoundTwo(remaining, low, cfg, frame, input);
    if !ok {
      return;
    }
    forall j | 0 <= j < |high| ensures Views(high)[j] == highs[j] {
      assert high[j] !in remaining;
    }
    activated := first + second;
    JoinDistinct(first, second, remaining);
    forall k | 0 <= k < |firsts| ensures firsts[k] !in remaining {
      assert firsts[k] in first || firsts[k] in refound;
    }
    assert SlotsDiffer(firsts) && ColumnsFree(firsts, highs, r.unmatchedCols) && SlotsAmong(firsts, highSlots);
    TwoRoundSlots(first, second, refound, highs, highSlots, lowSlots, r.unmatchedCols);
    StillTaken(first + refound, activated + refound, highs, r.unmatchedCols);
    forall i | 0 <= i < |confirmed|
      ensures ConfirmedOutcome(confirmed[i], old(confirmed[i].Now()), activated, newlyLost, input, frame)
    {
      var t := confirmed[i];
      if t in remaining {
        var k :| 0 <= k < |remaining| && remaining[k] == t;
      }
      TwoRoundOutcome(t, old(t.Now()), old@AfterOne(t.Now()), first, second, newlyLost, input, frame);
    }
  }

  lemma JoinDistinct(a: seq<STrack>, b: seq<STrack>, c: seq<STrack>)
    requires Distinct(a) && Distinct(b) && (forall t :: t in a ==> t !in c) && (forall t :: t in b ==> t in c)
    ensures Distinct(a + b)
  {
    forall i, j | 0 <= i < |a| && 0 <= j < |b| ensures a[i] != b[j] {
      assert a[i] in a && b[j] in b;
    }
  }

  lemma TwoRoundSlots(first: seq<STrack>, second: seq<STrack>, refound: seq<STrack>, highs: seq<View>,
                      highSlots: set<nat>, lowSlots: set<nat>, cols: seq<nat>)
    requires SlotsDiffer(first + refound) && ColumnsFree(first + refound, highs, cols)
      && SlotsAmong(first + refound, highSlots)
    requires SlotsDiffer(second) && SlotsAmong(second, lowSlots) && highSlots !! lowSlots && highSlots == Slots(highs)
    ensures SlotsDiffer(first + second + refound) && ColumnsFree(first + second + refound, highs, cols)
  {
    SlotsJoin(first + refound, second, highSlots, lowSlots);
    var a, b := first + refound + second, first + second + refound;
    SlotsPermute(a, b);
    forall i, c | 0 <= i < |b| && c in cols && c < |highs| ensures b[i].slot != highs[c].slot {
      assert highs[c].slot in highSlots;
      if b[i] in second {
        var k :| 0 <= k < |second| && second[k] == b[i];
      } else {
        assert b[i] in first + refound;
        var k :| 0 <= k < |first + refound| && (first + refound)[k] == b[i];
      }
    }
  }

  lemma StillTaken(a: seq<STrack>, b: seq<STrack>, dets: seq<View>, cols: seq<nat>)
    requires OthersTaken(a, dets, cols) && forall i :: 0 <= i < |a| ==> a[i] in b
    ensures OthersTaken(b, dets, cols)
  {
    forall c: nat | c < |dets| && c !in cols ensures SlotHeld(b, dets[c].slot) {
      assert SlotHeld(a, dets[c].slot);
      var i :| 0 <= i < |a| && a[i].slot == dets[c].slot;
      MemberHolds(b, a[i]);
    }
  }

  lemma SlotsPermute(a: seq<STrack>, b: seq<STrack>)
    requires SlotsDiffer(a) && forall i :: 0 <= i < |b| ==> b[i] in a
    ensures SlotsDiffer(b)
  {
    forall i, j | 0 <= i < |b| && 0 <= j < |b| && b[i] != b[j] ensures b[i].slot != b[j].slot {
      var k :| 0 <= k < |a| && a[k] == b[i];
      var l :| 0 <= l < |a| && a[l] == b[j];
    }
  }

  lemma NotInEither(a: seq<STrack>, b: seq<STrack>, others: seq<STrack>, j: nat)
    requires Apart(a + b, others) && j < |others|
    ensures others[j] !in a && others[j] !in b
  {
    forall i | 0 <= i < |a| ensures a[i] != others[j] {
      assert (a + b)[i] == a[i];
    }
    forall i | 0 <= i < |b| ensures b[i] != others[j] {
      assert (a + b)[|a| + i] == b[i];
    }
  }

  // ---------- the third round and the new tracks

  /** How an unconfirmed track comes out of the third round. */
  ghost predicate UnconfirmedOutcome(t: STrack, v: View, activated: seq<STrack>, removed: seq<STrack>, slots: set<nat>,
                                     input: seq<FaceDetection>, frame: int)
    reads t
  {
    (t in activated && t !in removed && Refreshed(v, t.Now(), input, frame) && t.slot in slots)
    || (t !in activated && t in removed && t.Now() == v.(state := Removed))
  }

  lemma ThirdOutcome(unconfirmed: seq<STrack>, was: seq<View>, dets: seq<View>, r: LinearAssignment.Result,
                     activated: seq<STrack>, removed: seq<STrack>, input: seq<FaceDetection>, frame: int)
    requires |was| == |unconfirmed| && r.Solved?
    requires AssociatedThen(was, Views(unconfirmed), dets, r, input, frame, Removed)
    requires Reported(unconfirmed, was, r, activated, true) && LeftOver(unconfirmed, r, removed)
    requires forall i :: 0 <= i < |was| ==> was[i].state == Tracked
    ensures forall t :: t in activated || t in removed ==> t in unconfirmed
    ensures forall i :: 0 <= i < |unconfirmed| ==>
      UnconfirmedOutcome(unconfirmed[i], was[i], activated, removed, Slots(dets), input, frame)
  {
    hide Refreshed, Slots;
    forall i: nat | i < |unconfirmed|
      ensures UnconfirmedOutcome(unconfirmed[i], was[i], activated, removed, Slots(dets), input, frame)
    {
      assert Views(unconfirmed)[i] == unconfirmed[i].Now();
    }
  }

  /** The slots of the detections in the given columns. */
  ghost function SlotsAt(dets: seq<View>, cols: seq<nat>): set<nat> {
    set c | c in cols && c < |dets| :: dets[c].slot
  }

  /** The leftover detections are distinct detections of the input. */
  lemma LeftDetections(high: seq<STrack>, cols: seq<nat>, left: seq<STrack>, input: seq<FaceDetection>,
                       accepts: real -> bool)
    requires DetectionsOf(Views(high), input, |input|, accepts) && Distinct(high)
    requires LinearAssignment.Ascending(cols) && forall k :: 0 <= k < |cols| ==> cols[k] < |high|
    requires |left| == |cols| && forall k :: 0 <= k < |cols| ==> left[k] == high[cols[k]]
    ensures Distinct(left) && DistinctSlots(Views(left))
    ensures forall c :: 0 <= c < |left| ==> left[c] in high && Born(left[c].Now(), input) && accepts(left[c].score)
    ensures Slots(Views(left)) == SlotsAt(Views(high), cols)
  {
    hide Born;
    forall c | 0 <= c < |left| ensures Born(left[c].Now(), input) && accepts(left[c].score) {
      assert Views(high)[cols[c]] == left[c].Now();
    }
    forall i, j | 0 <= i < j < |left| ensures Views(left)[i].slot != Views(left)[j].slot && left[i] != left[j] {
      assert Views(high)[cols[i]].slot < Views(high)[cols[j]].slot;
    }
    forall x | x in SlotsAt(Views(high), cols) ensures x in Slots(Views(left)) {
      var c :| c in cols && c < |high| && Views(high)[c].slot == x;
      var k :| 0 <= k < |cols| && cols[k] == c;
      assert Views(left)[k].slot == x;
    }
    forall x | x in Slots(Views(left)) ensures x in SlotsAt(Views(high), cols) {
      var k :| 0 <= k < |left| && Views(left)[k].slot == x;
      assert cols[k] in cols;
      assert Views(high)[cols[k]] == left[k].Now();
    }
  }

  /** Third round, then new tracks from what is still left. */
  method RoundThree(unconfirmed: seq<STrack>, left: seq<STrack>, cfg: Config, frame: int, nextId: nat,
                    ghost input: seq<FaceDetection>)
    returns (ok: bool, activated: seq<STrack>, removed: seq<STrack>, started: seq<STrack>, next: nat)
    requires Distinct(unconfirmed) && Distinct(left) && Apart(unconfirmed, left)
    requires DistinctSlots(Views(left)) && forall c :: 0 <= c < |left| ==> Born(left[c].Now(), input)
    requires forall i :: 0 <= i < |unconfirmed| ==> Views(unconfirmed)[i].state == Tracked
    modifies unconfirmed, left
    ensures AllTall(old(Views(unconfirmed))) ==> ok
    ensures ok ==> forall c :: 0 <= c < |left| && old(Views(left))[c].score >= cfg.newTrackThreshold ==>
      SlotHeld(activated + started, old(Views(left))[c].slot)
    ensures ok ==> Distinct(activated) && Distinct(removed) && Distinct(started)
    ensures ok ==> forall t :: t in activated || t in removed ==> t in unconfirmed
    ensures ok ==> forall t :: t in started ==> t in left
    ensures ok ==> forall i :: 0 <= i < |unconfirmed| ==>
      UnconfirmedOutcome(unconfirmed[i], old(unconfirmed[i].Now()), activated, removed, Slots(old(Views(left))), input,
                         frame)
    ensures ok ==> next == nextId + |started|
    ensures ok ==> forall k :: 0 <= k < |started| && started[k] in left ==>
      StartedAs(old(started[k].Now()), started[k].Now(), nextId + k, frame) && started[k].score >= cfg.newTrackThreshold
    ensures ok ==> SlotsDiffer(activated + started) && SlotsAmong(activated + started, Slots(old(Views(left))))
  {
    hide KalmanFilter.Sound, Refreshed, Born, AssociatedThen, Slots, Reported, STrack.Now, SlotsDiffer, ColumnsFree,
         SlotsAmong, LeftOver, UnconfirmedOutcome, OthersTaken, AllTall, Cheapest, ItemsOf, SlotHeld;
    started, next := [], nextId;
    ghost var was, lefts := Views(unconfirmed), Views(left);
    var r;
    ok, r, activated, removed := ThirdRound(unconfirmed, left, cfg, frame, input);
    if !ok {
      return;
    }
    ThirdOutcome(unconfirmed, was, lefts, r, activated, removed, input, frame);
    LaterRoundSlots(unconfirmed, was, lefts, r, Removed, activated, input, frame);
    UnmatchedInRange(unconfirmed, left, r);
    assert forall c :: 0 <= c < |left| ==> Views(left)[c] == lefts[c];
    SlotsAreViewed(left, lefts);
    forall k | 0 <= k < |activated| ensures activated[k] !in left {
      assert activated[k] in activated;
      assert activated[k] in unconfirmed;
    }
    started, next := StartTracks(left, r.unmatchedCols, cfg.newTrackThreshold, frame, nextId);
    assert SlotsDiffer(activated) && ColumnsFree(activated, lefts, r.unmatchedCols)
      && SlotsAmong(activated, Slots(lefts));
    StartedSlots(activated, started, left, lefts, r.unmatchedCols);
    StartedHold(activated, started, left, lefts, r.unmatchedCols, cfg.newTrackThreshold);
  }

  /** Every leftover detection that scores enough for a new track is held. */
  lemma StartedHold(activated: seq<STrack>, started: seq<STrack>, left: seq<STrack>, lefts: seq<View>, cols: seq<nat>,
                    limit: real)
    requires |lefts| == |left| && forall c :: 0 <= c < |left| ==> left[c].slot == lefts[c].slot
    requires OthersTaken(activated, lefts, cols)
    requires forall c: nat :: c < |left| ==> (left[c] in started <==> c in cols && lefts[c].score >= limit)
    ensures forall c :: 0 <= c < |left| && lefts[c].score >= limit ==> SlotHeld(activated + started, lefts[c].slot)
  {
    var all := activated + started;
    forall c: nat | c < |left| && lefts[c].score >= limit ensures SlotHeld(all, lefts[c].slot) {
      if c in cols {
        assert left[c] in all;
        MemberHolds(all, left[c]);
      } else {
        assert SlotHeld(activated, lefts[c].slot);
        var i :| 0 <= i < |activated| && activated[i].slot == lefts[c].slot;
        assert all[i] == activated[i];
      }
    }
  }

  lemma SlotsAreViewed(ts: seq<STrack>, vs: seq<View>)
    requires |vs| == |ts| && forall c :: 0 <= c < |ts| ==> Views(ts)[c] == vs[c]
    ensures forall c :: 0 <= c < |ts| ==> ts[c].slot == vs[c].slot && ts[c].score == vs[c].score
  {
    forall c | 0 <= c < |ts| ensures ts[c].slot == vs[c].slot && ts[c].score == vs[c].score {
      assert Views(ts)[c] == ts[c].Now();
    }
  }

  lemma StartedSlots(activated: seq<STrack>, started: seq<STrack>, left: seq<STrack>, lefts: seq<View>, cols: seq<nat>)
    requires |lefts| == |left| && forall c :: 0 <= c < |left| ==> left[c].slot == lefts[c].slot
    requires forall t :: t in started ==> t in left
    requires forall c: nat :: c < |left| && left[c] in started ==> c in cols
    requires DistinctSlots(lefts)
    requires SlotsDiffer(activated) && ColumnsFree(activated, lefts, cols) && SlotsAmong(activated, Slots(lefts))
    ensures SlotsDiffer(activated + started) && SlotsAmong(activated + started, Slots(lefts))
  {
    var all := activated + started;
    forall k | 0 <= k < |started| ensures started[k].slot in Slots(lefts) && FromColumn(started[k], left, cols) {
      assert started[k] in started;
      var c: nat :| c < |left| && left[c] == started[k];
      assert lefts[c].slot == started[k].slot;
    }
    forall i, j | 0 <= i < |all| && 0 <= j < |all| && all[i] != all[j] ensures all[i].slot != all[j].slot {
      if i < |activated| && j >= |activated| {
        assert FromColumn(started[j - |activated|], left, cols);
      } else if i >= |activated| && j < |activated| {
        assert FromColumn(started[i - |activated|], left, cols);
      } else if i >= |activated| && j >= |activated| {
        assert FromColumn(started[i - |activated|], left, cols) && FromColumn(started[j - |activated|], left, cols);
      }
    }
  }

  ghost predicate FromColumn(t: STrack, left: seq<STrack>, cols: seq<nat>) {
    exists c: nat :: c < |left| && c in cols && left[c] == t
  }
}
