/** The phases of one tracker update, each over lists of shared tracks. */
module TrackPhases {
  import opened Collections
  import opened AssignmentProblem
  import opened Sums
  import LinearAssignment
  import opened Association
  import opened STracks
  import opened TrackLists

  /** Rows and columns are used at most once and are in range. */
  ghost predicate Pairing(ms: seq<Match>, rows: nat, cols: nat) {
    && (forall k :: 0 <= k < |ms| ==> ms[k].row < rows && ms[k].col < cols)
    && (forall i, j :: 0 <= i < j < |ms| ==> ms[i].row != ms[j].row && ms[i].col != ms[j].col)
  }

  /** Nobody is both a track and a detection. */
  ghost predicate Apart(a: seq<STrack>, b: seq<STrack>) {
    forall i, j :: 0 <= i < |a| && 0 <= j < |b| ==> a[i] != b[j]
  }

  /** Updates a followed track, or brings a lost one back. */
  method MatchOne(track: STrack, det: STrack, frame: int) returns (ok: bool, followed: bool)
    requires track != det
    modifies track
    ensures Tall(old(track.Now())) ==> ok
    ensures ok ==> TakesOver(old(track.Now()), track.Now(), det.Now(), frame)
    ensures followed <==> old(track.Now()).state == Tracked
  {
    hide KalmanFilter.Sound, KalmanFilter.Accepts, TakesOver;
    if Tall(track.Now()) {
      KalmanFilter.TallBoxesNeverThrow(track.filter);
    }
    followed := track.state == Tracked;
    if followed {
      ok := track.Update(det, frame);
    } else {
      ok := track.ReActivate(det, frame);
    }
  }

  ghost function Views(ts: seq<STrack>): (vs: seq<View>)
    reads ts
    ensures |vs| == |ts| && forall i :: 0 <= i < |ts| ==> vs[i] == ts[i].Now()
  {
    seq(|ts|, i requires 0 <= i < |ts| reads ts => ts[i].Now())
  }

  ghost predicate AllTall(vs: seq<View>) {
    forall i :: 0 <= i < |vs| ==> Tall(vs[i])
  }

  /** The matched tracks that were followed before (or that were not), in match order. */
  ghost function Chosen(ts: seq<STrack>, was: seq<View>, ms: seq<Match>, followed: bool): seq<STrack>
    requires |was| == |ts| && forall k :: 0 <= k < |ms| ==> ms[k].row < |ts|
  {
    if ms == [] then [] else
    var rest, row := Chosen(ts, was, ms[..|ms| - 1], followed), ms[|ms| - 1].row;
    if (was[row].state == Tracked) == followed then rest + [ts[row]] else rest
  }

  lemma {:induction false} ChosenAre(ts: seq<STrack>, was: seq<View>, ms: seq<Match>, followed: bool, cols: nat)
    requires |was| == |ts| && Distinct(ts) && Pairing(ms, |ts|, cols)
    ensures Distinct(Chosen(ts, was, ms, followed))
    ensures forall i :: 0 <= i < |ts| ==>
      (ts[i] in Chosen(ts, was, ms, followed) <==>
         LinearAssignment.RowMatched(ms, i) && (was[i].state == Tracked) == followed)
    ensures forall t :: t in Chosen(ts, was, ms, followed) ==> t in ts
  {
    if ms != [] {
      var rest, row := ms[..|ms| - 1], ms[|ms| - 1].row;
      ChosenAre(ts, was, rest, followed, cols);
      forall i | 0 <= i < |ts|
        ensures LinearAssignment.RowMatched(ms, i) <==> LinearAssignment.RowMatched(rest, i) || i == row
      {
        assert ms == rest + [ms[|ms| - 1]];
        LinearAssignment.PushMatch(rest, ms[|ms| - 1]);
      }
      assert !LinearAssignment.RowMatched(rest, row);
    }
  }

  /** Every matched track takes over its detection; the others stay as they were. Tracked ones are reported as
      activated, others as found again. */
  method ApplyMatches(tracks: seq<STrack>, dets: seq<STrack>, ms: seq<Match>, frame: int)
    returns (ok: bool, activated: seq<STrack>, refound: seq<STrack>)
    requires Pairing(ms, |tracks|, |dets|) && Distinct(tracks) && Apart(tracks, dets)
    modifies tracks
    ensures AllTall(old(Views(tracks))) ==> ok
    ensures Views(dets) == old(Views(dets))
    ensures ok ==> Applied(old(Views(tracks)), Views(tracks), Views(dets), ms, frame)
    ensures ok ==> activated == Chosen(tracks, old(Views(tracks)), ms, true)
    ensures ok ==> refound == Chosen(tracks, old(Views(tracks)), ms, false)
  {
    hide TakesOver, Tall, STrack.Now, Views;
    activated, refound := [], [];
    ghost var was, seen := Views(tracks), Views(dets);
    for k := 0 to |ms|
      invariant Views(dets) == seen
      invariant Applied(was, Views(tracks), seen, ms[..k], frame)
      invariant activated == Chosen(tracks, was, ms[..k], true)
      invariant refound == Chosen(tracks, was, ms[..k], false)
    {
      ghost var before := Views(tracks);
      var track, det := tracks[ms[k].row], dets[ms[k].col];
      RowIsFree(ms, k);
      assert before[ms[k].row] == was[ms[k].row];
      var followed;
      ok, followed := MatchOne(track, det, frame);
      forall i | 0 <= i < |tracks| && i != ms[k].row ensures Views(tracks)[i] == before[i] {
        assert tracks[i] != track;
      }
      forall j | 0 <= j < |dets| ensures Views(dets)[j] == seen[j] {
      }
      if !ok {
        return;
      }
      AppliedGrows(was, before, Views(tracks), seen, ms, k, frame);
      assert ms[..k + 1][..k] == ms[..k];
      if followed {
        activated := activated + [track];
      } else {
        refound := refound + [track];
      }
    }
    assert ms[..|ms|] == ms;
    ok := true;
  }

  /** Which views change, and how, when the matches ms are applied. */
  ghost predicate Applied(was: seq<View>, now: seq<View>, dets: seq<View>, ms: seq<Match>, frame: int) {
    && |was| == |now|
    && (forall k :: 0 <= k < |ms| ==> ms[k].row < |was| && ms[k].col < |dets|)
    && (forall k :: 0 <= k < |ms| ==> TakesOver(was[ms[k].row], now[ms[k].row], dets[ms[k].col], frame))
    && (forall i :: 0 <= i < |was| && !LinearAssignment.RowMatched(ms, i) ==> now[i] == was[i])
  }

  lemma RowIsFree(ms: seq<Match>, k: nat)
    requires k < |ms| && forall i, j :: 0 <= i < j < |ms| ==> ms[i].row != ms[j].row
    ensures !LinearAssignment.RowMatched(ms[..k], ms[k].row)
  {
  }

  lemma AppliedGrows(was: seq<View>, before: seq<View>, now: seq<View>, dets: seq<View>, ms: seq<Match>, k: nat,
                     frame: int)
    requires k < |ms| && Pairing(ms, |was|, |dets|) && Applied(was, before, dets, ms[..k], frame)
    requires |now| == |was| && forall i :: 0 <= i < |was| && i != ms[k].row ==> now[i] == before[i]
    requires TakesOver(before[ms[k].row], now[ms[k].row], dets[ms[k].col], frame)
    ensures Applied(was, now, dets, ms[..k + 1], frame)
  {
    hide TakesOver;
    RowIsFree(ms, k);
    assert before[ms[k].row] == was[ms[k].row];
    assert ms[..k + 1] == ms[..k] + [ms[k]];
    LinearAssignment.PushMatch(ms[..k], ms[k]);
    var more := ms[..k + 1];
    forall j | 0 <= j < k + 1 ensures TakesOver(was[more[j].row], now[more[j].row], dets[more[j].col], frame) {
      if j < k {
        assert more[j] == ms[..k][j] == ms[j];
      }
    }
  }

  // ---------- detections of the frame

  /** v is the track-to-be of a detection of the input. */
  ghost predicate Born(v: View, input: seq<FaceDetection>) {
    v.slot < |input| && v.observation == input[v.slot] && v.score == v.observation.score && v.hasObservation
    && v.state == New && !v.activated && v.initial == TlbrToTlwh(v.observation)
  }

  ghost predicate DistinctSlots(vs: seq<View>) {
    forall i, j :: 0 <= i < j < |vs| ==> vs[i].slot != vs[j].slot
  }

  /** v became w by taking over some detection of this frame's input. */
  ghost predicate Refreshed(v: View, w: View, input: seq<FaceDetection>, frame: int) {
    && w.id == v.id && w.start == v.start && w.hasState == v.hasState
    && w.state == Tracked && w.activated && w.frame == frame
    && w.slot < |input| && w.observation == input[w.slot] && w.score == w.observation.score && w.hasObservation
    && (KalmanFilter.Sound(v.filter) ==> KalmanFilter.Sound(w.filter))
  }

  /** The slot belongs to a matched detection. */
  ghost predicate SlotTaken(dets: seq<View>, ms: seq<Match>, slot: nat) {
    exists k :: 0 <= k < |ms| && ms[k].col < |dets| && dets[ms[k].col].slot == slot
  }

  /** Matched tracks are refreshed, each by its own detection. */
  lemma AppliedRefreshes(was: seq<View>, now: seq<View>, dets: seq<View>, ms: seq<Match>, frame: int,
                         input: seq<FaceDetection>)
    requires Applied(was, now, dets, ms, frame) && Pairing(ms, |was|, |dets|) && DistinctSlots(dets)
    requires forall c :: 0 <= c < |dets| ==> Born(dets[c], input)
    ensures forall i :: 0 <= i < |was| && LinearAssignment.RowMatched(ms, i) ==>
      Refreshed(was[i], now[i], input, frame) && SlotTaken(dets, ms, now[i].slot)
    ensures forall i, j ::
      0 <= i < j < |was| && LinearAssignment.RowMatched(ms, i) && LinearAssignment.RowMatched(ms, j) ==>
      now[i].slot != now[j].slot
  {
    hide KalmanFilter.Sound;
    forall i | 0 <= i < |was| && LinearAssignment.RowMatched(ms, i)
      ensures Refreshed(was[i], now[i], input, frame) && SlotTaken(dets, ms, now[i].slot)
    {
      var k :| 0 <= k < |ms| && ms[k].row == i;
      assert TakesOver(was[ms[k].row], now[ms[k].row], dets[ms[k].col], frame);
    }
    forall i, j | 0 <= i < j < |was| && LinearAssignment.RowMatched(ms, i) && LinearAssignment.RowMatched(ms, j)
      ensures now[i].slot != now[j].slot
    {
      var k :| 0 <= k < |ms| && ms[k].row == i;
      var l :| 0 <= l < |ms| && ms[l].row == j;
      assert TakesOver(was[ms[k].row], now[ms[k].row], dets[ms[k].col], frame);
      assert TakesOver(was[ms[l].row], now[ms[l].row], dets[ms[l].col], frame);
    }
  }

  // ---------- one association round

  ghost function ItemsOf(vs: seq<View>): (bs: seq<Item>)
    ensures |bs| == |vs| && forall i :: 0 <= i < |vs| ==> bs[i] == ItemOf(vs[i])
  {
    seq(|vs|, i requires 0 <= i < |vs| => ItemOf(vs[i]))
  }

  /** These pairs of boxes are within the limit, no box used twice. */
  ghost predicate BoxPairs(tracks: seq<Item>, dets: seq<Item>, fuseScore: bool, threshold: real, ms: seq<Match>) {
    Pairing(ms, |tracks|, |dets|)
    && forall k :: 0 <= k < |ms| ==> PairCost(tracks[ms[k].row], dets[ms[k].col], fuseScore) <= threshold
  }

  ghost function BoxCosts(tracks: seq<Item>, dets: seq<Item>, fuseScore: bool, ms: seq<Match>): (r: seq<real>)
    requires Pairing(ms, |tracks|, |dets|)
    ensures |r| == |ms|
  {
    seq(|ms|, k requires 0 <= k < |ms| => PairCost(tracks[ms[k].row], dets[ms[k].col], fuseScore))
  }

  /** The costs of the pairs, and for each track left alone a millionth more than the limit. */
  ghost function BoxTotal(tracks: seq<Item>, dets: seq<Item>, fuseScore: bool, threshold: real, ms: seq<Match>): real
    requires Pairing(ms, |tracks|, |dets|)
  {
    Sum(BoxCosts(tracks, dets, fuseScore, ms)) + (threshold + 0.000001) * (|tracks| - |ms|) as real
  }

  /** The association is a cheapest one for the boxes as they are, and leaves no allowed pair unused on both sides. */
  ghost predicate Cheapest(tracks: seq<Item>, dets: seq<Item>, fuseScore: bool, threshold: real,
                           r: LinearAssignment.Result)
    requires r.Solved? && LinearAssignment.Partitions(|tracks|, |dets|, r)
  {
    && BoxPairs(tracks, dets, fuseScore, threshold, r.matches)
    && (forall other :: BoxPairs(tracks, dets, fuseScore, threshold, other) ==>
          BoxTotal(tracks, dets, fuseScore, threshold, r.matches)
          <= BoxTotal(tracks, dets, fuseScore, threshold, other))
    && (forall row, col :: row in r.unmatchedRows && col in r.unmatchedCols ==>
          PairCost(tracks[row], dets[col], fuseScore) > threshold)
  }

  lemma EntryIsPairCost(costs: seq<Cost>, tracks: seq<Item>, dets: seq<Item>, fuseScore: bool, threshold: real,
                        row: nat, col: nat)
    requires CostsAre(costs, tracks, dets, fuseScore) && row < |tracks| && col < |dets|
    ensures LinearAssignment.EntryValue(costs, row * |dets| + col) == PairCost(tracks[row], dets[col], fuseScore)
    ensures LinearAssignment.MayPair(costs, |dets|, threshold, row, col) <==>
      PairCost(tracks[row], dets[col], fuseScore) <= threshold
  {
    hide PairCost;
    assert CostAt(costs, |dets|, row, col) == Finite(PairCost(tracks[row], dets[col], fuseScore));
  }

  lemma BoxPairsIff(costs: seq<Cost>, tracks: seq<Item>, dets: seq<Item>, fuseScore: bool, threshold: real,
                    ms: seq<Match>)
    requires CostsAre(costs, tracks, dets, fuseScore)
    ensures BoxPairs(tracks, dets, fuseScore, threshold, ms) <==>
      LinearAssignment.MayPairAll(costs, |tracks|, |dets|, threshold, ms)
    ensures BoxPairs(tracks, dets, fuseScore, threshold, ms) ==>
      BoxTotal(tracks, dets, fuseScore, threshold, ms)
      == LinearAssignment.TotalCost(costs, |tracks|, |dets|, threshold, ms)
  {
    hide PairCost, CostsAre, LinearAssignment.MayPair, Sum, LinearAssignment.EntryValue;
    forall k | 0 <= k < |ms| && ms[k].row < |tracks| && ms[k].col < |dets|
      ensures LinearAssignment.MayPair(costs, |dets|, threshold, ms[k].row, ms[k].col) <==>
        PairCost(tracks[ms[k].row], dets[ms[k].col], fuseScore) <= threshold
      ensures LinearAssignment.EntryValue(costs, ms[k].row * |dets| + ms[k].col)
        == PairCost(tracks[ms[k].row], dets[ms[k].col], fuseScore)
    {
      EntryIsPairCost(costs, tracks, dets, fuseScore, threshold, ms[k].row, ms[k].col);
    }
    if BoxPairs(tracks, dets, fuseScore, threshold, ms) {
      assert BoxCosts(tracks, dets, fuseScore, ms) == LinearAssignment.PairCosts(costs, |dets|, ms);
    }
  }

  lemma LeastIsCheapest(costs: seq<Cost>, tracks: seq<Item>, dets: seq<Item>, fuseScore: bool, threshold: real,
                        r: LinearAssignment.Result)
    requires CostsAre(costs, tracks, dets, fuseScore)
    requires r.Solved? && LinearAssignment.Partitions(|tracks|, |dets|, r)
    requires LinearAssignment.LeastTotal(costs, |tracks|, |dets|, threshold, r.matches)
    requires LinearAssignment.NoneLeft(costs, |dets|, threshold, r)
    ensures Cheapest(tracks, dets, fuseScore, threshold, r)
  {
    hide PairCost, CostsAre, LinearAssignment.MayPair, BoxPairs, LinearAssignment.MayPairAll, BoxTotal,
         LinearAssignment.TotalCost, LinearAssignment.Ascending, LinearAssignment.RowMatched,
         LinearAssignment.ColMatched;
    BoxPairsIff(costs, tracks, dets, fuseScore, threshold, r.matches);
    forall other | BoxPairs(tracks, dets, fuseScore, threshold, other)
      ensures Pairing(other, |tracks|, |dets|)
        && BoxTotal(tracks, dets, fuseScore, threshold, r.matches)
           <= BoxTotal(tracks, dets, fuseScore, threshold, other)
    {
      PairsArePaired(tracks, dets, fuseScore, threshold, other);
      BoxPairsIff(costs, tracks, dets, fuseScore, threshold, other);
    }
    forall row, col | row in r.unmatchedRows && col in r.unmatchedCols
      ensures PairCost(tracks[row], dets[col], fuseScore) > threshold
    {
      EntryIsPairCost(costs, tracks, dets, fuseScore, threshold, row, col);
    }
  }

  lemma PairsArePaired(tracks: seq<Item>, dets: seq<Item>, fuseScore: bool, threshold: real, ms: seq<Match>)
    requires BoxPairs(tracks, dets, fuseScore, threshold, ms)
    ensures Pairing(ms, |tracks|, |dets|)
  {
  }

  lemma CostsSized(costs: seq<Cost>, tracks: seq<Item>, dets: seq<Item>, fuseScore: bool)
    requires CostsAre(costs, tracks, dets, fuseScore)
    ensures |costs| == |tracks| * |dets|
  {
  }

  method Associate(tracks: seq<STrack>, dets: seq<STrack>, fuseScore: bool, threshold: real)
    returns (r: LinearAssignment.Result)
    ensures r.Solved? && LinearAssignment.Partitions(|tracks|, |dets|, r)
    ensures Cheapest(ItemsOf(Views(tracks)), ItemsOf(Views(dets)), fuseScore, threshold, r)
  {
    hide LinearAssignment.Optimal, LinearAssignment.Maximal, LinearAssignment.LeastTotal, LinearAssignment.NoneLeft,
         CostsAre, Cheapest;
    var ti := ToItems(tracks);
    var di := ToItems(dets);
    var costs := CostMatrix(ti, di, fuseScore);
    r := LinearAssignment.Solve(costs, |tracks|, |dets|, threshold);
    assert ti == ItemsOf(Views(tracks)) && di == ItemsOf(Views(dets));
    CostsSized(costs, ti, di, fuseScore);
    LeastIsCheapest(costs, ti, di, fuseScore, threshold, r);
  }

  ghost function Slots(vs: seq<View>): set<nat> {
    set i | 0 <= i < |vs| :: vs[i].slot
  }

  /** What an association round does to its tracks: unmatched rows stay, matched rows are refreshed by different
      detections, none of them one of the leftover detections. */
  ghost predicate Associated(was: seq<View>, now: seq<View>, dets: seq<View>, r: LinearAssignment.Result,
                             input: seq<FaceDetection>, frame: int)
    requires r.Solved?
  {
    && |was| == |now|
    && (forall i: nat :: i < |was| ==>
          if i in r.unmatchedRows then now[i] == was[i]
          else Refreshed(was[i], now[i], input, frame) && now[i].slot in Slots(dets))
    && (forall i: nat, j: nat :: i < j < |was| && i !in r.unmatchedRows && j !in r.unmatchedRows ==>
        now[i].slot != now[j].slot)
    && (forall i: nat, c :: i < |was| && i !in r.unmatchedRows && c in r.unmatchedCols && c < |dets| ==>
          now[i].slot != dets[c].slot)
    && MatchedHeld(now, dets, r)
  }

  /** A matched track holds the detection with this slot. */
  ghost predicate Held(now: seq<View>, r: LinearAssignment.Result, slot: nat)
    requires r.Solved?
  {
    exists i: nat :: i < |now| && i !in r.unmatchedRows && now[i].slot == slot
  }

  /** Every detection that is not left over is held by a matched track. */
  ghost predicate MatchedHeld(now: seq<View>, dets: seq<View>, r: LinearAssignment.Result)
    requires r.Solved?
  {
    forall c: nat :: c < |dets| && c !in r.unmatchedCols ==> Held(now, r, dets[c].slot)
  }

  lemma AppliedHolds(was: seq<View>, now: seq<View>, dets: seq<View>, r: LinearAssignment.Result, frame: int)
    requires r.Solved? && LinearAssignment.Partitions(|was|, |dets|, r) && Applied(was, now, dets, r.matches, frame)
    ensures MatchedHeld(now, dets, r)
  {
    forall c: nat | c < |dets| && c !in r.unmatchedCols ensures Held(now, r, dets[c].slot) {
      assert LinearAssignment.ColMatched(r.matches, c);
      var k :| 0 <= k < |r.matches| && r.matches[k].col == c;
      assert LinearAssignment.RowMatched(r.matches, r.matches[k].row);
      assert TakesOver(was[r.matches[k].row], now[r.matches[k].row], dets[c], frame);
    }
  }

  lemma AppliedSizes(was: seq<View>, now: seq<View>, dets: seq<View>, ms: seq<Match>, frame: int)
    requires Applied(was, now, dets, ms, frame)
    ensures |was| == |now| && forall i :: 0 <= i < |was| && !LinearAssignment.RowMatched(ms, i) ==> now[i] == was[i]
  {
  }

  lemma AppliedAssociates(was: seq<View>, now: seq<View>, dets: seq<View>, r: LinearAssignment.Result,
                          input: seq<FaceDetection>, frame: int)
    requires r.Solved? && LinearAssignment.Partitions(|was|, |dets|, r)
    requires Applied(was, now, dets, r.matches, frame) && DistinctSlots(dets)
    requires forall c :: 0 <= c < |dets| ==> Born(dets[c], input)
    ensures Associated(was, now, dets, r, input, frame)
  {
    hide Refreshed, TakesOver, Born, Applied, Held;
    AppliedHolds(was, now, dets, r, frame);
    AppliedSizes(was, now, dets, r.matches, frame);
    AppliedRefreshes(was, now, dets, r.matches, frame, input);
    forall i: nat | i < |was| && i !in r.unmatchedRows ensures SlotTaken(dets, r.matches, now[i].slot) {
      assert LinearAssignment.RowMatched(r.matches, i);
    }
    forall i: nat, c | i < |was| && i !in r.unmatchedRows && c in r.unmatchedCols && c < |dets|
      ensures now[i].slot != dets[c].slot
    {
      assert SlotTaken(dets, r.matches, now[i].slot);
      var k :| 0 <= k < |r.matches| && r.matches[k].col < |dets| && dets[r.matches[k].col].slot == now[i].slot;
      assert LinearAssignment.ColMatched(r.matches, r.matches[k].col);
    }
  }

  /** Associates tracks with detections and applies the matches. ok is false when the filter throws. */
  method MatchStage(tracks: seq<STrack>, dets: seq<STrack>, fuseScore: bool, threshold: real, frame: int,
                    ghost input: seq<FaceDetection>)
    returns (ok: bool, r: LinearAssignment.Result, activated: seq<STrack>, refound: seq<STrack>)
    requires Distinct(tracks) && Apart(tracks, dets) && DistinctSlots(Views(dets))
    requires forall c :: 0 <= c < |dets| ==> Born(dets[c].Now(), input)
    modifies tracks
    ensures r.Solved? && LinearAssignment.Partitions(|tracks|, |dets|, r)
    ensures Cheapest(ItemsOf(old(Views(tracks))), ItemsOf(old(Views(dets))), fuseScore, threshold, r)
    ensures AllTall(old(Views(tracks))) ==> ok
    ensures Views(dets) == old(Views(dets))
    ensures ok ==> Associated(old(Views(tracks)), Views(tracks), Views(dets), r, input, frame)
    ensures ok ==> Distinct(activated) && Distinct(refound)
    ensures ok ==> Reported(tracks, old(Views(tracks)), r, activated, true)
    ensures ok ==> Reported(tracks, old(Views(tracks)), r, refound, false)
  {
    hide Cheapest, Born, Associated, Applied, AllTall;
    r := Associate(tracks, dets, fuseScore, threshold);
    ghost var was := Views(tracks);
    ok, activated, refound := ApplyMatches(tracks, dets, r.matches, frame);
    if ok {
      assert forall c :: 0 <= c < |dets| ==> Views(dets)[c] == old(dets[c].Now());
      AppliedAssociates(was, Views(tracks), Views(dets), r, input, frame);
      ChosenAre(tracks, was, r.matches, true, |dets|);
      ChosenAre(tracks, was, r.matches, false, |dets|);
    }
  }

  /** The list holds exactly the matched tracks that were followed before (or were not). */
  ghost predicate Reported(tracks: seq<STrack>, was: seq<View>, r: LinearAssignment.Result, list: seq<STrack>,
                           followed: bool)
    requires |was| == |tracks| && r.Solved?
  {
    && (forall t :: t in list ==> t in tracks)
    && (forall i: nat :: i < |tracks| ==>
          (tracks[i] in list <==> i !in r.unmatchedRows && (was[i].state == Tracked) == followed))
  }

  // ---------- the small loops

  /** The detections among the first n of the input whose score the test accepts, all of them, in input order. */
  ghost predicate DetectionsOf(vs: seq<View>, input: seq<FaceDetection>, n: nat, accepts: real -> bool) {
    && n <= |input|
    && (forall x: nat :: x < n && accepts(input[x].score) ==> x in Slots(vs))
    && (forall i :: 0 <= i < |vs| ==> Born(vs[i], input) && vs[i].slot < n && accepts(vs[i].score))
    && (forall i, j :: 0 <= i < j < |vs| ==> vs[i].slot < vs[j].slot)
  }

  ghost function Above(limit: real): real -> bool {
    (x: real) => x > limit
  }

  ghost function Between(low: real, high: real): real -> bool {
    (x: real) => low < x < high
  }

  /** Which detections of the input are high ones and which low ones. */
  ghost predicate ScoresSplit(high: seq<View>, low: seq<View>, input: seq<FaceDetection>, trackThreshold: real,
                              lowThreshold: real) {
    forall k: nat :: k < |input| ==>
      && (k in Slots(high) <==> input[k].score > trackThreshold)
      && (k in Slots(low) <==> lowThreshold < input[k].score && input[k].score < trackThreshold)
  }

  lemma SplitMeans(high: seq<View>, low: seq<View>, input: seq<FaceDetection>, trackThreshold: real, lowThreshold: real)
    requires DetectionsOf(high, input, |input|, Above(trackThreshold))
    requires DetectionsOf(low, input, |input|, Between(lowThreshold, trackThreshold))
    ensures ScoresSplit(high, low, input, trackThreshold, lowThreshold)
  {
    forall k: nat | k < |input|
      ensures k in Slots(high) <==> input[k].score > trackThreshold
      ensures k in Slots(low) <==> lowThreshold < input[k].score && input[k].score < trackThreshold
    {
      assert Above(trackThreshold)(input[k].score) <==> input[k].score > trackThreshold;
    }
  }

  /** Sorts the detections into high and low scores; a score equal to the threshold is in neither. */
  method SplitInput(input: seq<FaceDetection>, trackThreshold: real, lowThreshold: real)
    returns (high: seq<STrack>, low: seq<STrack>)
    ensures fresh(set t | t in high + low)
    ensures Distinct(high) && Distinct(low) && Apart(high, low)
    ensures DetectionsOf(Views(high), input, |input|, Above(trackThreshold))
    ensures DetectionsOf(Views(low), input, |input|, Between(lowThreshold, trackThreshold))
    ensures ScoresSplit(Views(high), Views(low), input, trackThreshold, lowThreshold)
  {
    hide DetectionsOf, Born, STrack.Now, ScoresSplit;
    high, low := [], [];
    NoDetectionsYet(input, Above(trackThreshold));
    NoDetectionsYet(input, Between(lowThreshold, trackThreshold));
    for k := 0 to |input|
      invariant fresh(set t | t in high + low)
      invariant Distinct(high) && Distinct(low) && Apart(high, low)
      invariant DetectionsOf(Views(high), input, k, Above(trackThreshold))
      invariant DetectionsOf(Views(low), input, k, Between(lowThreshold, trackThreshold))
    {
      var d := input[k];
      DetectionsGrow(Views(high), input, k, Above(trackThreshold));
      DetectionsGrow(Views(low), input, k, Between(lowThreshold, trackThreshold));
      ghost var highs, lows := Views(high), Views(low);
      if d.score > trackThreshold {
        var t := new STrack(d, k);
        assert Views(high) == highs && Views(low) == lows;
        high := high + [t];
        assert Views(high) == highs + [t.Now()];
      } else if d.score > lowThreshold && d.score < trackThreshold {
        var t := new STrack(d, k);
        assert Views(high) == highs && Views(low) == lows;
        low := low + [t];
        assert Views(low) == lows + [t.Now()];
      }
    }
    SplitMeans(Views(high), Views(low), input, trackThreshold, lowThreshold);
  }

  lemma NoDetectionsYet(input: seq<FaceDetection>, accepts: real -> bool)
    ensures DetectionsOf([], input, 0, accepts)
  {
  }

  lemma DetectionsGrow(vs: seq<View>, input: seq<FaceDetection>, k: nat, accepts: real -> bool)
    requires k < |input| && DetectionsOf(vs, input, k, accepts)
    ensures !accepts(input[k].score) ==> DetectionsOf(vs, input, k + 1, accepts)
    ensures accepts(input[k].score) ==> forall filter ::
      DetectionsOf(vs + [View(0, input[k].score, New, false, 0, 0, 0, input[k], true, false, filter,
                              TlbrToTlwh(input[k]), k)],
                   input, k + 1, accepts)
  {
    hide TlbrToTlwh;
    if accepts(input[k].score) {
      forall filter ensures DetectionsOf(
        vs + [View(0, input[k].score, New, false, 0, 0, 0, input[k], true, false, filter, TlbrToTlwh(input[k]), k)],
          input, k + 1, accepts)
      {
        var d := View(0, input[k].score, New, false, 0, 0, 0, input[k], true, false, filter, TlbrToTlwh(input[k]), k);
        assert forall i :: 0 <= i < |vs| ==> (vs + [d])[i] == vs[i];
        assert (vs + [d])[|vs|] == d;
        SlotsGrow(vs, d);
      }
    }
  }

  lemma SlotsGrow(vs: seq<View>, d: View)
    ensures Slots(vs + [d]) == Slots(vs) + {d.slot}
  {
    assert forall i :: 0 <= i < |vs| ==> (vs + [d])[i] == vs[i];
    forall x | x in Slots(vs) ensures x in Slots(vs + [d]) {
      var i :| 0 <= i < |vs| && vs[i].slot == x;
      assert (vs + [d])[i].slot == x;
    }
    assert (vs + [d])[|vs|] == d;
  }

  /** Sorts the followed tracks into confirmed and unconfirmed ones. */
  method SplitTracked(tracked: seq<STrack>) returns (unconfirmed: seq<STrack>, confirmed: seq<STrack>)
    ensures forall t :: t in unconfirmed <==> t in tracked && !t.isActivated
    ensures forall t :: t in confirmed <==> t in tracked && t.isActivated
    ensures Distinct(tracked) ==> Distinct(unconfirmed) && Distinct(confirmed)
  {
    unconfirmed, confirmed := [], [];
    for k := 0 to |tracked|
      invariant forall t :: t in unconfirmed <==> t in tracked[..k] && !t.isActivated
      invariant forall t :: t in confirmed <==> t in tracked[..k] && t.isActivated
      invariant Distinct(tracked) ==> Distinct(unconfirmed) && Distinct(confirmed)
    {
      if !tracked[k].isActivated {
        unconfirmed := unconfirmed + [tracked[k]];
      } else {
        confirmed := confirmed + [tracked[k]];
      }
    }
    assert tracked[..|tracked|] == tracked;
  }

  /** Nothing but the filter has moved, to its prediction. */
  ghost predicate Foreseen(v: View, w: View) {
    && w == v.(filter := w.filter) && (KalmanFilter.Sound(v.filter) ==> KalmanFilter.Sound(w.filter))
    && (if v.hasState then PredictedFrom(v, w.filter) else w.filter == v.filter)
  }

  method PredictAll(pool: seq<STrack>)
    requires Distinct(pool)
    modifies pool`filter
    ensures forall i :: 0 <= i < |pool| ==> Foreseen(old(pool[i].Now()), pool[i].Now())
  {
    hide KalmanFilter.Sound, PredictedFrom;
    for k := 0 to |pool|
      invariant forall i :: 0 <= i < k ==> Foreseen(old(pool[i].Now()), pool[i].Now())
      invariant forall i :: k <= i < |pool| ==> pool[i].Now() == old(pool[i].Now())
    {
      pool[k].Predict();
    }
  }

  /** The rows of the list that are still followed. */
  method FollowedRows(pool: seq<STrack>, rows: seq<nat>) returns (out: seq<STrack>)
    requires Distinct(pool) && LinearAssignment.Ascending(rows) && forall k :: 0 <= k < |rows| ==> rows[k] < |pool|
    ensures Distinct(out) && forall t :: t in out ==> t in pool
    ensures forall i: nat :: i < |pool| ==> (pool[i] in out <==> i in rows && pool[i].state == Tracked)
  {
    out := [];
    for k := 0 to |rows|
      invariant Distinct(out) && forall t :: t in out ==> t in pool
      invariant forall i: nat :: i < |pool| ==> (pool[i] in out <==> i in rows[..k] && pool[i].state == Tracked)
    {
      RowIsLast(rows, k);
      if pool[rows[k]].state == Tracked {
        out := out + [pool[rows[k]]];
      }
    }
    assert rows[..|rows|] == rows;
  }

  lemma RowIsLast(rows: seq<nat>, k: nat)
    requires k < |rows| && LinearAssignment.Ascending(rows)
    ensures rows[k] !in rows[..k] && forall i :: i in rows[..k + 1] <==> i in rows[..k] || i == rows[k]
  {
  }

  method Pick(list: seq<STrack>, cols: seq<nat>) returns (out: seq<STrack>)
    requires forall k :: 0 <= k < |cols| ==> cols[k] < |list|
    ensures |out| == |cols| && forall k :: 0 <= k < |cols| ==> out[k] == list[cols[k]]
  {
    out := [];
    for k := 0 to |cols|
      invariant |out| == k && forall j :: 0 <= j < k ==> out[j] == list[cols[j]]
    {
      out := out + [list[cols[k]]];
    }
  }

  /** Marks the given rows lost, unless they already are. */
  method LoseRows(tracks: seq<STrack>, rows: seq<nat>) returns (lost: seq<STrack>)
    requires Distinct(tracks) && LinearAssignment.Ascending(rows) && forall k :: 0 <= k < |rows| ==> rows[k] < |tracks|
    modifies tracks`state
    ensures forall i: nat :: i < |tracks| ==>
      tracks[i].Now() == if i in rows then old(tracks[i].Now()).(state := Lost) else old(tracks[i].Now())
    ensures Distinct(lost) && forall t :: t in lost ==> t in tracks
    ensures forall i: nat :: i < |tracks| ==> (tracks[i] in lost <==> i in rows && old(tracks[i].state) != Lost)
  {
    lost := [];
    for k := 0 to |rows|
      invariant forall i: nat :: i < |tracks| ==>
        tracks[i].Now() == if i in rows[..k] then old(tracks[i].Now()).(state := Lost) else old(tracks[i].Now())
      invariant Distinct(lost) && forall t :: t in lost ==> t in tracks
      invariant forall i: nat :: i < |tracks| ==>
        (tracks[i] in lost <==> i in rows[..k] && old(tracks[i].state) != Lost)
    {
      RowIsLast(rows, k);
      var track := tracks[rows[k]];
      assert track.Now() == old(track.Now());
      if track.state != Lost {
        track.MarkLost();
        lost := lost + [track];
      }
    }
    assert rows[..|rows|] == rows;
  }

  method RemoveRows(tracks: seq<STrack>, rows: seq<nat>) returns (removed: seq<STrack>)
    requires Distinct(tracks) && LinearAssignment.Ascending(rows) && forall k :: 0 <= k < |rows| ==> rows[k] < |tracks|
    modifies tracks`state
    ensures forall i: nat :: i < |tracks| ==>
      tracks[i].Now() == if i in rows then old(tracks[i].Now()).(state := Removed) else old(tracks[i].Now())
    ensures Distinct(removed) && forall t :: t in removed ==> t in tracks
    ensures forall i: nat :: i < |tracks| ==> (tracks[i] in removed <==> i in rows)
  {
    removed := [];
    for k := 0 to |rows|
      invariant forall i: nat :: i < |tracks| ==>
        tracks[i].Now() == if i in rows[..k] then old(tracks[i].Now()).(state := Removed) else old(tracks[i].Now())
      invariant Distinct(removed) && forall t :: t in removed ==> t in tracks
      invariant forall i: nat :: i < |tracks| ==> (tracks[i] in removed <==> i in rows[..k])
    {
      RowIsLast(rows, k);
      tracks[rows[k]].MarkRemoved();
      removed := removed + [tracks[rows[k]]];
    }
    assert rows[..|rows|] == rows;
  }

  /** Removes the lost tracks that have not been seen for too long. */
  method AgeOut(lost: seq<STrack>, frame: int, maxTimeLost: int) returns (removed: seq<STrack>)
    requires Distinct(lost)
    modifies lost`state
    ensures forall i :: 0 <= i < |lost| ==>
      lost[i].Now() == if frame - old(lost[i].frameId) > maxTimeLost then old(lost[i].Now()).(state := Removed)
        else old(lost[i].Now())
    ensures Distinct(removed) && forall t :: t in removed <==> t in lost && frame - t.frameId > maxTimeLost
  {
    removed := [];
    for k := 0 to |lost|
      invariant forall i :: 0 <= i < k ==>
        lost[i].Now() == if frame - old(lost[i].frameId) > maxTimeLost then old(lost[i].Now()).(state := Removed)
          else old(lost[i].Now())
      invariant forall i :: k <= i < |lost| ==> lost[i].Now() == old(lost[i].Now())
      invariant Distinct(removed) && forall t :: t in removed <==> t in lost[..k] && frame - t.frameId > maxTimeLost
    {
      if frame - lost[k].frameId > maxTimeLost {
        lost[k].MarkRemoved();
        removed := removed + [lost[k]];
      }
    }
    assert lost[..|lost|] == lost;
  }

  /** A new track was started from the detection. */
  ghost predicate StartedAs(v: View, w: View, id: nat, frame: int) {
    w == v.(id := id, state := Tracked, activated := frame == 1, frame := frame, start := frame, length := 0,
            hasState := true, filter := w.filter)
    && KalmanFilter.Sound(w.filter) && KalmanFilter.StartsAt(w.filter, TlwhToXyah(v.initial))
  }

  /** Starts a track for every leftover detection that scores high enough; ids are handed out in order. */
  method StartTracks(dets: seq<STrack>, cols: seq<nat>, limit: real, frame: int, nextId: nat)
    returns (started: seq<STrack>, next: nat)
    requires Distinct(dets) && LinearAssignment.Ascending(cols) && forall k :: 0 <= k < |cols| ==> cols[k] < |dets|
    modifies dets
    ensures next == nextId + |started|
    ensures Distinct(started) && forall t :: t in started ==> t in dets
    ensures forall k :: 0 <= k < |started| && started[k] in dets ==>
      StartedAs(old(started[k].Now()), started[k].Now(), nextId + k, frame) && started[k].score >= limit
    ensures forall k :: 0 <= k < |dets| ==> dets[k].slot == old(dets[k].slot)
    ensures forall c: nat :: c < |dets| ==> (dets[c] in started <==> c in cols && old(dets[c].score) >= limit)
    ensures forall c: nat :: c < |dets| && dets[c] !in started ==> dets[c].Now() == old(dets[c].Now())
  {
    hide KalmanFilter.Sound, KalmanFilter.StartsAt, TlwhToXyah;
    started, next := [], nextId;
    for k := 0 to |cols|
      invariant next == nextId + |started|
      invariant Distinct(started) && forall t :: t in started ==> t in dets
      invariant forall j :: 0 <= j < |started| && started[j] in dets ==>
        StartedAs(old(started[j].Now()), started[j].Now(), nextId + j, frame) && started[j].score >= limit
      invariant forall k :: 0 <= k < |dets| ==> dets[k].slot == old(dets[k].slot)
      invariant forall c: nat :: c < |dets| ==> (dets[c] in started <==> c in cols[..k] && old(dets[c].score) >= limit)
      invariant forall c: nat :: c < |dets| && dets[c] !in started ==> dets[c].Now() == old(dets[c].Now())
    {
      RowIsLast(cols, k);
      var track := dets[cols[k]];
      assert track !in started;
      assert track.Now() == old(track.Now());
      if track.score < limit {
        continue;
      }
      track.Activate(frame, next);
      started := started + [track];
      next := next + 1;
    }
    assert cols[..|cols|] == cols;
  }

  method StillTracked(tracked: seq<STrack>) returns (out: seq<STrack>)
    ensures Distinct(tracked) ==> Distinct(out)
    ensures forall t :: t in out <==> t in tracked && t.state == Tracked
  {
    out := [];
    for k := 0 to |tracked|
      invariant Distinct(tracked) ==> Distinct(out)
      invariant forall t :: t in out <==> t in tracked[..k] && t.state == Tracked
    {
      if tracked[k].state == Tracked {
        out := out + [tracked[k]];
      }
    }
    assert tracked[..|tracked|] == tracked;
  }
}
