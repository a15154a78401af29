/** One track of the tracker: an object whose fields the tracker updates in place. */
module STracks {
  import opened RealArithmetic
  import opened Vectors
  import AxisFilter
  import KalmanFilter
  import opened Association

  /** A detection of this frame: a box with a score, and what rides along with it (the landmarks). */
  datatype FaceDetection = FaceDetection(x1: real, y1: real, x2: real, y2: real, score: real,
                                         landmarks: seq<(real, real)>)

  datatype TrackState = New | Tracked | Lost | Removed

  function TlbrToTlwh(d: FaceDetection): Vec4 {
    [d.x1, d.y1, d.x2 - d.x1, d.y2 - d.y1]
  }

  /** Centre, aspect ratio and height. */
  function TlwhToXyah(b: Vec4): Vec4 {
    var h := Max(0.000001, b[3]);
    [b[0] + b[2] * 0.5, b[1] + b[3] * 0.5, b[2] / h, h]
  }

  /** The box a filter state stands for. */
  function StateToTlwh(mean: KalmanFilter.Vec8): Vec4 {
    var w, h := Times(mean[2], mean[3]), mean[3];
    [mean[0] - w * 0.5, mean[1] - h * 0.5, w, h]
  }

  /** All fields of a track at one moment; slot is the index of its observation among the frame's detections. */
  datatype View = View(
    id: nat, score: real, state: TrackState, activated: bool, frame: int, start: int, length: int,
    observation: FaceDetection, hasObservation: bool, hasState: bool, filter: KalmanFilter.State, initial: Vec4,
    slot: nat)

  /** The box of a track, and the corners that go into the cost matrix. */
  function BoxOf(v: View): Vec4 {
    if v.hasState then StateToTlwh(v.filter.mean) else v.initial
  }

  function ItemOf(v: View): Item {
    var b := BoxOf(v);
    Item(b[0], b[1], b[0] + b[2], b[1] + b[3], v.score)
  }

  /** What the filter is told about a detection. */
  function Measured(v: View): Vec4 {
    TlwhToXyah(BoxOf(v))
  }

  /** f is the prediction from v; a track that is not followed keeps its height while predicting. */
  ghost predicate PredictedFrom(v: View, f: KalmanFilter.State) {
    KalmanFilter.DensePrediction(ForFilter(v), f)
  }

  function ForFilter(v: View): KalmanFilter.State {
    KalmanFilter.State(if v.state != Tracked then v.filter.mean[7 := 0.0] else v.filter.mean, v.filter.covariance)
  }

  /** High enough for the filter never to throw: now, or after the next prediction. */
  ghost predicate Tall(v: View) {
    KalmanFilter.Sound(v.filter) && v.filter.mean[3] >= 0.00002
  }

  ghost predicate StaysTall(v: View) {
    && v.hasState && KalmanFilter.Sound(v.filter)
    && v.filter.mean[3] + (if v.state == Tracked then v.filter.mean[7] else 0.0) >= 0.00002
  }

  /** v became w by matching the detection d in this frame. */
  ghost predicate TakesOver(v: View, w: View, d: View, frame: int) {
    && w.id == v.id && w.start == v.start && w.hasState == v.hasState && w.initial == v.initial
    && w.state == Tracked && w.activated && w.frame == frame
    && w.score == d.score && w.observation == d.observation && w.hasObservation == d.hasObservation && w.slot == d.slot
    && KalmanFilter.Corrects(v.filter, Measured(d), w.filter)
  }

  class STrack {
    const initial: Vec4
    var trackId: nat
    var score: real
    var state: TrackState
    var isActivated: bool
    var frameId: int
    var startFrame: int
    var trackletLen: int
    var observation: FaceDetection
    var hasObservation: bool
    var hasState: bool
    var filter: KalmanFilter.State
    ghost var slot: nat

    ghost function Now(): View
      reads this
    {
      View(trackId, score, state, isActivated, frameId, startFrame, trackletLen, observation, hasObservation, hasState,
           filter, initial, slot)
    }

    constructor (d: FaceDetection, ghost index: nat)
      ensures Now() == View(0, d.score, New, false, 0, 0, 0, d, true, false, filter, TlbrToTlwh(d), index)
    {
      initial := TlbrToTlwh(d);
      trackId, score, state, isActivated := 0, d.score, New, false;
      frameId, startFrame, trackletLen := 0, 0, 0;
      observation, hasObservation, hasState := d, true, false;
      filter := KalmanFilter.State(seq(8, _ => 0.0), seq(64, _ => 0.0));
      slot := index;
    }

    function Tlwh(): Vec4
      reads this
    {
      if hasState then StateToTlwh(filter.mean) else initial
    }

    function Box(): (item: Item)
      reads this
      ensures item == ItemOf(Now())
    {
      var b := Tlwh();
      Item(b[0], b[1], b[0] + b[2], b[1] + b[3], score)
    }

    function Xyah(): (z: Vec4)
      reads this
      ensures z == Measured(Now())
    {
      TlwhToXyah(Tlwh())
    }

    /** Moves the filter one frame on; a track that is not followed keeps its height. */
    method Predict()
      modifies this`filter
      ensures KalmanFilter.Sound(old(filter)) ==> KalmanFilter.Sound(filter)
      ensures if hasState then PredictedFrom(old(Now()), filter) else filter == old(filter)
      ensures hasState && KalmanFilter.Sound(old(filter)) ==> forall i :: 0 <= i < 4 ==>
        KalmanFilter.AxisOf(filter, i) == KalmanFilter.PredictedAxis(ForFilter(old(Now())), i)
    {
      hide KalmanFilter.DensePrediction, KalmanFilter.Sound, KalmanFilter.Splits, KalmanFilter.AxisOf,
           KalmanFilter.PredictedAxis;
      if !hasState {
        return;
      }
      var mean := filter.mean;
      if state != Tracked {
        mean := mean[7 := 0.0];
        MeanIsFree(filter, mean);
      }
      if KalmanFilter.Sound(filter) {
        SoundSplits(KalmanFilter.State(mean, filter.covariance));
      }
      filter := KalmanFilter.Predict(mean, filter.covariance);
    }

    /** Starts a new track. Only tracks of the very first frame count as confirmed at once. */
    method Activate(frame: int, id: nat)
      modifies this
      ensures Now() == old(Now()).(id := id, state := Tracked, activated := frame == 1, frame := frame, start := frame,
                                   length := 0, hasState := true, filter := filter)
      ensures KalmanFilter.Sound(filter) && KalmanFilter.StartsAt(filter, TlwhToXyah(initial))
    {
      hide KalmanFilter.Sound, KalmanFilter.StartsAt, TlwhToXyah;
      trackId := id;
      filter := KalmanFilter.Initiate(TlwhToXyah(initial));
      hasState := true;
      trackletLen := 0;
      state := Tracked;
      isActivated := frame == 1;
      frameId := frame;
      startFrame := frame;
    }

    /** Takes over the detection itself. */
    method Observe(det: STrack)
      requires det != this
      modifies this`score, this`observation, this`hasObservation, this`slot
      ensures Now() == old(Now()).(score := det.score, observation := det.observation,
                                   hasObservation := det.hasObservation, slot := det.slot)
    {
      score, observation, hasObservation, slot := det.score, det.observation, det.hasObservation, det.slot;
    }

    /** ok is false when the filter throws. */
    method ReActivate(det: STrack, frame: int) returns (ok: bool)
      requires det != this
      modifies this
      ensures KalmanFilter.Sound(old(filter)) ==> (ok <==> KalmanFilter.Accepts(old(filter)))
      ensures ok ==> TakesOver(old(Now()), Now(), old(det.Now()), frame) && trackletLen == 0
    {
      hide KalmanFilter.Sound, KalmanFilter.Symmetric, KalmanFilter.Corrects, KalmanFilter.Accepts, TlwhToXyah,
           StateToTlwh, Measured, BoxOf, ItemOf, STrack.Xyah;
      var r := KalmanFilter.Update(filter.mean, filter.covariance, det.Xyah());
      if r.Threw? {
        return false;
      }
      filter := r.state;
      trackletLen := 0;
      state := Tracked;
      isActivated := true;
      frameId := frame;
      Observe(det);
      ok := true;
    }

    /** ok is false when the filter throws. */
    method Update(det: STrack, frame: int) returns (ok: bool)
      requires det != this
      modifies this
      ensures KalmanFilter.Sound(old(filter)) ==> (ok <==> KalmanFilter.Accepts(old(filter)))
      ensures ok ==> TakesOver(old(Now()), Now(), old(det.Now()), frame) && trackletLen == old(trackletLen) + 1
    {
      hide KalmanFilter.Sound, KalmanFilter.Symmetric, KalmanFilter.Corrects, KalmanFilter.Accepts, TlwhToXyah,
           StateToTlwh, Measured, BoxOf, ItemOf, STrack.Xyah;
      var measurement := det.Xyah();
      frameId := frame;
      trackletLen := trackletLen + 1;
      var r := KalmanFilter.Update(filter.mean, filter.covariance, measurement);
      if r.Threw? {
        return false;
      }
      filter := r.state;
      state := Tracked;
      isActivated := true;
      Observe(det);
      ok := true;
    }

    method MarkLost()
      modifies this`state
      ensures state == Lost
    {
      state := Lost;
    }

    method MarkRemoved()
      modifies this`state
      ensures state == Removed
    {
      state := Removed;
    }
  }

  /** Soundness speaks of the covariance only. */
  lemma SoundSplits(s: KalmanFilter.State)
    requires KalmanFilter.Sound(s)
    ensures KalmanFilter.Splits(s)
  {
  }

  lemma MeanIsFree(s: KalmanFilter.State, mean: KalmanFilter.Vec8)
    ensures KalmanFilter.Sound(s) ==> KalmanFilter.Sound(KalmanFilter.State(mean, s.covariance))
  {
    var t := KalmanFilter.State(mean, s.covariance);
    if KalmanFilter.Sound(s) {
      forall r, c | 0 <= r < 8 && 0 <= c < 8
        ensures KalmanFilter.At8(t.covariance, r, c) == KalmanFilter.BlockEntry(t, r, c)
      {
        assert KalmanFilter.At8(s.covariance, r, c) == KalmanFilter.BlockEntry(s, r, c);
      }
      forall i | 0 <= i < 4 ensures AxisFilter.Psd(KalmanFilter.AxisOf(t, i)) {
        assert AxisFilter.Psd(KalmanFilter.AxisOf(s, i));
      }
    }
  }

  /** A track that stays tall is tall once its filter has moved on. */
  lemma TallAfterPrediction(v: View, f: KalmanFilter.State)
    requires StaysTall(v) && PredictedFrom(v, f) && KalmanFilter.Sound(f)
    ensures Tall(v.(filter := f))
  {
    hide KalmanFilter.Sound;
    assert f.mean[3] == KalmanFilter.CarriedMean(ForFilter(v).mean, 3);
  }
  // ---------- what the numbers mean

  /** The box has its centre at the filter's position, the filter's height, and aspect ratio times height for width. */
  ghost predicate StandsFor(box: Item, mean: KalmanFilter.Vec8) {
    && box.x1 + box.x2 == 2.0 * mean[0] && box.y1 + box.y2 == 2.0 * mean[1]
    && box.x2 - box.x1 == mean[2] * mean[3] && box.y2 - box.y1 == mean[3]
  }

  function Corners(d: FaceDetection): Item {
    Item(d.x1, d.y1, d.x2, d.y2, d.score)
  }

  /** The box of a started track is that of its filter, the box of a detection its own. */
  lemma BoxMeans(v: View)
    ensures v.hasState ==> StandsFor(ItemOf(v), v.filter.mean) && ItemOf(v).score == v.score
    ensures !v.hasState && v.initial == TlbrToTlwh(v.observation) && v.score == v.observation.score ==>
      ItemOf(v) == Corners(v.observation)
  {
  }

  /** What the filter is told about a detection: the centre, the aspect ratio and the height of its box. */
  lemma MeasurementMeans(v: View)
    requires !v.hasState && v.initial == TlbrToTlwh(v.observation)
    ensures var d, z := v.observation, Measured(v);
      && 2.0 * z[0] == d.x1 + d.x2 && 2.0 * z[1] == d.y1 + d.y2
      && z[2] * z[3] == d.x2 - d.x1 && z[3] == Max(0.000001, d.y2 - d.y1)
  {
    var h, w := Max(0.000001, v.initial[3]), v.initial[2];
    assert w / h * h == w;
  }

  /** A filter started at a detection that is not flat stands for exactly the detection's box. */
  lemma StartGivesBack(v: View, d: FaceDetection)
    requires v.hasState && KalmanFilter.StartsAt(v.filter, TlwhToXyah(TlbrToTlwh(d))) && d.y2 - d.y1 >= 0.000001
    requires v.score == d.score
    ensures ItemOf(v) == Corners(d)
  {
    var w, h := d.x2 - d.x1, d.y2 - d.y1;
    assert w / h * h == w;
    assert v.filter.mean[2] == w / h && v.filter.mean[3] == h;
    assert Times(v.filter.mean[2], v.filter.mean[3]) == w;
  }
}
