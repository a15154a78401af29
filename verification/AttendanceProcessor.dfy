/** The decision engine as the code runs it: an object with mutable tables, and loops over the tracks of a frame. */
module AttendanceProcessor {
  import opened Attendance
  import opened Medians

  /** Invalid stands for the exceptions thrown on a frame, a configuration or a gallery that is refused. */
  datatype Report = Invalid | Report(snapshots: seq<Snapshot>, events: seq<Event>)

  /** Whether all track ids of a frame differ, found with a growing set. */
  method CheckUnique(ts: seq<TrackInput>) returns (unique: bool)
    ensures unique <==> DistinctIds(ts)
  {
    var seen: set<nat> := {};
    for i := 0 to |ts|
      invariant DistinctIds(ts[..i])
      invariant forall k :: 0 <= k < i ==> ts[k].id in seen
      invariant forall id :: id in seen ==> exists k :: 0 <= k < i && ts[k].id == id
    {
      if ts[i].id in seen {
        return false;
      }
      seen := seen + {ts[i].id};
    }
    assert ts[..|ts|] == ts;
    return true;
  }

  /** Adds an embedding coordinate by coordinate. */
  method Accumulate(sum: Embedding, e: Embedding) returns (r: Embedding)
    ensures r == Plus(sum, e)
  {
    r := sum;
    for j := 0 to DIMENSION
      invariant forall k :: 0 <= k < DIMENSION ==> r[k] == if k < j then sum[k] + e[k] else sum[k]
    {
      r := r[j := r[j] + e[j]];
    }
  }

  class AttendanceProcessor {
    const config: Config
    const models: Evaluators
    var gallery: Gallery
    var states: Tracks
    var emitted: Cooldowns
    var tick: nat
    var lastFrame: nat
    var lastTime: Time
    var haveTime: bool

    ghost function Model(): Engine
      reads this
    {
      Engine(config, models, gallery, states, emitted, tick, lastFrame, lastTime, haveTime)
    }

    constructor (c: Config, e: Evaluators)
      requires ValidConfig(c)
      ensures Model() == Started(c, e)
    {
      config := c;
      models := e;
      gallery := Gallery(0, _ => NO_MATCH);
      states := map[];
      emitted := map[];
      tick, lastFrame, lastTime, haveTime := 0, 0, 0, false;
    }

    /** ok is false when the matcher refuses the templates; nothing changes then. */
    method SetGallery(g: Gallery, ok: bool)
      modifies this
      ensures Model() == if ok then WithGallery(old(Model()), g) else old(Model())
    {
      if ok {
        gallery := g;
        ResetSession();
      }
    }

    method ResetSession()
      modifies this
      ensures Model() == Reset(old(Model()))
    {
      states := map[];
      tick := 0;
      lastFrame := 0;
    }

    /** Erases the tracks that have been missing for too long, one by one. */
    method SweepTracks()
      modifies this`states
      ensures states == Swept(old(states), tick, config)
    {
      ghost var all := states;
      var keys := states.Keys;
      while keys != {}
        invariant keys <= states.Keys
        invariant forall id :: id in keys ==> id in all
        invariant forall id :: id in states ==> id in all && states[id] == all[id]
        invariant forall id :: id in all && id !in keys ==>
          (id in states <==> tick - all[id].seen <= config.maxMissingFrames)
        decreases keys
      {
        var id :| id in keys;
        keys := keys - {id};
        if tick - states[id].seen > config.maxMissingFrames {
          states := states - {id};
        }
      }
    }

    method SweepCooldowns(now: Time)
      modifies this`emitted
      ensures emitted == Cooled(old(emitted), now, config)
    {
      ghost var all := emitted;
      var keys := emitted.Keys;
      while keys != {}
        invariant keys <= emitted.Keys
        invariant forall x :: x in keys ==> x in all
        invariant forall x :: x in emitted ==> x in all && emitted[x] == all[x]
        invariant forall x :: x in all && x !in keys ==> (x in emitted <==> now - all[x] < config.eventCooldown)
        decreases keys
      {
        var x :| x in keys;
        keys := keys - {x};
        if now - emitted[x] >= config.eventCooldown {
          emitted := emitted - {x};
        }
      }
    }

    /** First pass for one track, step by step as in the loop body. */
    method BeginTrack(t: TrackInput, ghost m: Moment, now: Time) returns (due: bool)
      requires m == Moment(config, models, gallery, m.frameId, tick, now)
      modifies this`states
      ensures t.id in states && states == old(states)[t.id := states[t.id]]
      ensures Begin(Lookup(old(states), t.id), t, m) == Begun(states[t.id], due)
    {
      var s := if t.id in states then states[t.id] else Fresh(0);
      s := s.(seen := tick);
      due := false;
      if (s.phase == Recognized || s.phase == DuplicateIdentity) && now - s.terminal >= config.eventCooldown {
        s := Fresh(tick);
      }
      if Settled(s.phase) {
        states := states[t.id := s];
        return;
      }
      if s.votes.attempts > 0 && now - s.evidence > config.evidenceTtl {
        s := Fresh(s.seen);
      }
      var q := if t.hasObservation then models.quality(t.observation) else 0.0;
      if q <= 0.0 || gallery.size == 0 {
        states := states[t.id := s];
        return;
      }
      if s.phase == RecognitionDeferred {
        if s.extra >= config.recognitionExtraAttempts || q < s.bestQuality * config.retryQualityGain {
          states := states[t.id := s];
          return;
        }
        s := s.(extra := s.extra + 1, phase := Recognizing, sum := Zero(), count := 0);
      }
      if s.phase != Recognizing && (s.lastPad == 0 || tick - s.lastPad >= config.padEveryFrames) {
        s := s.(phase := CheckingPad);
        due := true;
      }
      states := states[t.id := s];
    }

    /** Second pass for one answer of the liveness model. */
    method CheckTrack(t: TrackInput, r: PadResult, ghost m: Moment, now: Time)
      requires m == Moment(config, models, gallery, m.frameId, tick, now)
      modifies this`states
      ensures states == old(states)[t.id := Checked(Lookup(old(states), t.id), r, m)]
    {
      var s := if t.id in states then states[t.id] else Fresh(0);
      s := s.(lastPad := tick);
      if r.InputRejected? {
        s := s.(votes := s.votes.(rejected := s.votes.rejected + 1), phase := WaitingQuality);
      } else {
        if s.votes.attempts == 0 {
          s := s.(evidence := now);
        }
        s := s.(votes := Vote(s.votes, r.live >= config.liveThreshold), scores := s.scores + [r.live]);
        if s.votes.attack >= config.attackRequired {
          s := s.(phase := RejectedAttack);
        } else if s.votes.bonaFide >= config.bonaFideRequired {
          s := s.(phase := Recognizing);
        } else if s.votes.attempts >= config.padMaxAttempts {
          s := s.(phase := RejectedAttack);
        }
      }
      states := states[t.id := s];
    }

    /** Third pass for one track. */
    method SelectTrack(t: TrackInput, ghost m: Moment, ghost now: Time) returns (due: bool)
      requires m == Moment(config, models, gallery, m.frameId, tick, now)
      modifies this`states
      ensures due == ArcDue(Lookup(old(states), t.id), t, m)
      ensures states == old(states)[t.id := Selected(Lookup(old(states), t.id), t, m)]
    {
      var s := if t.id in states then states[t.id] else Fresh(0);
      var q := if t.hasObservation then models.quality(t.observation) else 0.0;
      due := s.phase == Recognizing && q > 0.0 && (s.lastArc == 0 || tick - s.lastArc >= config.recognitionEveryFrames);
      if due && s.bestQuality < q {
        s := s.(bestQuality := q);
      }
      states := states[t.id := s];
    }

    /** Last pass for one embedding: average, look up, and decide. */
    method RecognizeTrack(t: TrackInput, e: Embedding, ghost m: Moment, now: Time, frameId: nat, events: seq<Event>)
      returns (more: seq<Event>)
      requires m == Moment(config, models, gallery, frameId, tick, now)
      requires e == models.embed(frameId, t.observation)
      modifies this`states, this`emitted
      ensures Tally(states, emitted, more) == RecognizeOne(Tally(old(states), old(emitted), events), t, m)
    {
      var s := if t.id in states then states[t.id] else Fresh(0);
      more := events;
      var sum := Accumulate(s.sum, e);
      s := s.(lastArc := tick, attempts := s.attempts + 1, count := s.count + 1, sum := sum,
              found := gallery.find(Mean(sum, s.count + 1)));
      assert s == Matched(Lookup(old(states), t.id), e, m);
      if s.found.valid && s.found.best >= config.similarityThreshold && s.found.margin >= config.minMargin {
        s := s.(terminal := now);
        if s.found.identity in emitted {
          s := s.(phase := DuplicateIdentity);
        } else {
          emitted := emitted[s.found.identity := now];
          s := s.(phase := Recognized);
          var padReal := FindMedian(s.scores);
          more := more + [Event(frameId, t.id, s.found.identity, s.found.best, s.found.margin, padReal)];
        }
      } else if s.attempts >= config.recognitionMaxAttempts + s.extra {
        s := s.(phase := if s.extra < config.recognitionExtraAttempts then RecognitionDeferred else UnknownIdentity);
      }
      states := states[t.id := s];
    }

    method BeginPass(ts: seq<TrackInput>, ghost m: Moment, now: Time) returns (picked: seq<TrackInput>)
      requires m == Moment(config, models, gallery, m.frameId, tick, now)
      modifies this`states
      ensures BeginAll(old(states), ts, m) == Batch(states, picked)
    {
      hide Begin;
      picked := [];
      for i := 0 to |ts|
        invariant BeginAll(old(states), ts[..i], m) == Batch(states, picked)
      {
        assert ts[..i + 1][..i] == ts[..i];
        var due := BeginTrack(ts[i], m, now);
        if due {
          picked := picked + [ts[i]];
        }
      }
      assert ts[..|ts|] == ts;
    }

    method CheckPass(ts: seq<TrackInput>, ghost m: Moment, now: Time, frameId: nat)
      requires m == Moment(config, models, gallery, frameId, tick, now)
      modifies this`states
      ensures states == CheckAll(old(states), ts, m)
    {
      hide Checked;
      var results := seq(|ts|, k requires 0 <= k < |ts| => models.pad(frameId, ts[k].observation));
      for i := 0 to |ts|
        invariant states == CheckAll(old(states), ts[..i], m)
      {
        assert ts[..i + 1][..i] == ts[..i];
        CheckTrack(ts[i], results[i], m, now);
      }
      assert ts[..|ts|] == ts;
    }

    method SelectPass(ts: seq<TrackInput>, ghost m: Moment, ghost now: Time) returns (picked: seq<TrackInput>)
      requires m == Moment(config, models, gallery, m.frameId, tick, now)
      modifies this`states
      ensures SelectAll(old(states), ts, m) == Batch(states, picked)
    {
      hide Selected, ArcDue;
      picked := [];
      for i := 0 to |ts|
        invariant SelectAll(old(states), ts[..i], m) == Batch(states, picked)
      {
        assert ts[..i + 1][..i] == ts[..i];
        var due := SelectTrack(ts[i], m, now);
        if due {
          picked := picked + [ts[i]];
        }
      }
      assert ts[..|ts|] == ts;
    }

    method RecognizePass(ts: seq<TrackInput>, ghost m: Moment, now: Time, frameId: nat) returns (events: seq<Event>)
      requires m == Moment(config, models, gallery, frameId, tick, now)
      modifies this`states, this`emitted
      ensures Tally(states, emitted, events) == RecognizeAll(Tally(old(states), old(emitted), []), ts, m)
    {
      hide Matched, Concluded, Accepted;
      var results := seq<Embedding>(|ts|, k requires 0 <= k < |ts| => models.embed(frameId, ts[k].observation));
      events := [];
      for i := 0 to |ts|
        invariant Tally(states, emitted, events) == RecognizeAll(Tally(old(states), old(emitted), []), ts[..i], m)
      {
        assert ts[..i + 1][..i] == ts[..i];
        events := RecognizeTrack(ts[i], results[i], m, now, frameId, events);
      }
      assert ts[..|ts|] == ts;
    }

    /** What is shown of each track of the frame. */
    method Describe(ts: seq<TrackInput>) returns (snapshots: seq<Snapshot>)
      ensures |snapshots| == |ts| && forall k :: 0 <= k < |ts| ==>
        snapshots[k] == SnapshotOf(ts[k], Lookup(states, ts[k].id))
        && Depicts(snapshots[k], ts[k], Lookup(states, ts[k].id))
    {
      hide Median;
      snapshots := [];
      for n := 0 to |ts|
        invariant |snapshots| == n && forall k :: 0 <= k < n ==>
          snapshots[k] == SnapshotOf(ts[k], Lookup(states, ts[k].id))
      {
        var t := ts[n];
        var s := if t.id in states then states[t.id] else Fresh(0);
        var padReal := FindMedian(s.scores);
        var box := t.observation.box;
        snapshots := snapshots + [
          Snapshot(t.id, s.phase, if t.hasObservation then t.observation.score else 0.0, box.2 - box.0, box.3 - box.1,
                   s.votes, padReal, s.attempts, s.found.identity, s.found.best, s.found.margin)];
      }
    }

    /** Processes one frame. The new state and the events are those of the four passes. */
    method Process(f: Frame, now: Time) returns (r: Report)
      modifies this
      ensures Model() == Processed(old(Model()), f, now)
      ensures r.Invalid? <==> !Accepts(old(Model()), f, now)
      ensures r.Report? ==> r.events == EventsOf(old(Model()), f, now)
      ensures r.Report? ==> |r.snapshots| == |f.tracks|
      ensures r.Report? ==> forall k :: 0 <= k < |f.tracks| ==>
        r.snapshots[k] == SnapshotOf(f.tracks[k], Lookup(Model().states, f.tracks[k].id))
        && Depicts(r.snapshots[k], f.tracks[k], Lookup(Model().states, f.tracks[k].id))
    {
      hide BeginAll, CheckAll, SelectAll, RecognizeAll;
      if (haveTime && now < lastTime) || f.frameId <= lastFrame {
        return Invalid;
      }
      var unique := CheckUnique(f.tracks);
      if !unique {
        return Invalid;
      }
      lastTime, haveTime, lastFrame, tick := now, true, f.frameId, tick + 1;
      SweepTracks();
      SweepCooldowns(now);
      ghost var m := MomentOf(old(Model()), f, now);
      var checks := BeginPass(f.tracks, m, now);
      CheckPass(checks, m, now, f.frameId);
      var faces := SelectPass(f.tracks, m, now);
      var events := RecognizePass(faces, m, now, f.frameId);
      var snapshots := Describe(f.tracks);
      r := Report(snapshots, events);
    }
  }
}
