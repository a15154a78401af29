/** Whole runs of the decision engine: cooldown spacing, and isolation of tracks from each other. */
module AttendanceRuns {
  import opened Attendance
  import opened AttendancePasses
  import opened AttendanceSafety

  /** The calls the owner of the engine can make. */
  datatype Call = Process(frame: Frame, now: Time) | ResetSession | InstallGallery(gallery: Gallery)

  function Answer(e: Engine, c: Call): Engine {
    match c
    case Process(f, now) => Processed(e, f, now)
    case ResetSession => Reset(e)
    case InstallGallery(g) => WithGallery(e, g)
  }

  function Run(e: Engine, calls: seq<Call>): Engine {
    if calls == [] then e else Answer(Run(e, calls[..|calls| - 1]), calls[|calls| - 1])
  }

  /** An event and the time of the frame it came from. */
  datatype Stamped = Stamped(event: Event, at: Time)

  function Stamp(vs: seq<Event>, at: Time): (r: seq<Stamped>)
    ensures |r| == |vs|
  {
    seq(|vs|, k requires 0 <= k < |vs| => Stamped(vs[k], at))
  }

  function Emits(e: Engine, c: Call): seq<Stamped> {
    if c.Process? then Stamp(EventsOf(e, c.frame, c.now), c.now) else []
  }

  /** All events of a run, in order. */
  function History(e: Engine, calls: seq<Call>): seq<Stamped> {
    if calls == [] then []
    else History(e, calls[..|calls| - 1]) + Emits(Run(e, calls[..|calls| - 1]), calls[|calls| - 1])
  }

  /** The invariant holds in every reachable state. */
  lemma {:induction false} RunKeepsOk(e: Engine, calls: seq<Call>)
    requires EngineOk(e)
    ensures EngineOk(Run(e, calls)) && Run(e, calls).config == e.config
  {
    if calls != [] {
      var last := calls[|calls| - 1];
      RunKeepsOk(e, calls[..|calls| - 1]);
      if last.Process? {
        ProcessKeepsOk(Run(e, calls[..|calls| - 1]), last.frame, last.now);
      }
    }
  }

  // ---------- cooldown

  /** Every past event is either over its cooldown or still remembered, no older than it was. */
  ghost predicate Remembered(e: Engine, h: seq<Stamped>) {
    forall k :: 0 <= k < |h| ==> RememberedOne(e, h[k])
  }

  ghost predicate RememberedOne(e: Engine, v: Stamped) {
    && e.haveTime && v.at <= e.lastTime
    && (e.lastTime - v.at < e.config.eventCooldown ==>
          v.event.identity in e.emitted && e.emitted[v.event.identity] >= v.at)
  }

  /** Two events of one identity are at least a cooldown apart. */
  ghost predicate Spaced(h: seq<Stamped>, cooldown: Time) {
    forall i, j :: 0 <= i < j < |h| && h[i].event.identity == h[j].event.identity ==> h[j].at - h[i].at >= cooldown
  }

  /** What a frame does to the cooldowns: old ones are kept until they are over, new ones get the current time. */
  lemma FrameCooldowns(e: Engine, f: Frame, now: Time)
    requires Accepts(e, f, now)
    ensures var y := Outcome(e, f, now);
      var cooled := Cooled(e.emitted, now, e.config);
      && (forall x :: x in cooled ==> x in y.emitted && y.emitted[x] == cooled[x])
      && (forall x :: x in y.emitted && x !in cooled ==> y.emitted[x] == now)
      && (forall k :: 0 <= k < |y.events| ==> y.events[k].identity in y.emitted && y.events[k].identity !in cooled)
      && DifferentIdentities(y.events)
  {
    hide Begin, Checked, Matched, Selected, ArcDue, Concluded;
    var m := MomentOf(e, f, now);
    var swept, cooled := Swept(e.states, e.tick + 1, e.config), Cooled(e.emitted, now, e.config);
    var faces := Faces(swept, f.tracks, m);
    forall id ensures Occurs(faces.picked, id) <= 1 {
      FacesAt(swept, f.tracks, m, id);
    }
    RecognizeEvents(Tally(faces.states, cooled, []), faces.picked, m);
    forall k | 0 <= k < |EventsOf(e, f, now)| ensures EventsOf(e, f, now)[k].identity !in cooled {
      assert ComesFrom(Tally(faces.states, cooled, []), faces.picked, m, EventsOf(e, f, now)[k]);
    }
  }

  lemma FrameSpacing(e: Engine, f: Frame, now: Time, h: seq<Stamped>)
    requires ValidConfig(e.config) && Accepts(e, f, now)
    requires Remembered(e, h) && Spaced(h, e.config.eventCooldown)
    ensures Remembered(Processed(e, f, now), h + Stamp(EventsOf(e, f, now), now))
    ensures Spaced(h + Stamp(EventsOf(e, f, now), now), e.config.eventCooldown)
  {
    hide Outcome;
    FrameCooldowns(e, f, now);
    var added := Stamp(EventsOf(e, f, now), now);
    var all := h + added;
    forall k | 0 <= k < |all| ensures RememberedOne(Processed(e, f, now), all[k]) {
      if k < |h| {
        assert RememberedOne(e, h[k]);
      }
    }
    forall i, j | 0 <= i < j < |all| && all[i].event.identity == all[j].event.identity
      ensures all[j].at - all[i].at >= e.config.eventCooldown
    {
      if i < |h| <= j {
        assert RememberedOne(e, h[i]);
      }
    }
  }

  /** Over any run of frames, resets and gallery changes, two events of one identity are a cooldown apart. */
  lemma {:induction false} EventsAreSpaced(e: Engine, calls: seq<Call>)
    requires EngineOk(e)
    ensures Spaced(History(e, calls), e.config.eventCooldown)
    ensures Remembered(Run(e, calls), History(e, calls))
  {
    hide Processed, EngineOk, EventsOf;
    if calls != [] {
      var front, last := calls[..|calls| - 1], calls[|calls| - 1];
      EventsAreSpaced(e, front);
      RunKeepsOk(e, front);
      ConfigIsValid(Run(e, front));
      if last.Process? {
        if Accepts(Run(e, front), last.frame, last.now) {
          FrameSpacing(Run(e, front), last.frame, last.now, History(e, front));
        } else {
          RejectedChangesNothing(Run(e, front), last.frame, last.now);
          assert History(e, calls) == History(e, front);
        }
      } else {
        assert History(e, calls) == History(e, front);
        forall k | 0 <= k < |History(e, front)| ensures RememberedOne(Run(e, calls), History(e, front)[k]) {
          assert RememberedOne(Run(e, front), History(e, front)[k]);
        }
      }
    }
  }

  lemma ConfigIsValid(e: Engine)
    requires EngineOk(e)
    ensures ValidConfig(e.config)
  {
  }

  lemma RejectedChangesNothing(e: Engine, f: Frame, now: Time)
    requires !Accepts(e, f, now)
    ensures Processed(e, f, now) == e && EventsOf(e, f, now) == []
  {
  }

  // ---------- isolation

  /** Recognized and DuplicateIdentity differ only in who got the event. */
  function Blurred(s: Track): Track {
    if s.phase == DuplicateIdentity then s.(phase := Recognized) else s
  }

  predicate AgreeAt(a: Tracks, b: Tracks, id: nat) {
    (id in a <==> id in b) && (id in a ==> Blurred(a[id]) == Blurred(b[id]))
  }

  /** A track's step depends on nothing but the track, its observation and the moment, up to that difference. */
  lemma StepBlurs(s: Track, r: Track, t: TrackInput, m: Moment, known: bool, known': bool)
    requires Blurred(s) == Blurred(r)
    ensures Blurred(TrackStep(s, t, m, known)) == Blurred(TrackStep(r, t, m, known'))
  {
    hide Checked, Matched, Selected, ArcDue, Retried, Expired, PadDue;
    BeginBlurs(s, r, t, m);
    if Begin(s, t, m) == Begin(r, t, m) {
      ConcludeBlurs(Recognised(s, t, m), known, known', m);
    } else {
      SettledIsNotDue(Begin(s, t, m).track, t, m);
      SettledIsNotDue(Begin(r, t, m).track, t, m);
    }
  }

  lemma BeginBlurs(s: Track, r: Track, t: TrackInput, m: Moment)
    requires Blurred(s) == Blurred(r)
    ensures Begin(s, t, m) == Begin(r, t, m)
      || (!Begin(s, t, m).due && !Begin(r, t, m).due && Settled(Begin(s, t, m).track.phase)
          && Settled(Begin(r, t, m).track.phase)
          && Blurred(Begin(s, t, m).track) == Blurred(Begin(r, t, m).track))
  {
    hide Retried, Expired, PadDue;
  }

  lemma ConcludeBlurs(s: Track, known: bool, known': bool, m: Moment)
    ensures Blurred(Concluded(s, known, m)) == Blurred(Concluded(s, known', m))
  {
  }

  lemma SettledIsNotDue(s: Track, t: TrackInput, m: Moment)
    requires Settled(s.phase)
    ensures !ArcDue(s, t, m)
  {
  }

  /** The frame as seen by a session that tracks one face only. */
  function Alone(ts: seq<TrackInput>, id: nat): seq<TrackInput> {
    if ts == [] then [] else Alone(ts[..|ts| - 1], id) + if ts[|ts| - 1].id == id then [ts[|ts| - 1]] else []
  }

  lemma {:induction false} AloneFinds(ts: seq<TrackInput>, id: nat)
    ensures Find(Alone(ts, id), id) == Find(ts, id)
    ensures forall k :: 0 <= k < |Alone(ts, id)| ==> Alone(ts, id)[k].id == id
    ensures |Alone(ts, id)| == Occurs(ts, id)
  {
    if ts != [] {
      AloneFinds(ts[..|ts| - 1], id);
      if ts[|ts| - 1].id == id {
        PickedGrows(Alone(ts[..|ts| - 1], id), ts[|ts| - 1], id);
      }
    }
  }

  /** The call with the other tracks left out; a frame that names a track twice is refused either way and stays as it
      is. */
  function AloneCall(c: Call, id: nat): Call {
    if c.Process? && DistinctIds(c.frame.tracks) then Process(Frame(c.frame.frameId, Alone(c.frame.tracks, id)), c.now)
      else c
  }

  function AloneCalls(calls: seq<Call>, id: nat): (r: seq<Call>)
    ensures |r| == |calls|
  {
    seq(|calls|, k requires 0 <= k < |calls| => AloneCall(calls[k], id))
  }

  /** Same configuration, models, gallery, clocks and counters, and the same view of track id. */
  ghost predicate Aligned(a: Engine, b: Engine, id: nat) {
    && a.config == b.config && a.models == b.models && a.gallery == b.gallery
    && a.tick == b.tick && a.lastFrame == b.lastFrame && a.lastTime == b.lastTime && a.haveTime == b.haveTime
    && AgreeAt(a.states, b.states, id)
  }

  lemma FrameIsolates(a: Engine, b: Engine, f: Frame, now: Time, id: nat)
    requires Aligned(a, b, id) && DistinctIds(f.tracks)
    ensures Aligned(Processed(a, f, now), Processed(b, Frame(f.frameId, Alone(f.tracks, id)), now), id)
  {
    hide Decide, TrackStep, Blurred;
    var g := Frame(f.frameId, Alone(f.tracks, id));
    AloneFinds(f.tracks, id);
    DistinctOccursOnce(f.tracks, id);
    assert DistinctIds(g.tracks);
    if Accepts(a, f, now) {
      var m := MomentOf(a, f, now);
      var sa, sb := Swept(a.states, a.tick + 1, a.config), Swept(b.states, b.tick + 1, b.config);
      SweepAgrees(a.states, b.states, a.tick + 1, a.config, id);
      var ka := DecideAt(sa, Cooled(a.emitted, now, a.config), f.tracks, m, id);
      var kb := DecideAt(sb, Cooled(b.emitted, now, b.config), g.tracks, m, id);
      if Find(f.tracks, id).Some? {
        StepBlurs(Lookup(sa, id), Lookup(sb, id), Find(f.tracks, id).value, m, ka, kb);
      }
    }
  }

  lemma SweepAgrees(a: Tracks, b: Tracks, tick: nat, c: Config, id: nat)
    requires AgreeAt(a, b, id)
    ensures AgreeAt(Swept(a, tick, c), Swept(b, tick, c), id)
    ensures Blurred(Lookup(Swept(a, tick, c), id)) == Blurred(Lookup(Swept(b, tick, c), id))
  {
    if id in a {
      assert a[id].seen == Blurred(a[id]).seen && b[id].seen == Blurred(b[id]).seen;
    }
  }

  /** Two-run theorem: in any run with many tracks, each track fares as in the run where it is alone, up to which
      of several tracks got an identity's event. */
  lemma {:induction false} TracksAreIsolated(a: Engine, b: Engine, calls: seq<Call>, id: nat)
    requires Aligned(a, b, id)
    ensures Aligned(Run(a, calls), Run(b, AloneCalls(calls, id)), id)
  {
    hide Processed, AloneCall;
    if calls != [] {
      var front, last := calls[..|calls| - 1], calls[|calls| - 1];
      TracksAreIsolated(a, b, front, id);
      assert AloneCalls(calls, id)[..|calls| - 1] == AloneCalls(front, id);
      LastCallIsolates(Run(a, front), Run(b, AloneCalls(front, id)), last, id);
    }
  }

  lemma LastCallIsolates(a: Engine, b: Engine, c: Call, id: nat)
    requires Aligned(a, b, id)
    ensures Aligned(Answer(a, c), Answer(b, AloneCall(c, id)), id)
  {
    hide Processed;
    if c.Process? {
      if DistinctIds(c.frame.tracks) {
        FrameIsolates(a, b, c.frame, c.now, id);
      } else {
        RejectedChangesNothing(a, c.frame, c.now);
        RejectedChangesNothing(b, c.frame, c.now);
      }
    }
  }

  // ---------- from the start

  /** Whatever calls follow the start, every track keeps its invariant and no two events of one identity are closer than
      the cooldown. */
  lemma ReachableIsSafe(c: Config, models: Evaluators, calls: seq<Call>)
    requires ValidConfig(c)
    ensures EngineOk(Run(Started(c, models), calls))
    ensures Spaced(History(Started(c, models), calls), c.eventCooldown)
  {
    hide EngineOk, Spaced;
    StartIsOk(c, models);
    RunKeepsOk(Started(c, models), calls);
    EventsAreSpaced(Started(c, models), calls);
  }

  /** What the invariant says of each track: votes and budgets add up, and recognition or a verdict on the identity
      needs enough live and too few attack votes. */
  lemma ReachableTracks(c: Config, models: Evaluators, calls: seq<Call>, id: nat)
    requires ValidConfig(c) && id in Run(Started(c, models), calls).states
    ensures var s := Run(Started(c, models), calls).states[id];
      && VotesAddUp(s, c) && s.attempts <= c.recognitionMaxAttempts + s.extra && s.extra <= c.recognitionExtraAttempts
      && (PastGate(s.phase) ==> PadPassed(s, c))
  {
    StartIsOk(c, models);
    RunKeepsOk(Started(c, models), calls);
    var e := Run(Started(c, models), calls);
    assert TrackOk(e.states[id], e.config, e.tick, e.lastTime);
  }

  /** Every event of a run is earned in its frame. */
  lemma ReachableEventsAreEarned(c: Config, models: Evaluators, calls: seq<Call>, f: Frame, now: Time, k: nat)
    requires ValidConfig(c) && k < |EventsOf(Run(Started(c, models), calls), f, now)|
    ensures var e := Run(Started(c, models), calls);
      var v := EventsOf(e, f, now)[k];
      && v.track in Processed(e, f, now).states
      && Earned(v, Processed(e, f, now).states[v.track], e, now)
      && v.identity !in Cooled(e.emitted, now, c) && v.frameId == f.frameId
  {
    hide EngineOk, Earned, EventsOf;
    StartIsOk(c, models);
    RunKeepsOk(Started(c, models), calls);
    EventIsEarned(Run(Started(c, models), calls), f, now, k);
  }

  /** Two runs from the start: with many tracks or alone, on the same calls. */
  lemma ReachableTracksAreIsolated(c: Config, models: Evaluators, calls: seq<Call>, id: nat)
    ensures var a, b := Run(Started(c, models), calls), Run(Started(c, models), AloneCalls(calls, id));
      AgreeAt(a.states, b.states, id)
  {
    TracksAreIsolated(Started(c, models), Started(c, models), calls, id);
  }
}
