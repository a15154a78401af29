/** What holds of the decision engine in every reachable state: gates, budgets, evidence age and cooldowns. */
module AttendanceSafety {
  import opened Attendance
  import opened AttendancePasses
  import opened Medians

  /** How many of the scores are live votes. */
  function CountLive(scores: seq<real>, threshold: real): nat {
    if scores == [] then 0
    else CountLive(scores[..|scores| - 1], threshold) + if scores[|scores| - 1] >= threshold then 1 else 0
  }

  /** The vote that lets a track into recognition. */
  predicate PadPassed(s: Track, c: Config) {
    s.votes.bonaFide >= c.bonaFideRequired && s.votes.attack < c.attackRequired
  }

  predicate VotesAddUp(s: Track, c: Config) {
    && s.votes.attempts == s.votes.bonaFide + s.votes.attack == |s.scores| <= c.padMaxAttempts
    && s.votes.bonaFide == CountLive(s.scores, c.liveThreshold)
  }

  /** What a phase says about votes and recognition budget. */
  predicate PhaseOk(s: Track, c: Config) {
    match s.phase
    case WaitingQuality => Undecided(s, c)
    case CheckingPad => Undecided(s, c)
    case RejectedAttack =>
      s.votes.attack >= c.attackRequired || (s.votes.bonaFide < c.bonaFideRequired
                                             && s.votes.attempts == c.padMaxAttempts)
    case Recognizing => PadPassed(s, c) && s.attempts < c.recognitionMaxAttempts + s.extra
    case RecognitionDeferred =>
      PadPassed(s, c) && s.extra < c.recognitionExtraAttempts && s.attempts == c.recognitionMaxAttempts + s.extra
    case UnknownIdentity =>
      PadPassed(s, c) && s.extra == c.recognitionExtraAttempts && s.attempts == c.recognitionMaxAttempts + s.extra
    case Recognized => PadPassed(s, c) && Accepted(s.found, c)
    case DuplicateIdentity => PadPassed(s, c) && Accepted(s.found, c)
  }

  /** The phases behind the liveness gate. */
  predicate PastGate(p: Phase) {
    p == Recognizing || p == RecognitionDeferred || p == UnknownIdentity || p == Recognized || p == DuplicateIdentity
  }

  /** No verdict yet: the vote is open and recognition has not started. */
  predicate Undecided(s: Track, c: Config) {
    && s.votes.bonaFide < c.bonaFideRequired && s.votes.attack < c.attackRequired && s.votes.attempts < c.padMaxAttempts
    && s.attempts == 0 && s.extra == 0
  }

  predicate TrackOk(s: Track, c: Config, tick: nat, time: Time) {
    && s.seen <= tick && s.lastPad <= tick && s.lastArc <= tick
    && VotesAddUp(s, c) && PhaseOk(s, c)
    && s.count <= s.attempts <= c.recognitionMaxAttempts + s.extra
    && s.extra <= c.recognitionExtraAttempts
    && (s.votes.attempts > 0 ==> s.evidence <= time)
  }

  lemma FreshIsOk(c: Config, tick: nat, time: Time, seen: nat)
    requires ValidConfig(c) && seen <= tick
    ensures TrackOk(Fresh(seen), c, tick, time)
  {
  }

  lemma ReopenKeepsOk(s: Track, m: Moment, tick: nat, time: Time)
    requires ValidConfig(m.config) && TrackOk(s, m.config, tick, time) && tick < m.tick && time <= m.now
    ensures TrackOk(Reopened(s, m), m.config, m.tick, m.now)
  {
  }

  lemma ExpireKeepsOk(s: Track, m: Moment)
    requires ValidConfig(m.config) && TrackOk(s, m.config, m.tick, m.now)
    ensures TrackOk(Expired(s, m), m.config, m.tick, m.now)
    ensures Expired(s, m).votes.attempts > 0 ==> m.now - Expired(s, m).evidence <= m.config.evidenceTtl
  {
  }

  lemma RetryKeepsOk(s: Track, q: real, m: Moment)
    requires ValidConfig(m.config) && TrackOk(s, m.config, m.tick, m.now)
    ensures TrackOk(Retried(s, q, m), m.config, m.tick, m.now)
    ensures PadDue(Retried(s, q, m), m) && !Settled(s.phase) ==>
      TrackOk(Retried(s, q, m).(phase := CheckingPad), m.config, m.tick, m.now)
  {
  }

  lemma BeginKeepsOk(s: Track, t: TrackInput, m: Moment, tick: nat, time: Time)
    requires ValidConfig(m.config) && TrackOk(s, m.config, tick, time) && tick < m.tick && time <= m.now
    ensures TrackOk(Begin(s, t, m).track, m.config, m.tick, m.now)
    ensures Begin(s, t, m).due ==> Begin(s, t, m).track.phase == CheckingPad
    ensures
      (Begin(s, t, m).due || Begin(s, t, m).track.phase == Recognizing) && Begin(s, t, m).track.votes.attempts > 0 ==>
      m.now - Begin(s, t, m).track.evidence <= m.config.evidenceTtl
  {
    hide TrackOk, Expired;
    ReopenKeepsOk(s, m, tick, time);
    var open := Reopened(s, m);
    ExpireKeepsOk(open, m);
    RetryKeepsOk(Expired(open, m), Quality(t, m), m);
    assert Settled(Expired(open, m).phase) ==> Settled(open.phase) by {
      assert Expired(open, m).phase == WaitingQuality || Expired(open, m) == open by {
        ExpiredPhase(open, m);
      }
    }
  }

  lemma ExpiredPhase(s: Track, m: Moment)
    ensures Expired(s, m).phase == WaitingQuality || Expired(s, m) == s
  {
  }

  lemma CheckKeepsOk(s: Track, r: PadResult, m: Moment)
    requires ValidConfig(m.config) && TrackOk(s, m.config, m.tick, m.now) && s.phase == CheckingPad
    requires s.votes.attempts > 0 ==> m.now - s.evidence <= m.config.evidenceTtl
    ensures TrackOk(Checked(s, r, m), m.config, m.tick, m.now)
    ensures Checked(s, r, m).phase == Recognizing ==> m.now - Checked(s, r, m).evidence <= m.config.evidenceTtl
  {
    hide CountLive;
    if r.Scored? {
      OneMoreScore(s.scores, r.live, m.config.liveThreshold);
    }
  }

  lemma OneMoreScore(scores: seq<real>, live: real, threshold: real)
    ensures CountLive(scores + [live], threshold) == CountLive(scores, threshold) + if live >= threshold then 1 else 0
  {
    assert (scores + [live])[..|scores|] == scores;
  }

  lemma RecognizingHasVotes(s: Track, c: Config, tick: nat, time: Time)
    requires ValidConfig(c) && TrackOk(s, c, tick, time)
    ensures s.phase == Recognizing ==> s.votes.attempts > 0
  {
  }

  /** A track ready for recognition has passed the vote, with evidence that is not too old. */
  lemma ScreenKeepsOk(s: Track, t: TrackInput, m: Moment, tick: nat, time: Time)
    requires ValidConfig(m.config) && TrackOk(s, m.config, tick, time) && tick < m.tick && time <= m.now
    ensures TrackOk(Screened(s, t, m), m.config, m.tick, m.now)
    ensures Screened(s, t, m).phase == Recognizing ==> m.now - Screened(s, t, m).evidence <= m.config.evidenceTtl
  {
    hide Begin, Checked, TrackOk;
    BeginKeepsOk(s, t, m, tick, time);
    RecognizingHasVotes(Begin(s, t, m).track, m.config, m.tick, m.now);
    if Begin(s, t, m).due {
      CheckKeepsOk(Begin(s, t, m).track, m.models.pad(m.frameId, t.observation), m);
    }
  }

  lemma ConcludeKeepsOk(s: Track, t: TrackInput, e: Embedding, m: Moment, known: bool)
    requires TrackOk(s, m.config, m.tick, m.now) && s.phase == Recognizing
    ensures TrackOk(Concluded(Matched(Selected(s, t, m), e, m), known, m), m.config, m.tick, m.now)
  {
  }

  /** One frame keeps a track's invariant. */
  lemma StepKeepsOk(s: Track, t: TrackInput, m: Moment, known: bool, tick: nat, time: Time)
    requires ValidConfig(m.config) && TrackOk(s, m.config, tick, time) && tick < m.tick && time <= m.now
    ensures TrackOk(TrackStep(s, t, m, known), m.config, m.tick, m.now)
  {
    hide Begin, Checked, TrackOk, Concluded, Matched, Selected, Screened;
    ScreenKeepsOk(s, t, m, tick, time);
    if ArcDue(Screened(s, t, m), t, m) {
      ConcludeKeepsOk(Screened(s, t, m), t, m.models.embed(m.frameId, t.observation), m, known);
    }
  }

  // ---------- the engine invariant

  ghost predicate EngineOk(e: Engine) {
    && ValidConfig(e.config)
    && (forall id :: id in e.states ==> TrackOk(e.states[id], e.config, e.tick, e.lastTime))
    && (!e.haveTime ==> e.states == map[])
  }

  lemma StartIsOk(c: Config, models: Evaluators)
    requires ValidConfig(c)
    ensures EngineOk(Started(c, models))
  {
  }

  lemma OlderIsOk(s: Track, c: Config, tick: nat, time: Time, tick': nat, time': Time)
    requires TrackOk(s, c, tick, time) && tick <= tick' && time <= time'
    ensures TrackOk(s, c, tick', time')
  {
  }

  lemma ProcessKeepsOk(e: Engine, f: Frame, now: Time)
    requires EngineOk(e)
    ensures EngineOk(Processed(e, f, now))
  {
    hide Decide, TrackOk, TrackStep;
    if Accepts(e, f, now) {
      var m := MomentOf(e, f, now);
      var swept := Swept(e.states, e.tick + 1, e.config);
      var y := Outcome(e, f, now);
      forall id | id in y.states ensures TrackOk(y.states[id], e.config, e.tick + 1, now) {
        var known := DecideAt(swept, Cooled(e.emitted, now, e.config), f.tracks, m, id);
        if id in swept {
          OlderIsOk(swept[id], e.config, e.tick, e.lastTime, e.tick + 1, now);
        }
        if Find(f.tracks, id).Some? {
          FreshIsOk(e.config, e.tick, now, 0);
          if id in swept {
            OlderIsOk(swept[id], e.config, e.tick, e.lastTime, e.tick, now);
          }
          StepKeepsOk(Lookup(swept, id), Find(f.tracks, id).value, m, known, e.tick, now);
        }
      }
    }
  }

  // ---------- events

  /** Event v comes from a face of ts: its identity was accepted and was not in its cooldown. */
  ghost predicate ComesFrom(y: Tally, ts: seq<TrackInput>, m: Moment, v: Event) {
    && Find(ts, v.track).Some?
    && var s := Matched(Lookup(y.states, v.track), m.models.embed(m.frameId, Find(ts, v.track).value.observation), m);
       && Accepted(s.found, m.config) && v == EventOf(s, v.track, m) && v.identity !in y.emitted
  }

  ghost predicate DifferentIdentities(vs: seq<Event>) {
    forall i, j :: 0 <= i < j < |vs| ==> vs[i].identity != vs[j].identity
  }

  /** How the recognition pass treats cooldowns: it adds the identities of its events, with the current time. */
  ghost predicate CooldownsGrow(y: Tally, z: Tally, m: Moment) {
    && (forall x :: x in y.emitted ==> x in z.emitted && z.emitted[x] == y.emitted[x])
    && (forall x :: x in z.emitted && x !in y.emitted ==> z.emitted[x] == m.now)
    && (forall k :: 0 <= k < |z.events| ==> z.events[k].identity in z.emitted)
  }

  lemma {:induction false} RecognizeEvents(y: Tally, ts: seq<TrackInput>, m: Moment)
    requires y.events == [] && forall id :: Occurs(ts, id) <= 1
    ensures CooldownsGrow(y, RecognizeAll(y, ts, m), m)
    ensures DifferentIdentities(RecognizeAll(y, ts, m).events)
    ensures forall k :: 0 <= k < |RecognizeAll(y, ts, m).events| ==>
      ComesFrom(y, ts, m, RecognizeAll(y, ts, m).events[k])
  {
    if ts != [] {
      var rest, t := ts[..|ts| - 1], ts[|ts| - 1];
      forall id ensures Occurs(rest, id) <= 1 {
        assert Occurs(ts, id) <= 1;
      }
      RecognizeEvents(y, rest, m);
      hide RecognizeOne, CooldownsGrow, DifferentIdentities, ComesFrom;
      var z := RecognizeAll(y, rest, m);
      CooldownsGrowOnce(y, z, t, m);
      LastEventComesFrom(y, ts, m);
      forall k | 0 <= k < |z.events| ensures ComesFrom(y, ts, m, z.events[k]) {
        StillComesFrom(y, ts, m, z.events[k]);
      }
    }
  }

  lemma CooldownsGrowOnce(y: Tally, z: Tally, t: TrackInput, m: Moment)
    requires CooldownsGrow(y, z, m) && DifferentIdentities(z.events)
    ensures CooldownsGrow(y, RecognizeOne(z, t, m), m) && DifferentIdentities(RecognizeOne(z, t, m).events)
    ensures forall k :: 0 <= k < |z.events| ==> RecognizeOne(z, t, m).events[k] == z.events[k]
    ensures |z.events| <= |RecognizeOne(z, t, m).events| <= |z.events| + 1
  {
    hide Matched, Concluded, Accepted, Median;
  }

  /** The event of the last face, if there is one. */
  lemma LastEventComesFrom(y: Tally, ts: seq<TrackInput>, m: Moment)
    requires ts != [] && forall id :: Occurs(ts, id) <= 1
    requires CooldownsGrow(y, RecognizeAll(y, ts[..|ts| - 1], m), m)
    ensures var z, w := RecognizeAll(y, ts[..|ts| - 1], m), RecognizeAll(y, ts, m);
      |w.events| > |z.events| ==> ComesFrom(y, ts, m, w.events[|z.events|])
  {
    hide Matched, Concluded, Accepted, Median;
    var rest, t := ts[..|ts| - 1], ts[|ts| - 1];
    FoundOccurs(rest, t.id);
    assert Occurs(ts, t.id) <= 1;
    var known := RecognizeAt(y, rest, m, t.id);
  }

  lemma StillComesFrom(y: Tally, ts: seq<TrackInput>, m: Moment, v: Event)
    requires ts != [] && (forall id :: Occurs(ts, id) <= 1) && ComesFrom(y, ts[..|ts| - 1], m, v)
    ensures ComesFrom(y, ts, m, v)
  {
    hide Matched, Accepted, EventOf;
    var rest, t := ts[..|ts| - 1], ts[|ts| - 1];
    FoundOccurs(rest, t.id);
    assert Occurs(ts, t.id) <= 1;
  }

  /** The identity a face claims, if its match is accepted. */
  ghost predicate Claims(states: Tracks, t: TrackInput, m: Moment, x: Identity) {
    var s := Matched(Lookup(states, t.id), m.models.embed(m.frameId, t.observation), m);
    Accepted(s.found, m.config) && s.found.identity == x
  }

  ghost predicate Claimed(states: Tracks, ts: seq<TrackInput>, m: Moment, x: Identity) {
    exists k :: 0 <= k < |ts| && Claims(states, ts[k], m, x)
  }

  ghost predicate Announced(vs: seq<Event>, x: Identity) {
    exists k :: 0 <= k < |vs| && vs[k].identity == x
  }

  /** An identity gets an event exactly when some face claims it outside its cooldown. */
  lemma {:induction false} AnnouncedIffClaimed(y: Tally, ts: seq<TrackInput>, m: Moment, x: Identity)
    requires y.events == [] && forall id :: Occurs(ts, id) <= 1
    ensures Announced(RecognizeAll(y, ts, m).events, x) <==> x !in y.emitted && Claimed(y.states, ts, m, x)
    ensures x in RecognizeAll(y, ts, m).emitted <==> x in y.emitted || Claimed(y.states, ts, m, x)
  {
    hide Matched, Concluded, Accepted;
    if ts != [] {
      var rest, t := ts[..|ts| - 1], ts[|ts| - 1];
      forall id ensures Occurs(rest, id) <= 1 {
        assert Occurs(ts, id) <= 1;
      }
      AnnouncedIffClaimed(y, rest, m, x);
      assert Occurs(ts, t.id) <= 1;
      FoundOccurs(rest, t.id);
      var known := RecognizeAt(y, rest, m, t.id);
      var before, after := RecognizeAll(y, rest, m), RecognizeAll(y, ts, m);
      assert Lookup(before.states, t.id) == Lookup(y.states, t.id);
      assert Claimed(y.states, ts, m, x) <==> Claimed(y.states, rest, m, x) || Claims(y.states, t, m, x) by {
        ClaimedGrows(y.states, ts, m, x);
      }
      AnnouncedGrows(before.events, after.events, x);
    }
  }

  lemma ClaimedGrows(states: Tracks, ts: seq<TrackInput>, m: Moment, x: Identity)
    requires ts != []
    ensures Claimed(states, ts, m, x) <==> Claimed(states, ts[..|ts| - 1], m, x) || Claims(states, ts[|ts| - 1], m, x)
  {
    hide Claims;
    var rest := ts[..|ts| - 1];
    if Claimed(states, rest, m, x) {
      var k :| 0 <= k < |rest| && Claims(states, rest[k], m, x);
      assert Claims(states, ts[k], m, x);
    }
    if Claimed(states, ts, m, x) && !Claims(states, ts[|ts| - 1], m, x) {
      var k :| 0 <= k < |ts| && Claims(states, ts[k], m, x);
      assert Claims(states, rest[k], m, x);
    }
  }

  lemma AnnouncedGrows(vs: seq<Event>, ws: seq<Event>, x: Identity)
    requires ws == vs || (|ws| == |vs| + 1 && ws[..|vs|] == vs)
    ensures Announced(ws, x) <==> Announced(vs, x) || (|ws| > |vs| && ws[|vs|].identity == x)
  {
    if Announced(vs, x) {
      var k :| 0 <= k < |vs| && vs[k].identity == x;
      assert ws[k].identity == x;
    }
    if Announced(ws, x) {
      var k :| 0 <= k < |ws| && ws[k].identity == x;
      if k < |vs| {
        assert vs[k].identity == x;
      }
    }
  }

  // ---------- one frame

  /** The tracks whose faces are recognised in a frame, and the states they are recognised from. */
  function Faces(states: Tracks, ts: seq<TrackInput>, m: Moment): Batch {
    var begun := BeginAll(states, ts, m);
    SelectAll(CheckAll(begun.states, begun.picked, m), ts, m)
  }

  lemma FacesAt(states: Tracks, ts: seq<TrackInput>, m: Moment, id: nat)
    requires DistinctIds(ts)
    ensures Occurs(Faces(states, ts, m).picked, id) <= 1
    ensures Find(Faces(states, ts, m).picked, id).Some? ==>
      && Find(ts, id) == Find(Faces(states, ts, m).picked, id)
      && var t := Find(ts, id).value;
         && ArcDue(Screened(Lookup(states, id), t, m), t, m)
         && Lookup(Faces(states, ts, m).states, id) == Selected(Screened(Lookup(states, id), t, m), t, m)
    ensures Find(ts, id).Some? && ArcDue(Screened(Lookup(states, id), Find(ts, id).value, m), Find(ts, id).value, m) ==>
      Find(Faces(states, ts, m).picked, id) == Find(ts, id)
  {
    hide Begin, Checked, Selected, ArcDue;
    DistinctOccursOnce(ts, id);
    BeginAt(states, ts, m, id);
    var begun := BeginAll(states, ts, m);
    CheckAt(begun.states, begun.picked, m, id);
    FoundOccurs(begun.picked, id);
    var checked := CheckAll(begun.states, begun.picked, m);
    SelectAt(checked, ts, m, id);
    FoundOccurs(SelectAll(checked, ts, m).picked, id);
    FoundOccurs(ts, id);
    if Find(ts, id).Some? {
      assert Lookup(checked, id) == Screened(Lookup(states, id), Find(ts, id).value, m);
    }
  }

  /** A face whose match is accepted ends Recognized exactly when it has the event, and Duplicate otherwise. */
  lemma {:induction false} RecognizedIffEvent(y: Tally, ts: seq<TrackInput>, m: Moment, id: nat)
    requires y.events == [] && forall i :: Occurs(ts, i) <= 1
    requires Find(ts, id).Some?
    requires Accepted(Matched(Lookup(y.states, id), m.models.embed(m.frameId, Find(ts, id).value.observation), m).found,
                      m.config)
    ensures id in RecognizeAll(y, ts, m).states
    ensures RecognizeAll(y, ts, m).states[id].phase
         == if HasEvent(RecognizeAll(y, ts, m).events, id) then Recognized else DuplicateIdentity
  {
    hide Matched, Accepted;
    var rest, t := ts[..|ts| - 1], ts[|ts| - 1];
    forall i ensures Occurs(rest, i) <= 1 {
      assert Occurs(ts, i) <= 1;
    }
    var before, after := RecognizeAll(y, rest, m), RecognizeAll(y, ts, m);
    EventGrows(before.events, after.events, id);
    if t.id == id {
      assert Occurs(ts, id) <= 1;
      FoundOccurs(rest, id);
      var known := RecognizeAt(y, rest, m, id);
      assert Lookup(before.states, id) == Lookup(y.states, id);
      EventsComeFromFaces(y, rest, m, id);
    } else {
      RecognizedIffEvent(y, rest, m, id);
    }
  }

  ghost predicate HasEvent(vs: seq<Event>, id: nat) {
    exists k :: 0 <= k < |vs| && vs[k].track == id
  }

  lemma EventGrows(vs: seq<Event>, ws: seq<Event>, id: nat)
    requires ws == vs || (|ws| == |vs| + 1 && ws[..|vs|] == vs)
    ensures HasEvent(ws, id) <==> HasEvent(vs, id) || (|ws| > |vs| && ws[|vs|].track == id)
  {
    if HasEvent(vs, id) {
      var k :| 0 <= k < |vs| && vs[k].track == id;
      assert ws[k].track == id;
    }
    if HasEvent(ws, id) {
      var k :| 0 <= k < |ws| && ws[k].track == id;
      if k < |vs| {
        assert vs[k].track == id;
      }
    }
  }

  lemma EventsComeFromFaces(y: Tally, ts: seq<TrackInput>, m: Moment, id: nat)
    requires y.events == [] && (forall i :: Occurs(ts, i) <= 1) && Find(ts, id).None?
    ensures !HasEvent(RecognizeAll(y, ts, m).events, id)
  {
    RecognizeEvents(y, ts, m);
  }

  /** What an event for a track in state s stands on: the track has passed the liveness vote on evidence that is not too
      old, and the installed gallery found the identity, clearly enough, for the mean of the track's embeddings. */
  predicate Earned(v: Event, s: Track, e: Engine, now: Time) {
    && s.phase == Recognized && s.terminal == now && s.lastArc == e.tick + 1
    && PadPassed(s, e.config) && VotesAddUp(s, e.config) && v.padReal == Median(s.scores)
       && 0 <= now - s.evidence <= e.config.evidenceTtl
    && s.count > 0 && s.found == e.gallery.find(Mean(s.sum, s.count)) && s.found.valid
    && v.identity == s.found.identity && v.similarity == s.found.best && v.margin == s.found.margin
    && v.similarity >= e.config.similarityThreshold && v.margin >= e.config.minMargin
  }

  /** Every event of a frame is earned by the track it names, and its identity was outside its cooldown. */
  lemma EventIsEarned(e: Engine, f: Frame, now: Time, k: nat)
    requires EngineOk(e) && k < |EventsOf(e, f, now)|
    ensures var v := EventsOf(e, f, now)[k];
      && v.track in Processed(e, f, now).states && Earned(v, Processed(e, f, now).states[v.track], e, now)
      && v.identity !in Cooled(e.emitted, now, e.config) && v.frameId == f.frameId
  {
    hide Begin, Checked, Matched, Selected, ArcDue, Concluded, TrackOk, Screened;
    var m := MomentOf(e, f, now);
    var swept, cooled := Swept(e.states, e.tick + 1, e.config), Cooled(e.emitted, now, e.config);
    var v := EventsOf(e, f, now)[k];
    var faces := Faces(swept, f.tracks, m);
    var y := Tally(faces.states, cooled, []);
    forall id ensures Occurs(faces.picked, id) <= 1 {
      FacesAt(swept, f.tracks, m, id);
    }
    RecognizeEvents(y, faces.picked, m);
    assert ComesFrom(y, faces.picked, m, v);
    FacesAt(swept, f.tracks, m, v.track);
    var t := Find(f.tracks, v.track).value;
    RecognizedIffEvent(y, faces.picked, m, v.track);
    assert HasEvent(RecognizeAll(y, faces.picked, m).events, v.track);
    var known := RecognizeAt(y, faces.picked, m, v.track);
    FreshIsOk(e.config, e.tick, now, 0);
    if v.track in swept {
      OlderIsOk(swept[v.track], e.config, e.tick, e.lastTime, e.tick, now);
    }
    ScreenKeepsOk(Lookup(swept, v.track), t, m, e.tick, now);
    EarnedState(Screened(Lookup(swept, v.track), t, m), t, m, known);
  }

  lemma EarnedState(s: Track, t: TrackInput, m: Moment, known: bool)
    requires ValidConfig(m.config) && TrackOk(s, m.config, m.tick, m.now) && ArcDue(s, t, m)
    requires s.phase == Recognizing ==> m.now - s.evidence <= m.config.evidenceTtl
    ensures var r := Matched(Selected(s, t, m), m.models.embed(m.frameId, t.observation), m);
      Accepted(r.found, m.config) ==>
      && var d := Concluded(r, known, m);
         && PadPassed(d, m.config) && VotesAddUp(d, m.config) && d.scores == r.scores && d.found == r.found
         && 0 <= m.now - d.evidence <= m.config.evidenceTtl && d.terminal == m.now && d.lastArc == m.tick
         && d.count > 0 && d.found == m.gallery.find(Mean(d.sum, d.count))
  {
  }

  /** When faces claim an identity in a frame: outside its cooldown exactly one of them gets the event, inside it
      none does. */
  lemma OneEventPerIdentity(e: Engine, f: Frame, now: Time, x: Identity)
    requires Accepts(e, f, now)
    ensures var m := MomentOf(e, f, now);
      var faces := Faces(Swept(e.states, e.tick + 1, e.config), f.tracks, m);
      Announced(EventsOf(e, f, now), x)
      <==> x !in Cooled(e.emitted, now, e.config) && Claimed(faces.states, faces.picked, m, x)
    ensures DifferentIdentities(EventsOf(e, f, now))
  {
    hide Begin, Checked, Matched, Selected, ArcDue, Concluded, Median, ComesFrom, CooldownsGrow, Claimed;
    var m := MomentOf(e, f, now);
    var swept, cooled := Swept(e.states, e.tick + 1, e.config), Cooled(e.emitted, now, e.config);
    var faces := Faces(swept, f.tracks, m);
    var y := Tally(faces.states, cooled, []);
    forall id ensures Occurs(faces.picked, id) <= 1 {
      FacesAt(swept, f.tracks, m, id);
    }
    AnnouncedIffClaimed(y, faces.picked, m, x);
    RecognizeEvents(y, faces.picked, m);
  }
}
