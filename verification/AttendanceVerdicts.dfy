/** One frame of the decision engine as seen from outside: when a track is forgotten, reopened, checked, retried or
    recognised, and when an identity is announced, in terms of the states before and after. */
module AttendanceVerdicts {
  import opened Collections
  import opened Attendance
  import opened AttendancePasses
  import opened AttendanceSafety
  import opened AttendanceRuns
  import opened AttendanceRecords

  /** The track is known and was seen recently enough to be kept. */
  predicate Kept(e: Engine, id: nat) {
    id in e.states && e.tick + 1 - e.states[id].seen <= e.config.maxMissingFrames
  }

  /** A track is remembered exactly when the frame names it or it was seen recently enough; without being named it stays
      as it is. */
  lemma RememberedIff(e: Engine, f: Frame, now: Time, id: nat)
    requires Accepts(e, f, now)
    ensures id in Processed(e, f, now).states <==>
      || (exists k :: 0 <= k < |f.tracks| && f.tracks[k].id == id)
      || (id in e.states && e.tick + 1 - e.states[id].seen <= e.config.maxMissingFrames)
    ensures id in Processed(e, f, now).states && (forall k :: 0 <= k < |f.tracks| ==> f.tracks[k].id != id) ==>
      id in e.states && Processed(e, f, now).states[id] == e.states[id]
  {
    hide Decide, TrackStep;
    var known := DecideAt(Swept(e.states, e.tick + 1, e.config), Cooled(e.emitted, now, e.config), f.tracks,
                          MomentOf(e, f, now), id);
    FoundOccurs(f.tracks, id);
    if Find(f.tracks, id).None? {
      forall k | 0 <= k < |f.tracks| ensures f.tracks[k].id != id {
        if f.tracks[k].id == id {
          MembersOccur(f.tracks, f.tracks[k]);
        }
      }
    }
  }

  /** The frame's step for one track it names. */
  lemma NamedStep(e: Engine, f: Frame, now: Time, t: TrackInput) returns (known: bool)
    requires Accepts(e, f, now) && t in f.tracks
    ensures t.id in Processed(e, f, now).states
    ensures var s := if Kept(e, t.id) then e.states[t.id] else Fresh(0);
      Processed(e, f, now).states[t.id] == TrackStep(s, t, MomentOf(e, f, now), known)
  {
    hide Decide, TrackStep;
    DistinctOccursOnce(f.tracks, t.id);
    MembersAreFound(f.tracks, t);
    known := DecideAt(Swept(e.states, e.tick + 1, e.config), Cooled(e.emitted, now, e.config), f.tracks,
                      MomentOf(e, f, now), t.id);
  }

  // ---------- verdicts

  /** An announced or duplicate identity stands until the cooldown is over, and is reopened then. */
  lemma VerdictStandsIff(e: Engine, f: Frame, now: Time, t: TrackInput)
    requires EngineOk(e) && Accepts(e, f, now) && t in f.tracks && Kept(e, t.id)
    requires e.states[t.id].phase in {Recognized, DuplicateIdentity}
    ensures t.id in Processed(e, f, now).states
    ensures var s, r := e.states[t.id], Processed(e, f, now).states[t.id];
      r == s.(seen := e.tick + 1) <==> now - s.terminal < e.config.eventCooldown
  {
    hide Processed, EngineOk;
    var known := NamedStep(e, f, now, t);
    TicksArePast(e, t.id);
    VerdictStep(e.states[t.id], t, MomentOf(e, f, now), known);
  }

  lemma VerdictStep(s: Track, t: TrackInput, m: Moment, known: bool)
    requires s.phase in {Recognized, DuplicateIdentity} && s.lastArc < m.tick
    ensures TrackStep(s, t, m, known) == s.(seen := m.tick) <==> m.now - s.terminal < m.config.eventCooldown
  {
    hide ArcDue, Concluded, Matched, Selected, Checked, Begin;
    BeginCases(s, t, m);
    if m.now - s.terminal < m.config.eventCooldown {
      SettledStays(s, t, m, known);
    } else {
      AnewIsNotRecognised(s, t, m);
      if ArcDue(Screened(s, t, m), t, m) {
        RecognisedNow(Screened(s, t, m), t, m, known);
      }
    }
  }

  /** A rejection and an unknown identity stand as long as the track is remembered; a settled track does nothing. */
  lemma SettledStays(s: Track, t: TrackInput, m: Moment, known: bool)
    requires s.phase in {RejectedAttack, UnknownIdentity}
      || (s.phase in {Recognized, DuplicateIdentity} && m.now - s.terminal < m.config.eventCooldown)
    ensures TrackStep(s, t, m, known) == s.(seen := m.tick)
  {
  }

  /** A track that starts anew has no identity before its next recognition. */
  lemma AnewIsNotRecognised(s: Track, t: TrackInput, m: Moment)
    requires Anew(s, m)
    ensures Screened(s, t, m).phase !in {Recognized, DuplicateIdentity}
  {
    hide Begin, Anew;
    BeginCases(s, t, m);
  }

  lemma RecognisedNow(s: Track, t: TrackInput, m: Moment, known: bool)
    ensures Concluded(Matched(Selected(s, t, m), m.models.embed(m.frameId, t.observation), m), known, m).lastArc
      == m.tick
  {
    hide Plus, Mean, Accepted;
  }

  lemma RejectionStands(e: Engine, f: Frame, now: Time, t: TrackInput)
    requires Accepts(e, f, now) && t in f.tracks && Kept(e, t.id)
    requires e.states[t.id].phase in {RejectedAttack, UnknownIdentity}
    ensures t.id in Processed(e, f, now).states
    ensures Processed(e, f, now).states[t.id] == e.states[t.id].(seen := e.tick + 1)
  {
    hide Processed;
    var known := NamedStep(e, f, now, t);
    SettledStays(e.states[t.id], t, MomentOf(e, f, now), known);
  }

  /** A deferred track with evidence that is not too old gets a further attempt exactly when it has one left and the
      quality has grown enough; otherwise it stays deferred as it is. */
  lemma DeferredRetriedIff(e: Engine, f: Frame, now: Time, t: TrackInput)
    requires Accepts(e, f, now) && t in f.tracks && Kept(e, t.id)
    requires e.states[t.id].phase == RecognitionDeferred
    requires e.states[t.id].votes.attempts > 0 ==> now - e.states[t.id].evidence <= e.config.evidenceTtl
    ensures t.id in Processed(e, f, now).states
    ensures var s, r, q := e.states[t.id], Processed(e, f, now).states[t.id], QualityOf(e, t);
      if s.extra < e.config.recognitionExtraAttempts && q > 0.0 && e.gallery.size > 0
         && q >= s.bestQuality * e.config.retryQualityGain
      then r.extra == s.extra + 1 else r == s.(seen := e.tick + 1)
  {
    hide Processed;
    var known := NamedStep(e, f, now, t);
    DeferredStep(e.states[t.id], t, MomentOf(e, f, now), known);
  }

  lemma DeferredStep(s: Track, t: TrackInput, m: Moment, known: bool)
    requires s.phase == RecognitionDeferred
    requires s.votes.attempts > 0 ==> m.now - s.evidence <= m.config.evidenceTtl
    ensures if Again(s, Quality(t, m), m) then TrackStep(s, t, m, known).extra == s.extra + 1
            else TrackStep(s, t, m, known) == s.(seen := m.tick)
  {
    hide Plus, Mean, Accepted;
  }

  // ---------- checks and recognitions

  /** A liveness check is made exactly of a track that has no verdict, with a usable face, at the cadence. */
  lemma CheckedIff(e: Engine, f: Frame, now: Time, t: TrackInput)
    requires EngineOk(e) && Accepts(e, f, now) && t in f.tracks
    ensures t.id in Processed(e, f, now).states
    ensures Processed(e, f, now).states[t.id].lastPad == e.tick + 1 <==>
      && QualityOf(e, t) > 0.0 && e.gallery.size > 0
      && (StartsAnew(e, t.id, now)
          || (e.states[t.id].phase in {WaitingQuality, CheckingPad}
              && (e.states[t.id].lastPad == 0 || e.tick + 1 - e.states[t.id].lastPad >= e.config.padEveryFrames)))
  {
    hide Processed, EngineOk;
    var known := NamedStep(e, f, now, t);
    var m := MomentOf(e, f, now);
    if Kept(e, t.id) {
      TicksArePast(e, t.id);
      CheckedStep(e.states[t.id], t, m, known);
    } else {
      CheckedStep(Fresh(0), t, m, known);
    }
  }

  lemma CheckedStep(s: Track, t: TrackInput, m: Moment, known: bool)
    requires s.lastPad < m.tick
    ensures TrackStep(s, t, m, known).lastPad == m.tick <==>
      && Quality(t, m) > 0.0 && m.gallery.size > 0
      && (Anew(s, m) || (s.phase in {WaitingQuality, CheckingPad}
                         && (s.lastPad == 0 || m.tick - s.lastPad >= m.config.padEveryFrames)))
  {
    hide ArcDue, Concluded, Matched, Selected, Quality;
    BeginDueIff(s, t, m);
    BeginCases(s, t, m);
    PadTime(s, t, m, known);
  }

  lemma BeginDueIff(s: Track, t: TrackInput, m: Moment)
    ensures Begin(s, t, m).due <==>
      && Quality(t, m) > 0.0 && m.gallery.size > 0
      && (Anew(s, m) || (s.phase in {WaitingQuality, CheckingPad}
                         && (s.lastPad == 0 || m.tick - s.lastPad >= m.config.padEveryFrames)))
  {
    hide Quality;
  }

  /** Only the check sets its time. */
  lemma PadTime(s: Track, t: TrackInput, m: Moment, known: bool)
    ensures TrackStep(s, t, m, known).lastPad == if Begin(s, t, m).due then m.tick else Begin(s, t, m).track.lastPad
  {
    hide Begin, Plus, Mean, Accepted, ArcDue;
  }

  /** The check just made was the one that let the track through. */
  predicate JustPassed(r: Track, result: PadResult, tick: nat, c: Config) {
    && r.lastPad == tick && result.Scored? && r.votes.bonaFide >= c.bonaFideRequired
       && r.votes.attack < c.attackRequired
  }

  /** A usable face is recognised exactly when the track is being recognised, is retried, or has just passed the
      liveness vote, at the cadence of recognition. */
  lemma RecognisedIff(e: Engine, f: Frame, now: Time, t: TrackInput)
    requires EngineOk(e) && Accepts(e, f, now) && t in f.tracks
    ensures t.id in Processed(e, f, now).states
    ensures var r := Processed(e, f, now).states[t.id];
      r.lastArc == e.tick + 1 <==>
        && QualityOf(e, t) > 0.0
        && (|| (!StartsAnew(e, t.id, now) && e.states[t.id].phase == Recognizing)
            || Retries(e, t, now) || JustPassed(r, e.models.pad(f.frameId, t.observation), e.tick + 1, e.config))
        && (StartsAnew(e, t.id, now) || e.states[t.id].lastArc == 0
            || e.tick + 1 - e.states[t.id].lastArc >= e.config.recognitionEveryFrames)
  {
    hide Processed, EngineOk;
    var known := NamedStep(e, f, now, t);
    var m := MomentOf(e, f, now);
    if Kept(e, t.id) {
      TicksArePast(e, t.id);
      RecognisedStep(e.states[t.id], t, m, known);
    } else {
      RecognisedStep(Fresh(0), t, m, known);
    }
  }

  lemma RecognisedStep(s: Track, t: TrackInput, m: Moment, known: bool)
    requires s.lastArc < m.tick && s.lastPad < m.tick
    ensures TrackStep(s, t, m, known).lastArc == m.tick <==>
      && Quality(t, m) > 0.0
      && (|| (!Anew(s, m) && s.phase == Recognizing) || Again(s, Quality(t, m), m)
          || JustPassed(TrackStep(s, t, m, known), m.models.pad(m.frameId, t.observation), m.tick, m.config))
      && (Anew(s, m) || s.lastArc == 0 || m.tick - s.lastArc >= m.config.recognitionEveryFrames)
  {
    hide Quality, Begin, Checked, Selected, Matched, Concluded, Anew;
    BeginCases(s, t, m);
    var b := Begin(s, t, m);
    BeginDueIff(s, t, m);
    if b.due {
      CheckedPhase(b.track, m.models.pad(m.frameId, t.observation), m);
    }
    if ArcDue(Screened(s, t, m), t, m) {
      RecognitionKeeps(Screened(s, t, m), t, m, known);
    }
    BeginPhase(s, t, m);
  }

  /** Without a check, a track is ready for recognition only if it was, or is retried. */
  lemma BeginPhase(s: Track, t: TrackInput, m: Moment)
    ensures !Begin(s, t, m).due ==>
      (Begin(s, t, m).track.phase == Recognizing <==>
       (!Anew(s, m) && s.phase == Recognizing) || Again(s, Quality(t, m), m))
    ensures Begin(s, t, m).due ==> !(!Anew(s, m) && s.phase == Recognizing) && !Again(s, Quality(t, m), m)
  {
    hide Quality;
  }

  lemma CheckedPhase(s: Track, x: PadResult, m: Moment)
    requires s.phase == CheckingPad
    ensures var r := Checked(s, x, m);
      && r.lastPad == m.tick && r.lastArc == s.lastArc
      && r.phase == if x.InputRejected? then WaitingQuality
                    else if r.votes.attack >= m.config.attackRequired then RejectedAttack
                    else if r.votes.bonaFide >= m.config.bonaFideRequired then Recognizing
                    else if r.votes.attempts >= m.config.padMaxAttempts then RejectedAttack else CheckingPad
  {
  }

  lemma RecognitionKeeps(s: Track, t: TrackInput, m: Moment, known: bool)
    ensures var r := Concluded(Matched(Selected(s, t, m), m.models.embed(m.frameId, t.observation), m), known, m);
      r.lastArc == m.tick && r.lastPad == s.lastPad && r.votes == s.votes
  {
    hide Plus, Mean, Accepted;
  }

  /** What a recognition or a check leads to. */
  lemma OutcomeIs(e: Engine, f: Frame, now: Time, t: TrackInput)
    requires EngineOk(e) && Accepts(e, f, now) && t in f.tracks
    ensures t.id in Processed(e, f, now).states
    ensures var r, c := Processed(e, f, now).states[t.id], e.config;
      && (r.lastArc == e.tick + 1 ==>
            if r.found.valid && r.found.best >= c.similarityThreshold && r.found.margin >= c.minMargin
            then r.phase in {Recognized, DuplicateIdentity} && r.terminal == now
            else r.phase == if r.attempts < c.recognitionMaxAttempts + r.extra then Recognizing
                            else if r.extra < c.recognitionExtraAttempts then RecognitionDeferred else UnknownIdentity)
      && (r.lastPad == e.tick + 1 && r.lastArc != e.tick + 1 ==>
            r.phase == if e.models.pad(f.frameId, t.observation).InputRejected? then WaitingQuality
                       else if r.votes.attack >= c.attackRequired then RejectedAttack
                       else if r.votes.bonaFide >= c.bonaFideRequired then Recognizing
                       else if r.votes.attempts >= c.padMaxAttempts then RejectedAttack else CheckingPad)
  {
    hide Processed, EngineOk;
    var known := NamedStep(e, f, now, t);
    var m := MomentOf(e, f, now);
    if Kept(e, t.id) {
      TicksArePast(e, t.id);
      OutcomeStep(e.states[t.id], t, m, known);
    } else {
      OutcomeStep(Fresh(0), t, m, known);
    }
  }

  lemma OutcomeStep(s: Track, t: TrackInput, m: Moment, known: bool)
    requires s.lastArc < m.tick && s.lastPad < m.tick
    ensures var r, c := TrackStep(s, t, m, known), m.config;
      && (r.lastArc == m.tick ==>
            if r.found.valid && r.found.best >= c.similarityThreshold && r.found.margin >= c.minMargin
            then r.phase in {Recognized, DuplicateIdentity} && r.terminal == m.now
            else r.phase == if r.attempts < c.recognitionMaxAttempts + r.extra then Recognizing
                            else if r.extra < c.recognitionExtraAttempts then RecognitionDeferred else UnknownIdentity)
      && (r.lastPad == m.tick && r.lastArc != m.tick ==>
            r.phase == if m.models.pad(m.frameId, t.observation).InputRejected? then WaitingQuality
                       else if r.votes.attack >= c.attackRequired then RejectedAttack
                       else if r.votes.bonaFide >= c.bonaFideRequired then Recognizing
                       else if r.votes.attempts >= c.padMaxAttempts then RejectedAttack else CheckingPad)
  {
    hide Quality, Begin, Checked, Anew;
    BeginCases(s, t, m);
    var b := Begin(s, t, m);
    if b.due {
      CheckedPhase(b.track, m.models.pad(m.frameId, t.observation), m);
    }
    assert Screened(s, t, m).lastArc < m.tick;
    if ArcDue(Screened(s, t, m), t, m) {
      ConclusionIs(Screened(s, t, m), t, m, known);
    }
  }

  lemma ConclusionIs(s: Track, t: TrackInput, m: Moment, known: bool)
    requires s.phase == Recognizing
    ensures var r := Concluded(Matched(Selected(s, t, m), m.models.embed(m.frameId, t.observation), m), known, m);
      var c := m.config;
      && r.lastArc == m.tick
      && if r.found.valid && r.found.best >= c.similarityThreshold && r.found.margin >= c.minMargin
         then r.phase in {Recognized, DuplicateIdentity} && r.terminal == m.now
         else r.phase == if r.attempts < c.recognitionMaxAttempts + r.extra then Recognizing
                         else if r.extra < c.recognitionExtraAttempts then RecognitionDeferred else UnknownIdentity
  {
    hide Plus, Mean;
  }

  // ---------- announcements

  /** After the frame, a track names this identity from a face recognised in it. */
  ghost predicate NamedBy(after: Engine, id: nat, x: Identity) {
    && id in after.states && after.states[id].lastArc == after.tick
    && after.states[id].phase in {Recognized, DuplicateIdentity} && after.states[id].found.identity == x
  }

  lemma ClaimedIffNamed(e: Engine, f: Frame, now: Time, x: Identity)
    requires EngineOk(e) && Accepts(e, f, now)
    ensures var faces := Faces(Swept(e.states, e.tick + 1, e.config), f.tracks, MomentOf(e, f, now));
      Claimed(faces.states, faces.picked, MomentOf(e, f, now), x)
      <==> exists id :: NamedBy(Processed(e, f, now), id, x)
  {
    hide Processed, EngineOk, Faces, Claims, NamedBy;
    var m := MomentOf(e, f, now);
    var faces := Faces(Swept(e.states, e.tick + 1, e.config), f.tracks, m);
    if Claimed(faces.states, faces.picked, m, x) {
      var k :| 0 <= k < |faces.picked| && Claims(faces.states, faces.picked[k], m, x);
      FacesAt(Swept(e.states, e.tick + 1, e.config), f.tracks, m, faces.picked[k].id);
      MembersAreFound(faces.picked, faces.picked[k]);
      FoundOccurs(f.tracks, faces.picked[k].id);
      ClaimsIffNamed(e, f, now, faces.picked[k], x);
    }
    if id :| NamedBy(Processed(e, f, now), id, x) {
      NamedIsSeen(e, f, now, id, x);
      FoundOccurs(f.tracks, id);
      var t := Find(f.tracks, id).value;
      ClaimsIffNamed(e, f, now, t, x);
      FoundOccurs(faces.picked, id);
      assert exists k :: 0 <= k < |faces.picked| && faces.picked[k] == t;
    }
  }

  lemma NamedIsSeen(e: Engine, f: Frame, now: Time, id: nat, x: Identity)
    requires EngineOk(e) && Accepts(e, f, now) && NamedBy(Processed(e, f, now), id, x)
    ensures Find(f.tracks, id).Some?
  {
    hide Decide, EngineOk;
    FoundOccurs(f.tracks, id);
    if Find(f.tracks, id).None? {
      var known := DecideAt(Swept(e.states, e.tick + 1, e.config), Cooled(e.emitted, now, e.config), f.tracks,
                            MomentOf(e, f, now), id);
      TicksArePast(e, id);
    }
  }

  /** A face claims an identity exactly when its track names it after the frame. */
  lemma ClaimsIffNamed(e: Engine, f: Frame, now: Time, t: TrackInput, x: Identity)
    requires EngineOk(e) && Accepts(e, f, now) && Find(f.tracks, t.id) == Some(t)
    ensures var m := MomentOf(e, f, now);
      var faces := Faces(Swept(e.states, e.tick + 1, e.config), f.tracks, m);
      NamedBy(Processed(e, f, now), t.id, x) <==>
      Find(faces.picked, t.id) == Some(t) && Claims(faces.states, t, m, x)
  {
    hide Decide, Faces, EngineOk, Screened, ArcDue, Concluded, Matched, Selected, Accepted;
    var m := MomentOf(e, f, now);
    var swept := Swept(e.states, e.tick + 1, e.config);
    FacesAt(swept, f.tracks, m, t.id);
    var known := DecideAt(swept, Cooled(e.emitted, now, e.config), f.tracks, m, t.id);
    var s := Lookup(swept, t.id);
    if t.id in e.states {
      TicksArePast(e, t.id);
    }
    ArcOfScreened(s, t, m);
    if ArcDue(Screened(s, t, m), t, m) {
      NamesIffAccepted(Screened(s, t, m), t, m, known);
    }
  }

  lemma ArcOfScreened(s: Track, t: TrackInput, m: Moment)
    requires s.lastArc < m.tick
    ensures Screened(s, t, m).lastArc < m.tick
  {
    hide Begin, Checked, Anew;
    BeginCases(s, t, m);
    if Begin(s, t, m).due {
      CheckedPhase(Begin(s, t, m).track, m.models.pad(m.frameId, t.observation), m);
    }
  }

  lemma NamesIffAccepted(s: Track, t: TrackInput, m: Moment, known: bool)
    requires ArcDue(s, t, m)
    ensures var a := Matched(Selected(s, t, m), m.models.embed(m.frameId, t.observation), m);
      var r := Concluded(a, known, m);
      r.lastArc == m.tick && r.found == a.found && (r.phase in {Recognized, DuplicateIdentity} <==>
                                                    Accepted(a.found, m.config))
  {
    hide Plus, Mean, Accepted;
  }

  // ---------- announcements over a run

  /** Every remembered cooldown is that of an event of the run. */
  ghost predicate FromEvents(emitted: Cooldowns, h: seq<Stamped>) {
    forall x :: x in emitted ==> exists k :: 0 <= k < |h| && h[k].event.identity == x && h[k].at == emitted[x]
  }

  lemma FrameFromEvents(e: Engine, f: Frame, now: Time, h: seq<Stamped>)
    requires Accepts(e, f, now) && FromEvents(e.emitted, h)
    ensures FromEvents(Processed(e, f, now).emitted, h + Stamp(EventsOf(e, f, now), now))
  {
    hide Outcome;
    FrameCooldowns(e, f, now);
    var y, added := Outcome(e, f, now), Stamp(EventsOf(e, f, now), now);
    forall x | x in y.emitted
      ensures
        exists k :: 0 <= k < |h + added| && (h + added)[k].event.identity == x && (h + added)[k].at == y.emitted[x]
    {
      if x in Cooled(e.emitted, now, e.config) {
        var k :| 0 <= k < |h| && h[k].event.identity == x && h[k].at == e.emitted[x];
        assert (h + added)[k] == h[k];
      } else {
        NewCooldownHasEvent(e, f, now, x);
        var k :| 0 <= k < |y.events| && y.events[k].identity == x;
        assert (h + added)[|h| + k] == Stamped(y.events[k], now);
      }
    }
  }

  lemma NewCooldownHasEvent(e: Engine, f: Frame, now: Time, x: Identity)
    requires Accepts(e, f, now) && x in Outcome(e, f, now).emitted && x !in Cooled(e.emitted, now, e.config)
    ensures Announced(Outcome(e, f, now).events, x)
  {
    hide Begin, Checked, Matched, Selected, ArcDue, Concluded, Claimed;
    var m := MomentOf(e, f, now);
    var swept, cooled := Swept(e.states, e.tick + 1, e.config), Cooled(e.emitted, now, e.config);
    var faces := Faces(swept, f.tracks, m);
    forall id ensures Occurs(faces.picked, id) <= 1 {
      FacesAt(swept, f.tracks, m, id);
    }
    AnnouncedIffClaimed(Tally(faces.states, cooled, []), faces.picked, m, x);
  }

  lemma {:induction false} CooldownsAreEvents(c: Config, models: Evaluators, calls: seq<Call>)
    requires ValidConfig(c)
    ensures FromEvents(Run(Started(c, models), calls).emitted, History(Started(c, models), calls))
  {
    hide Processed, EventsOf;
    if calls != [] {
      var start, front, last := Started(c, models), calls[..|calls| - 1], calls[|calls| - 1];
      CooldownsAreEvents(c, models, front);
      if last.Process? {
        if Accepts(Run(start, front), last.frame, last.now) {
          FrameFromEvents(Run(start, front), last.frame, last.now, History(start, front));
        } else {
          RejectedChangesNothing(Run(start, front), last.frame, last.now);
          assert History(start, calls) == History(start, front);
        }
      } else {
        assert History(start, calls) == History(start, front);
      }
    }
  }

  /** In every reachable state: a frame announces an identity exactly when a track names it in that frame and the last
      event of that identity, if there was one, is a cooldown ago. */
  lemma AnnouncedIffNamed(c: Config, models: Evaluators, calls: seq<Call>, f: Frame, now: Time, x: Identity)
    requires ValidConfig(c) && Accepts(Run(Started(c, models), calls), f, now)
    ensures var e, h := Run(Started(c, models), calls), History(Started(c, models), calls);
      (exists k :: 0 <= k < |EventsOf(e, f, now)| && EventsOf(e, f, now)[k].identity == x) <==>
      && (exists id :: NamedBy(Processed(e, f, now), id, x))
      && forall k :: 0 <= k < |h| && h[k].event.identity == x ==> now - h[k].at >= c.eventCooldown
  {
    hide Processed, EventsOf, EngineOk, Claimed, Faces, NamedBy;
    var start := Started(c, models);
    var e, h := Run(start, calls), History(start, calls);
    StartIsOk(c, models);
    RunKeepsOk(start, calls);
    OneEventPerIdentity(e, f, now, x);
    ClaimedIffNamed(e, f, now, x);
    EventsAreSpaced(start, calls);
    CooldownsAreEvents(c, models, calls);
    CooledIffRecent(e, h, now, x);
  }

  /** An identity is in its cooldown exactly when the run has an event of it less than a cooldown ago. */
  lemma CooledIffRecent(e: Engine, h: seq<Stamped>, now: Time, x: Identity)
    requires Remembered(e, h) && FromEvents(e.emitted, h) && (e.haveTime ==> now >= e.lastTime)
    ensures x in Cooled(e.emitted, now, e.config) <==>
      exists k :: 0 <= k < |h| && h[k].event.identity == x && now - h[k].at < e.config.eventCooldown
  {
    if k :| 0 <= k < |h| && h[k].event.identity == x && now - h[k].at < e.config.eventCooldown {
      assert RememberedOne(e, h[k]);
    }
    if x in Cooled(e.emitted, now, e.config) {
      var k :| 0 <= k < |h| && h[k].event.identity == x && h[k].at == e.emitted[x];
    }
  }
}
