/** What the four batched passes do to one track: each is that track's own step, whatever else is in the frame. */
module AttendancePasses {
  import opened Attendance
  import opened Collections

  /** The track with this id in a frame; the last one if there are several. */
  function Find(ts: seq<TrackInput>, id: nat): Option<TrackInput> {
    if ts == [] then None
    else if ts[|ts| - 1].id == id then Some(ts[|ts| - 1])
    else Find(ts[..|ts| - 1], id)
  }

  function Occurs(ts: seq<TrackInput>, id: nat): nat {
    if ts == [] then 0 else Occurs(ts[..|ts| - 1], id) + if ts[|ts| - 1].id == id then 1 else 0
  }

  lemma {:induction false} FoundOccurs(ts: seq<TrackInput>, id: nat)
    ensures Find(ts, id).None? <==> Occurs(ts, id) == 0
    ensures Find(ts, id).Some? ==> Find(ts, id).value.id == id && Find(ts, id).value in ts
  {
    if ts != [] {
      FoundOccurs(ts[..|ts| - 1], id);
    }
  }

  lemma {:induction false} OccursNowhere(ts: seq<TrackInput>, id: nat)
    requires forall k :: 0 <= k < |ts| ==> ts[k].id != id
    ensures Occurs(ts, id) == 0
  {
    if ts != [] {
      OccursNowhere(ts[..|ts| - 1], id);
    }
  }

  lemma {:induction false} DistinctOccursOnce(ts: seq<TrackInput>, id: nat)
    requires DistinctIds(ts)
    ensures Occurs(ts, id) <= 1
  {
    if ts != [] {
      var n := |ts| - 1;
      DistinctOccursOnce(ts[..n], id);
      if ts[n].id == id {
        OccursNowhere(ts[..n], id);
      }
    }
  }

  lemma {:induction false} MembersAreFound(ts: seq<TrackInput>, t: TrackInput)
    requires t in ts && Occurs(ts, t.id) <= 1
    ensures Find(ts, t.id) == Some(t)
  {
    var n := |ts| - 1;
    if ts[n].id == t.id {
      if ts[n] != t {
        assert t in ts[..n];
        MembersOccur(ts[..n], t);
      }
    } else {
      MembersAreFound(ts[..n], t);
    }
  }

  lemma {:induction false} MembersOccur(ts: seq<TrackInput>, t: TrackInput)
    requires t in ts
    ensures Occurs(ts, t.id) > 0
  {
    var n := |ts| - 1;
    if ts[n] != t {
      assert t in ts[..n];
      MembersOccur(ts[..n], t);
    }
  }

  /** Same entry, or no entry, under id. */
  predicate SameAt(a: Tracks, b: Tracks, id: nat) {
    (id in a <==> id in b) && (id in a ==> a[id] == b[id])
  }

  // ---------- one track through the passes

  /** The track after the liveness passes, ready to be selected for recognition. */
  function Screened(s: Track, t: TrackInput, m: Moment): Track {
    var b := Begin(s, t, m);
    if b.due then Checked(b.track, m.models.pad(m.frameId, t.observation), m) else b.track
  }

  /** The track with its new embedding looked up. */
  function Recognised(s: Track, t: TrackInput, m: Moment): Track {
    Matched(Selected(Screened(s, t, m), t, m), m.models.embed(m.frameId, t.observation), m)
  }

  /** The whole step of one track; known is the one thing it takes from the rest of the world. */
  function TrackStep(s: Track, t: TrackInput, m: Moment, known: bool): Track {
    if ArcDue(Screened(s, t, m), t, m) then Concluded(Recognised(s, t, m), known, m)
    else Screened(s, t, m)
  }

  lemma {:induction false} BeginAt(states: Tracks, ts: seq<TrackInput>, m: Moment, id: nat)
    requires Occurs(ts, id) <= 1
    ensures Occurs(BeginAll(states, ts, m).picked, id) <= Occurs(ts, id)
    ensures match Find(ts, id)
      case None => SameAt(states, BeginAll(states, ts, m).states, id)
      case Some(t) =>
        var b := Begin(Lookup(states, id), t, m);
        && id in BeginAll(states, ts, m).states && BeginAll(states, ts, m).states[id] == b.track
        && Find(BeginAll(states, ts, m).picked, id) == if b.due then Some(t) else None
  {
    hide Begin;
    if ts != [] {
      var t := ts[|ts| - 1];
      var before := BeginAll(states, ts[..|ts| - 1], m);
      BeginAt(states, ts[..|ts| - 1], m, id);
      FoundOccurs(ts[..|ts| - 1], id);
      FoundOccurs(before.picked, id);
      PickedGrows(before.picked, t, id);
    }
  }

  lemma PickedGrows(picked: seq<TrackInput>, t: TrackInput, id: nat)
    ensures Occurs(picked + [t], id) == Occurs(picked, id) + if t.id == id then 1 else 0
    ensures Find(picked + [t], id) == if t.id == id then Some(t) else Find(picked, id)
  {
    assert (picked + [t])[..|picked|] == picked;
  }

  lemma {:induction false} CheckAt(states: Tracks, ts: seq<TrackInput>, m: Moment, id: nat)
    requires Occurs(ts, id) <= 1
    ensures match Find(ts, id)
      case None => SameAt(states, CheckAll(states, ts, m), id)
      case Some(t) =>
        && id in CheckAll(states, ts, m)
        && CheckAll(states, ts, m)[id] == Checked(Lookup(states, id), m.models.pad(m.frameId, t.observation), m)
  {
    hide Checked;
    if ts != [] {
      CheckAt(states, ts[..|ts| - 1], m, id);
      FoundOccurs(ts[..|ts| - 1], id);
    }
  }

  lemma {:induction false} SelectAt(states: Tracks, ts: seq<TrackInput>, m: Moment, id: nat)
    requires Occurs(ts, id) <= 1
    ensures Occurs(SelectAll(states, ts, m).picked, id) <= Occurs(ts, id)
    ensures match Find(ts, id)
      case None => SameAt(states, SelectAll(states, ts, m).states, id)
      case Some(t) =>
        && id in SelectAll(states, ts, m).states
        && SelectAll(states, ts, m).states[id] == Selected(Lookup(states, id), t, m)
        && Find(SelectAll(states, ts, m).picked, id) == if ArcDue(Lookup(states, id), t, m) then Some(t) else None
  {
    hide Selected, ArcDue;
    if ts != [] {
      var t := ts[|ts| - 1];
      var before := SelectAll(states, ts[..|ts| - 1], m);
      SelectAt(states, ts[..|ts| - 1], m, id);
      FoundOccurs(ts[..|ts| - 1], id);
      FoundOccurs(before.picked, id);
      PickedGrows(before.picked, t, id);
    }
  }

  /** The state a face is recognised from, and the state it ends in. */
  lemma {:induction false} RecognizeAt(y: Tally, ts: seq<TrackInput>, m: Moment, id: nat) returns (known: bool)
    requires Occurs(ts, id) <= 1
    ensures match Find(ts, id)
      case None => SameAt(y.states, RecognizeAll(y, ts, m).states, id)
      case Some(t) =>
        && id in RecognizeAll(y, ts, m).states
        && RecognizeAll(y, ts, m).states[id]
           == Concluded(Matched(Lookup(y.states, id), m.models.embed(m.frameId, t.observation), m), known, m)
  {
    hide Matched, Concluded;
    known := false;
    if ts != [] {
      known := RecognizeAt(y, ts[..|ts| - 1], m, id);
      FoundOccurs(ts[..|ts| - 1], id);
      if ts[|ts| - 1].id == id {
        var before := RecognizeAll(y, ts[..|ts| - 1], m);
        var s := Matched(Lookup(before.states, id), m.models.embed(m.frameId, ts[|ts| - 1].observation), m);
        known := s.found.identity in before.emitted;
      }
    }
  }

  /** The passes over a whole frame, seen by one track. */
  lemma DecideAt(states: Tracks, emitted: Cooldowns, ts: seq<TrackInput>, m: Moment, id: nat) returns (known: bool)
    requires DistinctIds(ts)
    ensures match Find(ts, id)
      case None => SameAt(states, Decide(states, emitted, ts, m).states, id)
      case Some(t) =>
        && id in Decide(states, emitted, ts, m).states
        && Decide(states, emitted, ts, m).states[id] == TrackStep(Lookup(states, id), t, m, known)
  {
    hide Begin, Checked, Matched, Concluded, Selected, ArcDue;
    DistinctOccursOnce(ts, id);
    BeginAt(states, ts, m, id);
    var begun := BeginAll(states, ts, m);
    CheckAt(begun.states, begun.picked, m, id);
    FoundOccurs(begun.picked, id);
    var checked := CheckAll(begun.states, begun.picked, m);
    SelectAt(checked, ts, m, id);
    var selected := SelectAll(checked, ts, m);
    FoundOccurs(selected.picked, id);
    FoundOccurs(ts, id);
    known := RecognizeAt(Tally(selected.states, emitted, []), selected.picked, m, id);
    if Find(ts, id).Some? {
      var t := Find(ts, id).value;
      assert Lookup(checked, id) == Screened(Lookup(states, id), t, m);
      SelectedOnlyWhenDue(Screened(Lookup(states, id), t, m), t, m);
    }
  }

  lemma SelectedOnlyWhenDue(s: Track, t: TrackInput, m: Moment)
    ensures !ArcDue(s, t, m) ==> Selected(s, t, m) == s
  {
  }
}
