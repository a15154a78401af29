/** The worker's round: upload, then poll, unless the server has refused this device. */
module SyncService {
  import opened Outbox
  import opened AttendanceSync
  import opened Gallery

  /** What the environment supplies to one round. */
  datatype Round = Round(
    now: int, reply: Reply, at: int, jitter: nat, first: Commit, second: Commit,
    pollNow: int, poll: Poll, pollAt: int, pollJitter: nat, replace: Commit)

  /** The upload, if there was one, was neither refused nor ended by a storage error. */
  ghost predicate UploadDone(s: Store, sent: seq<AttendanceRecord>, r: Round) {
    sent == [] || (!PlanFor(sent, r.reply).Block? && Finishes(s, sent, r.reply, r.at, r.jitter, r.first, r.second))
  }

  function Noticed(p: Poller, requested: bool): Poller {
    if requested then Hurried(p) else p
  }

  class SyncService {
    const attendance: AttendanceSync
    const gallery: GallerySync
    var token: string
    var blocked: bool
    var refreshRequested: bool
    var authenticatedConnection: bool

    constructor (a: AttendanceSync, g: GallerySync)
      ensures attendance == a && gallery == g && token == "" && !blocked && !refreshRequested
        && !authenticatedConnection
    {
      attendance, gallery := a, g;
      token, blocked, refreshRequested, authenticatedConnection := "", false, false, false;
    }

    /** A new credential lifts the refusal and polls at once; the same one changes nothing. */
    method SetToken(t: string)
      modifies this`token, this`blocked, gallery`due
      ensures token == t
      ensures t == old(token) ==> blocked == old(blocked) && gallery.due == old(gallery.due)
      ensures t != old(token) ==> !blocked && gallery.due == 0
    {
      if t != token {
        token := t;
        blocked := false;
        gallery.ResetPoll();
      }
    }

    method RequestGalleryRefresh(authenticated: bool)
      modifies this`refreshRequested, this`authenticatedConnection
      ensures refreshRequested && authenticatedConnection == (old(authenticatedConnection) || authenticated)
    {
      refreshRequested := true;
      if authenticated {
        authenticatedConnection := true;
      }
    }

    /** The device may talk to the server in this round. */
    predicate Active()
      reads this
    {
      (authenticatedConnection || !blocked) && token != ""
    }

    /** One round. While refused, nothing is sent and nothing local changes; the refusal ends with a new credential or
        an authenticated channel, and comes back only from a refused upload or poll. ok is false when a storage error
        ends the round. */
    method Step(r: Round) returns (ok: bool, ghost sent: seq<AttendanceRecord>)
      modifies this, gallery, gallery.gallery, attendance.outbox
      ensures token == old(token) && !authenticatedConnection
      ensures !old(Active()) ==> ok && blocked == (old(blocked) && !old(authenticatedConnection)) && sent == []
      ensures !old(Active()) ==> attendance.outbox.Contents() == old(attendance.outbox.Contents())
      ensures !old(Active()) ==> gallery.Now() == old(gallery.Now()) && refreshRequested == old(refreshRequested)
      ensures old(Active()) ==> !refreshRequested && FirstDue(sent, old(attendance.outbox.Contents()), r.now, 32)
      ensures old(Active()) && sent == [] ==> attendance.outbox.Contents() == old(attendance.outbox.Contents())
      ensures old(Active()) && sent != [] ==>
        attendance.outbox.Contents() == Uploaded(old(attendance.outbox.Contents()), sent, r.reply, r.at, r.jitter,
                                                 r.first, r.second)
      // An upload that did not get through leaves the poll out.
      ensures old(Active()) && !UploadDone(old(attendance.outbox.Contents()), sent, r) ==>
        gallery.Now() == Noticed(old(gallery.Now()), old(refreshRequested))
          && blocked == ok == PlanFor(sent, r.reply).Block?
      ensures old(Active()) && UploadDone(old(attendance.outbox.Contents()), sent, r) ==>
        var before := Noticed(old(gallery.Now()), old(refreshRequested));
        var (p, result) := Polled(before, r.pollNow, r.poll, r.pollAt, r.pollJitter, r.replace, gallery.gallery.root);
        gallery.Now() == p && (ok <==> result != PollFailed) && (blocked <==> result == PollBlocked)
    {
      hide FirstDue, Uploaded, Effect;
      sent := [];
      if authenticatedConnection {
        blocked := false;
      }
      authenticatedConnection := false;
      if blocked || token == "" {
        return true, [];
      }
      if refreshRequested {
        gallery.RequestRefresh();
      }
      refreshRequested := false;
      var result;
      result, sent := attendance.Step(r.now, r.reply, r.at, r.jitter, r.first, r.second);
      if result == AuthenticationBlocked {
        blocked := true;
        return true, sent;
      }
      if result == StorageFailed {
        return false, sent;
      }
      var polled := gallery.Step(r.pollNow, r.poll, r.pollAt, r.pollJitter, r.replace);
      if polled == PollBlocked {
        blocked := true;
      }
      ok := polled != PollFailed;
    }
  }
}
