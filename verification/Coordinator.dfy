/** The owner's side: staging the records of a frame, committing them one by one, and installing galleries. */
module Coordinator {
  import opened Outbox
  import opened OutboxRepository
  import opened Gallery

  /** One attendance decision of the vision runtime. */
  datatype AttendanceEvent = AttendanceEvent(
    occurred: int, frame: nat, track: nat, identity: string, similarity: real, margin: real, padReal: real)

  /** The gallery the matcher holds. Installing replaces it as a whole or not at all. */
  class Runtime {
    var templates: map<string, Template>

    constructor ()
      ensures templates == map[]
    {
      templates := map[];
    }

    method SetGallery(next: map<string, Template>, accepted: bool) returns (ok: bool)
      modifies this
      ensures ok == accepted && templates == if accepted then next else old(templates)
    {
      if accepted {
        templates := next;
      }
      ok := accepted;
    }
  }

  predicate ValidIdentifier(s: string) {
    s != "" && |s| <= 256 && '\r' !in s && '\n' !in s && '\0' !in s
  }

  /** An envelope can be made: who, where and when are given. */
  predicate Writable(e: AttendanceEvent, device: string, version: string) {
    ValidIdentifier(device) && ValidIdentifier(version) && ValidIdentifier(e.identity) && e.occurred > 0
  }

  function Envelope(e: AttendanceEvent, id: string, device: string, version: string): AttendanceRecord {
    AttendanceRecord(
      id, Payload(id, e.occurred, device, e.identity, version, e.track, e.frame, e.similarity, e.margin, e.padReal),
        e.occurred, 0, 0)
  }

  /** The record says of the event what is known of it, and has not been tried yet. */
  predicate Describes(r: AttendanceRecord, e: AttendanceEvent, id: string, device: string, version: string) {
    && r.id == id && r.occurred == e.occurred && r.next == 0 && r.attempts == 0
    && r.payload.eventId == id && r.payload.occurred == e.occurred && r.payload.device == device
    && r.payload.galleryVersion == version && r.payload.identity == e.identity && r.payload.track == e.track
    && r.payload.frame == e.frame && r.payload.similarity == e.similarity && r.payload.margin == e.margin
    && r.payload.padReal == e.padReal
  }

  datatype Staged = StagedAll | StillPending | NotWritable

  datatype Refreshed = Installed | PendingFirst | WrongModel | InstallFailed

  datatype Committed = Nothing | CommittedOne(record: AttendanceRecord) | NotCommitted(why: Outcome)

  class AttendanceCoordinator {
    const outbox: OutboxRepository
    const gallery: GalleryRepository
    const device: string
    const modelHash: string
    var version: string
    var templateCount: nat
    var pending: seq<AttendanceRecord>

    constructor (o: OutboxRepository, g: GalleryRepository, deviceId: string, hash: string)
      ensures outbox == o && gallery == g && device == deviceId && modelHash == hash
      ensures version == "" && templateCount == 0 && pending == []
    {
      outbox, gallery, device, modelHash := o, g, deviceId, hash;
      version, templateCount, pending := "", 0, [];
    }

    /** The runtime holds the gallery this version names, as stored when it was read. */
    ghost predicate Publishes(runtime: Runtime, g: Snapshot)
      reads this, runtime
    {
      version == g.version && runtime.templates == g.templates && templateCount == |g.templates|
    }

    /** Installs the stored gallery; whatever goes wrong, the old one stays in place together with its version. */
    method RefreshGallery(runtime: Runtime, accepted: bool) returns (result: Refreshed)
      modifies this`version, this`templateCount, runtime
      ensures result == Installed <==>
        old(pending) == [] && (gallery.stored.version == "" || gallery.stored.modelHash == modelHash) && accepted
      ensures result == Installed ==> Publishes(runtime, gallery.stored)
      ensures result != Installed ==> version == old(version) && templateCount == old(templateCount)
      ensures result != Installed ==> runtime.templates == old(runtime.templates)
    {
      if pending != [] {
        return PendingFirst;
      }
      var snapshot := gallery.stored;
      if snapshot.version != "" && snapshot.modelHash != modelHash {
        return WrongModel;
      }
      var ok := runtime.SetGallery(snapshot.templates, accepted);
      if !ok {
        return InstallFailed;
      }
      version := snapshot.version;
      templateCount := |snapshot.templates|;
      result := Installed;
    }

    /** Makes the records of one frame, all or none; ids are new ones from the outside. */
    method Stage(events: seq<AttendanceEvent>, ids: seq<string>) returns (result: Staged)
      requires |ids| == |events|
      modifies this`pending
      ensures result == StagedAll <==>
        old(pending) == [] && forall k :: 0 <= k < |events| ==> Writable(events[k], device, version)
      ensures result != StagedAll ==> pending == old(pending)
      ensures result == StagedAll ==> |pending| == |events|
      ensures result == StagedAll ==>
        forall k :: 0 <= k < |events| ==> pending[k] == Envelope(events[k], ids[k], device, version)
      ensures result == StagedAll ==>
        forall k :: 0 <= k < |events| ==> Describes(pending[k], events[k], ids[k], device, version)
    {
      if pending != [] {
        return StillPending;
      }
      var next: seq<AttendanceRecord> := [];
      for k := 0 to |events|
        invariant |next| == k && pending == old(pending)
        invariant forall j :: 0 <= j < k ==> Writable(events[j], device, version)
        invariant forall j :: 0 <= j < k ==> next[j] == Envelope(events[j], ids[j], device, version)
      {
        if !Writable(events[k], device, version) {
          return NotWritable;
        }
        next := next + [Envelope(events[k], ids[k], device, version)];
      }
      pending := next;
      result := StagedAll;
    }

    /** Commits the oldest staged record; it stays staged, unchanged, until its commit is reported. */
    method CommitNext(commit: Commit) returns (result: Committed)
      modifies this`pending, outbox
      ensures old(pending) == [] ==> result == Nothing && pending == [] && outbox.Contents() == old(outbox.Contents())
      ensures old(pending) != [] && Conflicts(old(outbox.Contents()), old(pending)[0]) ==>
        result == NotCommitted(Conflict) && pending == old(pending) && outbox.Contents() == old(outbox.Contents())
      ensures old(pending) != [] && !Conflicts(old(outbox.Contents()), old(pending)[0]) ==>
        outbox.Contents() == After(old(outbox.Contents()), Enqueued(old(outbox.Contents()), old(pending)[0]), commit)
      ensures old(pending) != [] && !Conflicts(old(outbox.Contents()), old(pending)[0]) ==>
        if commit == Applied then result == CommittedOne(old(pending)[0]) && pending == old(pending)[1..]
        else result == NotCommitted(StorageError) && pending == old(pending)
    {
      if pending == [] {
        return Nothing;
      }
      var record := pending[0];
      var outcome := outbox.EnsureEnqueued(record, commit);
      if outcome != Done {
        return NotCommitted(outcome);
      }
      pending := pending[1..];
      result := CommittedOne(record);
    }
  }
}
