/** The owner's loop: nothing new is decided while a decision is not stored. */
module EdgeApplication {
  import opened Collections
  import opened Outbox
  import opened OutboxRepository
  import opened Gallery
  import opened Coordinator

  /** What the environment does in one turn of the loop: how each commit ends, which timers have run out, whether an
      installation is accepted, and which frame arrives, with ids for its records. */
  datatype Turn = Turn(
    persistDue: bool, commits: seq<Commit>, galleryDue: bool, accepted: bool,
    frame: Option<seq<AttendanceEvent>>, ids: seq<string>)

  /** Storing waits, fails for now, or gets everything stored; a conflict or an unwritable event ends the run. */
  datatype TurnResult = Waited | PersistBlocked | Persisted | Processed | Ended

  /** The records are stored one after the other. */
  function EnqueuedAll(s: Store, rs: seq<AttendanceRecord>): Store {
    if rs == [] then s else Enqueued(EnqueuedAll(s, rs[..|rs| - 1]), rs[|rs| - 1])
  }

  /** Record k is stored, after those before it. */
  ghost predicate Stores(s: Store, rs: seq<AttendanceRecord>, commits: seq<Commit>, k: nat)
    requires |commits| == |rs| && k < |rs|
  {
    commits[k] == Applied && !Conflicts(EnqueuedAll(s, rs[..k]), rs[k])
  }

  /** Record k is the first that is not stored, or all of them are. A conflict leaves the outbox alone, a failed commit
      leaves it as the commit ended. */
  ghost predicate StoredUpTo(before: Store, rs: seq<AttendanceRecord>, commits: seq<Commit>, k: nat, after: Store)
    requires |commits| == |rs|
  {
    && k <= |rs| && (forall i: nat :: i < k ==> Stores(before, rs, commits, i))
    && var s := EnqueuedAll(before, rs[..k]);
    if k == |rs| then after == s
    else !Stores(before, rs, commits, k)
         && after == if Conflicts(s, rs[k]) then s else After(s, Enqueued(s, rs[k]), commits[k])
  }

  class EdgeApplication {
    const outbox: OutboxRepository
    const coordinator: AttendanceCoordinator
    const runtime: Runtime
    const sync: GallerySync
    var galleryReload: bool
    var persistenceBlocked: bool

    constructor (o: OutboxRepository, c: AttendanceCoordinator, r: Runtime, s: GallerySync)
      ensures outbox == o && coordinator == c && runtime == r && sync == s && !galleryReload && !persistenceBlocked
    {
      outbox, coordinator, runtime, sync := o, c, r, s;
      galleryReload, persistenceBlocked := false, false;
    }

    /** The staged records go into the outbox in order, each once; the first that cannot be stored stops the turn. */
    method Persist(commits: seq<Commit>) returns (blocked: bool, conflict: bool)
      requires coordinator.outbox == outbox && |commits| == |coordinator.pending|
      modifies coordinator`pending, outbox
      ensures |coordinator.pending| <= |old(coordinator.pending)|
      ensures var was, done := old(coordinator.pending), |old(coordinator.pending)| - |coordinator.pending|;
        && coordinator.pending == was[done..] && blocked == (coordinator.pending != [])
        && StoredUpTo(old(outbox.Contents()), was, commits, done, outbox.Contents())
        && (conflict <==> blocked && Conflicts(EnqueuedAll(old(outbox.Contents()), was[..done]), was[done]))
    {
      ghost var was, s := coordinator.pending, outbox.Contents();
      ghost var n := 0;
      while coordinator.pending != []
        invariant 0 <= n <= |was| && coordinator.pending == was[n..]
        invariant forall k: nat :: k < n ==> Stores(s, was, commits, k)
        invariant outbox.Contents() == EnqueuedAll(s, was[..n])
        decreases |coordinator.pending|
      {
        assert was[..n + 1][..n] == was[..n];
        var r := coordinator.CommitNext(commits[|commits| - |coordinator.pending|]);
        if r.NotCommitted? {
          return true, r.why == Conflict;
        }
        n := n + 1;
      }
      assert was[..n] == was;
      blocked, conflict := false, false;
    }

    /** Takes over the worker's flag and, when it is time, has the stored gallery installed. The wish to reload lasts
        until that succeeds. */
    method ReloadGallery(due: bool, accepted: bool)
      requires coordinator.pending == []
      modifies this`galleryReload, sync`dirty, coordinator`version, coordinator`templateCount, runtime
      ensures !sync.dirty
      ensures Reloads(old(galleryReload) || old(sync.dirty), due, accepted) ==>
        !galleryReload && coordinator.Publishes(runtime, coordinator.gallery.stored)
      ensures !Reloads(old(galleryReload) || old(sync.dirty), due, accepted) ==>
        galleryReload == (old(galleryReload) || old(sync.dirty)) && coordinator.version == old(coordinator.version)
        && coordinator.templateCount == old(coordinator.templateCount) && runtime.templates == old(runtime.templates)
    {
      var was := sync.TakeDirty();
      if was {
        galleryReload := true;
      }
      if galleryReload && due {
        var r := coordinator.RefreshGallery(runtime, accepted);
        if r == Installed {
          galleryReload := false;
        }
      }
    }

    /** A wanted reload is tried and succeeds. */
    predicate Reloads(wanted: bool, due: bool, accepted: bool)
      reads coordinator.gallery
    {
      var g := coordinator.gallery.stored;
      wanted && due && accepted && (g.version == "" || g.modelHash == coordinator.modelHash)
    }

    /** One turn. */
    method Iterate(turn: Turn) returns (result: TurnResult)
      requires coordinator.outbox == outbox && |turn.commits| == |coordinator.pending|
      requires turn.frame.Some? ==> |turn.ids| == |turn.frame.value|
      modifies this`galleryReload, this`persistenceBlocked, sync`dirty, coordinator, runtime, outbox
      // While records are staged no frame is looked at, no gallery installed, no flag taken over.
      ensures old(coordinator.pending) != [] ==>
        coordinator.version == old(coordinator.version) && runtime.templates == old(runtime.templates)
        && coordinator.templateCount == old(coordinator.templateCount)
        && galleryReload == old(galleryReload) && sync.dirty == old(sync.dirty)
      ensures result == Waited <==> old(coordinator.pending) != [] && !turn.persistDue
      ensures result == Waited ==>
        coordinator.pending == old(coordinator.pending) && outbox.Contents() == old(outbox.Contents())
      ensures persistenceBlocked
        == if result == Persisted then false else result == PersistBlocked || old(persistenceBlocked)
      // When it is time they are stored in order, up to the first that cannot be, and kept from there.
      ensures old(coordinator.pending) != [] && turn.persistDue ==>
        |coordinator.pending| <= |old(coordinator.pending)|
        && var was, done := old(coordinator.pending), |old(coordinator.pending)| - |coordinator.pending|;
        && coordinator.pending == was[done..]
        && StoredUpTo(old(outbox.Contents()), was, turn.commits, done, outbox.Contents())
        && (result == Persisted <==> coordinator.pending == [])
        && (result == Ended <==>
              coordinator.pending != [] && Conflicts(EnqueuedAll(old(outbox.Contents()), was[..done]), was[done]))
        && (result == Persisted || result == PersistBlocked || result == Ended)
      // Otherwise nothing is written to the outbox, the gallery is reloaded if that is wanted, due and possible, and
      // the frame's records carry the version then published.
      ensures old(coordinator.pending) == [] ==> outbox.Contents() == old(outbox.Contents()) && !sync.dirty
      ensures old(coordinator.pending) == [] ==>
        if Reloads(old(galleryReload) || old(sync.dirty), turn.galleryDue, turn.accepted)
        then !galleryReload && coordinator.Publishes(runtime, coordinator.gallery.stored)
        else galleryReload == (old(galleryReload) || old(sync.dirty)) && coordinator.version == old(coordinator.version)
             && runtime.templates == old(runtime.templates)
      ensures old(coordinator.pending) == [] ==>
        var events := if turn.frame.Some? then turn.frame.value else [];
        && (result == Processed || result == Ended)
        && (result == Processed <==> forall k :: 0 <= k < |events| ==>
            Writable(events[k], coordinator.device, coordinator.version))
        && |coordinator.pending| == (if result == Processed then |events| else 0)
        && (result == Processed ==> forall k :: 0 <= k < |events| ==>
              coordinator.pending[k] == Envelope(events[k], turn.ids[k], coordinator.device, coordinator.version))
    {
      hide StoredUpTo, Writable, Envelope, Conflicts;
      if coordinator.pending != [] {
        if !turn.persistDue {
          return Waited;
        }
        var blocked, conflict := Persist(turn.commits);
        if conflict {
          return Ended;
        }
        persistenceBlocked := blocked;
        return if blocked then PersistBlocked else Persisted;
      }
      ReloadGallery(turn.galleryDue, turn.accepted);
      if turn.frame.Some? {
        var staged := coordinator.Stage(turn.frame.value, turn.ids);
        if staged != StagedAll {
          return Ended;
        }
      }
      result := Processed;
    }
  }
}
