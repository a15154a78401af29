/** The hand-over of a new gallery from the worker to the owner of the matcher, interleaved in every possible way. */
module GalleryHandoff {
  import opened Collections
  import opened Outbox
  import opened Gallery
  import opened RetryPolicy

  /** What the worker is in the middle of: a received gallery, or a committed one whose flag is not raised yet. */
  datatype Worker = Polling | Received(next: Snapshot) | Gap

  /** What the owner is in the middle of: a gallery read but not installed, or a frame matched but not staged. */
  datatype Owner = Top | Loaded(read: Snapshot) | Matched(under: Snapshot)

  /** pending holds, for each staged record, the version it carries and, as history, the gallery it was matched
      under. */
  datatype State = State(
    persisted: Snapshot, installed: Snapshot, version: string, dirty: bool, reload: bool,
    worker: Worker, owner: Owner, pending: seq<(string, Snapshot)>)

  datatype Event =
      Receive(next: Snapshot)
    | Replace(commit: Commit)
    | Flag
    | TakeDirty
    | Load
    | Install(accepted: bool)
    | Match
    | Stage(records: nat)
    | CommitRecord
    | Restart

  predicate Enabled(s: State, e: Event, model: string) {
    match e
    case Receive(next) => s.worker.Polling? && next.version != "" && next.modelHash == model
    case Replace(_) => s.worker.Received?
    case Flag => s.worker.Gap?
    case TakeDirty => s.owner.Top? && s.pending == []
    case Load => s.owner.Top? && s.pending == [] && s.reload
    case Install(_) => s.owner.Loaded?
    case Match => s.owner.Top? && s.pending == []
    case Stage(_) => s.owner.Matched? && s.pending == []
    case CommitRecord => s.owner.Top? && s.pending != []
    case Restart => true
  }

  /** A gallery for another model is refused, as if its installation had failed. */
  predicate Fits(g: Snapshot, model: string) {
    g.version == "" || g.modelHash == model
  }

  function Apply(s: State, e: Event, model: string): State
    requires Enabled(s, e, model)
  {
    match e
    case Receive(next) => s.(worker := Received(next))
    case Replace(commit) =>
      s.(persisted := if commit == RolledBack then s.persisted else s.worker.next,
         worker := if commit == Applied then Gap else Polling)
    case Flag => s.(dirty := true, worker := Polling)
    case TakeDirty => s.(dirty := false, reload := s.reload || s.dirty)
    case Load => s.(owner := Loaded(s.persisted))
    case Install(accepted) =>
      if accepted && Fits(s.owner.read, model)
      then s.(installed := s.owner.read, version := s.owner.read.version, reload := false, owner := Top)
      else s.(owner := Top)
    case Match => s.(owner := Matched(s.installed))
    case Stage(n) => s.(pending := seq(n, _ => (s.version, s.owner.under)), owner := Top)
    case CommitRecord => s.(pending := s.pending[1..])
    case Restart => State(s.persisted, s.persisted, s.persisted.version, false, false, Polling, Top, [])
  }

  ghost predicate Step(s: State, e: Event, t: State, model: string) {
    Enabled(s, e, model) && t == Apply(s, e, model)
  }

  ghost predicate Run(run: seq<State>, es: seq<Event>, model: string) {
    |run| == |es| + 1 && forall i :: 0 <= i < |es| ==> Step(run[i], es[i], run[i + 1], model)
  }

  // ---------- versions

  /** The published version names the installed gallery; every staged record carries the version it was matched
      under. */
  ghost predicate VersionsAgree(s: State) {
    && s.version == s.installed.version
    && (s.owner.Matched? ==> s.owner.under == s.installed)
    && forall k :: 0 <= k < |s.pending| ==> s.pending[k].0 == s.pending[k].1.version
  }

  lemma StepKeepsVersions(s: State, e: Event, model: string)
    requires VersionsAgree(s) && Enabled(s, e, model)
    ensures VersionsAgree(Apply(s, e, model))
  {
  }

  lemma {:induction false} RecordsCarryMatchedVersion(run: seq<State>, es: seq<Event>, model: string, i: nat)
    requires Run(run, es, model) && VersionsAgree(run[0]) && i <= |es|
    ensures VersionsAgree(run[i])
  {
    if i > 0 {
      RecordsCarryMatchedVersion(run, es, model, i - 1);
      assert Step(run[i - 1], es[i - 1], run[i], model);
      StepKeepsVersions(run[i - 1], es[i - 1], model);
    }
  }

  // ---------- updates

  /** A stored gallery that is not installed yet will still be noticed. */
  ghost predicate NoUpdateLost(s: State) {
    s.persisted != s.installed ==> s.dirty || s.reload || s.worker.Gap?
  }

  /** The gallery the owner is about to have installed. */
  function Target(s: State): Snapshot {
    if s.owner.Loaded? then s.owner.read else s.installed
  }

  /** The same, true at every moment: what the owner has read already no longer counts as noticed. */
  ghost predicate Covered(s: State) {
    && (s.owner.Loaded? ==> s.reload)
    && (s.persisted != Target(s) ==> s.dirty || s.worker.Gap? || (s.reload && !s.owner.Loaded?))
  }

  lemma CoveredIsEnough(s: State)
    requires Covered(s)
    ensures NoUpdateLost(s)
  {
  }

  /** The one commit that goes unnoticed: applied, but reported as failed. */
  predicate Unnoticed(s: State, e: Event) {
    e == Replace(Uncertain) && s.worker.Received? && s.worker.next != Target(s) && !s.dirty
      && !(s.reload && !s.owner.Loaded?)
  }

  /** A step keeps every update noticed exactly when it is not such a commit. */
  lemma StepKeepsCoveredIff(s: State, e: Event, model: string)
    requires Covered(s) && Enabled(s, e, model)
    ensures Covered(Apply(s, e, model)) <==> !Unnoticed(s, e)
  {
  }

  /** Under every interleaving without such a commit no update is lost. */
  lemma {:induction false} NoGalleryUpdateIsLost(run: seq<State>, es: seq<Event>, model: string, i: nat)
    requires Run(run, es, model) && Covered(run[0]) && i <= |es|
    requires forall k :: 0 <= k < i ==> !Unnoticed(run[k], es[k])
    ensures Covered(run[i]) && NoUpdateLost(run[i])
  {
    if i > 0 {
      NoGalleryUpdateIsLost(run, es, model, i - 1);
      assert Step(run[i - 1], es[i - 1], run[i], model);
      StepKeepsCoveredIff(run[i - 1], es[i - 1], model);
    }
    CoveredIsEnough(run[i]);
  }

  /** And from such a state the owner installs the stored gallery as soon as it comes round, if it fits. */
  lemma OwnerCatchesUp(s: State, model: string)
    requires Covered(s) && !s.worker.Gap? && s.owner.Top? && s.pending == [] && Fits(s.persisted, model)
    requires s.version == s.installed.version
    ensures var a := Apply(s, TakeDirty, model);
      if a.reload then
        && Enabled(a, Load, model)
        && var b := Apply(a, Load, model);
        && Enabled(b, Install(true), model)
        && var c := Apply(b, Install(true), model);
        && c.installed == s.persisted && c.version == s.persisted.version && c.persisted == s.persisted && !c.reload
      else s.installed == s.persisted
  {
  }

  // ---------- what happens after an unnoticed commit

  /** The stored gallery is not installed, and nobody is going to look. */
  ghost predicate Stuck(s: State) {
    s.persisted != s.installed && !s.dirty && !s.reload && s.worker.Polling? && !s.owner.Loaded?
  }

  /** The owner is about to install a gallery that is not the stored one any more, and nobody is going to look again. */
  ghost predicate Doomed(s: State) {
    s.owner.Loaded? && s.persisted != s.owner.read && !s.dirty && s.worker.Polling?
  }

  /** An unnoticed commit loses its update at once, unless the owner has read a gallery it still wants to install. */
  lemma UnnoticedLosesIff(s: State, e: Event, model: string)
    requires Covered(s) && Enabled(s, e, model) && Unnoticed(s, e)
    ensures NoUpdateLost(Apply(s, e, model)) <==> s.owner.Loaded?
    ensures if s.owner.Loaded? then Doomed(Apply(s, e, model)) else Stuck(Apply(s, e, model))
  {
  }

  /** In that case it is lost exactly when the installation succeeds; a failed one leaves the wish to reload. */
  lemma DoomedUntilInstall(s: State, e: Event, model: string)
    requires Doomed(s) && s.reload && Enabled(s, e, model) && !e.Receive? && !e.Restart?
    ensures var t := Apply(s, e, model);
      if !e.Install? then t == s
      else if e.accepted && Fits(s.owner.read, model) then Stuck(t) && !NoUpdateLost(t)
      else Covered(t) && NoUpdateLost(t)
  {
  }

  /** Over a run: up to the first unnoticed commit nothing is lost, and then it is lost at once or with the pending
      installation. */
  lemma FirstUnnoticedCommit(run: seq<State>, es: seq<Event>, model: string, i: nat)
    requires Run(run, es, model) && Covered(run[0]) && i < |es|
    requires (forall k :: 0 <= k < i ==> !Unnoticed(run[k], es[k])) && Unnoticed(run[i], es[i])
    ensures forall k :: 0 <= k <= i ==> NoUpdateLost(run[k])
    ensures NoUpdateLost(run[i + 1]) <==> run[i].owner.Loaded?
    ensures
      i + 1 < |es| && es[i + 1] == Install(true) && run[i + 1].owner.Loaded? && Fits(run[i + 1].owner.read, model) ==>
      !NoUpdateLost(run[i + 2])
  {
    forall k | 0 <= k <= i ensures NoUpdateLost(run[k]) {
      NoGalleryUpdateIsLost(run, es, model, k);
    }
    NoGalleryUpdateIsLost(run, es, model, i);
    assert Step(run[i], es[i], run[i + 1], model);
    UnnoticedLosesIff(run[i], es[i], model);
    if i + 1 < |es| && es[i + 1] == Install(true) {
      assert Step(run[i + 1], es[i + 1], run[i + 2], model);
      DoomedUntilInstall(run[i + 1], es[i + 1], model);
    }
  }

  /** Stays stuck whatever the owner does, for as long as polls are answered with "not modified" and the process
      is not restarted. */
  lemma {:induction false} StuckStays(run: seq<State>, es: seq<Event>, model: string, i: nat)
    requires Run(run, es, model) && Stuck(run[0]) && i <= |es|
    requires forall k :: 0 <= k < i ==> !es[k].Receive? && !es[k].Restart?
    ensures Stuck(run[i]) && run[i].installed == run[0].installed && run[i].persisted == run[0].persisted
  {
    if i > 0 {
      StuckStays(run, es, model, i - 1);
      assert Step(run[i - 1], es[i - 1], run[i], model);
    }
  }

  /** The state a process starts in. */
  function Started(stored: Snapshot): State {
    State(stored, stored, stored.version, false, false, Polling, Top, [])
  }

  /** A run of two steps that loses an update: the new gallery is stored, its commit reported as failed. */
  lemma UncertainCommitLosesUpdate(before: Snapshot, next: Snapshot, model: string)
    requires next.version != "" && next.modelHash == model && next != before
    ensures var s0 := Started(before);
      && Covered(s0) && VersionsAgree(s0)
      && Enabled(s0, Receive(next), model)
      && var s1 := Apply(s0, Receive(next), model);
      && Enabled(s1, Replace(Uncertain), model)
      && var s2 := Apply(s1, Replace(Uncertain), model);
      && !NoUpdateLost(s2) && Stuck(s2) && s2.persisted == next && s2.installed == before
  {
  }

  /** A poll without interference that brings a new gallery is receiving it, replacing and, when the commit is reported,
      raising the flag: it ends as the worker's step says. */
  lemma PollIsEvents(s: State, p: Poller, now: int, d: Document, header: RetryAfter, at: int, jitter: nat,
                     commit: Commit, model: string, root: real -> real)
    requires p.stored == s.persisted && p.dirty == s.dirty && now >= p.due && Storable(d, root)
    requires Enabled(s, Receive(AsSnapshot(d, root)), model)
    ensures var q := Polled(p, now, Answer(200, Some(d), header), at, jitter, commit, root).0;
      var a := Apply(s, Receive(AsSnapshot(d, root)), model);
      && Enabled(a, Replace(commit), model)
      && var b := Apply(a, Replace(commit), model);
      && (b.worker.Gap? <==> commit == Applied)
      && var c := if b.worker.Gap? then Apply(b, Flag, model) else b;
      && c == s.(persisted := q.stored, dirty := q.dirty)
  {
  }

  /** A turn of the owner without interference and with nothing staged is taking over the flag and, when a reload is
      wanted and due, loading and installing: it ends as the reload of the owner's loop says. */
  lemma ReloadIsEvents(s: State, due: bool, accepted: bool, model: string)
    requires s.owner.Top? && s.pending == []
    ensures var a := Apply(s, TakeDirty, model);
      && (a.reload && due ==> Enabled(a, Load, model) && Enabled(Apply(a, Load, model), Install(accepted), model))
      && var b := if a.reload && due then Apply(Apply(a, Load, model), Install(accepted), model) else a;
      && var wanted := s.reload || s.dirty;
      && b == if wanted && due && accepted && Fits(s.persisted, model)
              then s.(dirty := false, reload := false, installed := s.persisted, version := s.persisted.version)
              else s.(dirty := false, reload := wanted)
  {
  }
}
