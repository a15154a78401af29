/** The gallery: what is stored of it, and the worker's polling for a newer one. */
module Gallery {
  import opened Collections
  import opened IntArithmetic
  import opened Outbox
  import RealArithmetic
  import opened RetryPolicy
  import opened UnitVectors

  datatype Template = Template(identity: string, embedding: seq<real>)

  /** A gallery revision; templates are keyed by their id. The empty version stands for no gallery. */
  datatype Snapshot = Snapshot(version: string, etag: string, modelHash: string, templates: map<string, Template>)

  function NoGallery(): Snapshot {
    Snapshot("", "", "", map[])
  }

  /** A gallery as it comes off the wire, checked against the expected model. */
  datatype Document = Document(version: string, etag: string, modelHash: string, ids: seq<string>,
                               templates: seq<Template>)

  /** The templates by id, where no id occurs twice. */
  function ById(ids: seq<string>, templates: seq<Template>): map<string, Template>
    requires |ids| == |templates|
  {
    if ids == [] then map[] else ById(ids[..|ids| - 1], templates[..|ids| - 1])[ids[|ids| - 1] := templates[|ids| - 1]]
  }

  lemma {:induction false} ByIdFinds(ids: seq<string>, templates: seq<Template>)
    requires |ids| == |templates| && Distinct(ids)
    ensures forall id :: id in ById(ids, templates) <==> id in ids
    ensures forall k :: 0 <= k < |ids| ==> ById(ids, templates)[ids[k]] == templates[k]
  {
    if ids != [] {
      var n := |ids| - 1;
      var front := ById(ids[..n], templates[..n]);
      ByIdFinds(ids[..n], templates[..n]);
      forall id ensures id in ids <==> id in ids[..n] || id == ids[n] {
        assert ids == ids[..n] + [ids[n]];
      }
      forall k | 0 <= k < n ensures ids[k] != ids[n] && front[ids[k]] == templates[k] {
        assert ids[..n][k] == ids[k] && templates[..n][k] == templates[k];
      }
    }
  }

  /** A template the repository takes: it says who, and its embedding has a direction. */
  ghost predicate Acceptable(t: Template, root: real -> real) {
    t.identity != "" && Norm(t.embedding, root) >= SMALLEST_NORM
  }

  /** The document can be stored. */
  ghost predicate Storable(d: Document, root: real -> real) {
    && |d.ids| == |d.templates| && d.version != "" && Distinct(d.ids)
    && forall k :: 0 <= k < |d.templates| ==> Acceptable(d.templates[k], root)
  }

  /** The templates with their embeddings brought to length one. */
  ghost function Normalised(templates: seq<Template>, root: real -> real): (r: seq<Template>)
    requires forall k :: 0 <= k < |templates| ==> Acceptable(templates[k], root)
    ensures |r| == |templates|
  {
    seq(|templates|, k requires 0 <= k < |templates| && Acceptable(templates[k], root) =>
      Template(templates[k].identity, Unit(templates[k].embedding, root)))
  }

  ghost function AsSnapshot(d: Document, root: real -> real): Snapshot
    requires Storable(d, root)
  {
    Snapshot(d.version, d.etag, d.modelHash, ById(d.ids, Normalised(d.templates, root)))
  }

  /** Every stored template is acceptable again, and normalising it again changes nothing. */
  lemma StoredAreUnit(d: Document, root: real -> real, id: string)
    requires Storable(d, root) && RealArithmetic.IsRoot(root) && id in AsSnapshot(d, root).templates
    ensures var t := AsSnapshot(d, root).templates[id];
      && Acceptable(t, root) && Dot(t.embedding, t.embedding) == 1.0 && Unit(t.embedding, root) == t.embedding
  {
    hide Dot, Norm, Unit;
    ByIdFinds(d.ids, Normalised(d.templates, root));
    var k :| 0 <= k < |d.ids| && d.ids[k] == id;
    assert Acceptable(d.templates[k], root);
    UnitHasLengthOne(d.templates[k].embedding, root);
    UnitOfUnit(d.templates[k].embedding, root);
  }

  datatype Replaced = Replaced | InvalidSnapshot | ReplaceFailed

  class GalleryRepository {
    const root: real -> real
    var stored: Snapshot

    constructor (squareRoot: real -> real)
      ensures stored == NoGallery() && root == squareRoot
    {
      stored, root := NoGallery(), squareRoot;
    }

    /** Inserts the templates one by one; an id that is there already fails the whole. */
    static method Insert(ids: seq<string>, templates: seq<Template>) returns (rows: Option<map<string, Template>>)
      requires |ids| == |templates|
      ensures rows.Some? <==> Distinct(ids)
      ensures rows.Some? ==> rows.value == ById(ids, templates)
    {
      var inserted: map<string, Template> := map[];
      for k := 0 to |ids|
        invariant inserted == ById(ids[..k], templates[..k]) && Distinct(ids[..k])
      {
        assert ids[..k + 1][..k] == ids[..k] && templates[..k + 1][..k] == templates[..k];
        ByIdFinds(ids[..k], templates[..k]);
        if ids[k] in inserted {
          return None;
        }
        inserted := inserted[ids[k] := templates[k]];
      }
      assert ids[..|ids|] == ids && templates[..|ids|] == templates;
      rows := Some(inserted);
    }

    /** Replaces the stored gallery as a whole, with embeddings of length one, or leaves it. */
    method Replace(d: Document, commit: Commit) returns (result: Replaced)
      modifies this
      ensures result == Replaced ==> Storable(d, root) && commit == Applied
      ensures Storable(d, root) ==> stored == (if commit == RolledBack then old(stored) else AsSnapshot(d, root))
      ensures !Storable(d, root) ==> stored == old(stored) && result != Replaced
      ensures Storable(d, root) && commit == Applied ==> result == Replaced
    {
      hide Norm, Unit;
      if |d.ids| != |d.templates| || d.version == "" {
        return InvalidSnapshot;
      }
      var values: seq<Template> := [];
      for k := 0 to |d.templates|
        invariant |values| == k && forall j :: 0 <= j < k ==> Acceptable(d.templates[j], root)
        invariant forall j :: 0 <= j < k ==>
          values[j] == Template(d.templates[j].identity, Unit(d.templates[j].embedding, root))
      {
        if d.templates[k].identity == "" {
          return InvalidSnapshot;
        }
        if Norm(d.templates[k].embedding, root) < SMALLEST_NORM {
          return InvalidSnapshot;
        }
        values := values + [Template(d.templates[k].identity, Unit(d.templates[k].embedding, root))];
      }
      assert values == Normalised(d.templates, root);
      var begin := stored;
      var rows := Insert(d.ids, values);
      if rows.None? {
        return ReplaceFailed;
      }
      stored := Snapshot(d.version, d.etag, d.modelHash, rows.value);
      if commit == RolledBack {
        stored := begin;
      }
      result := if commit == Applied then Replaced else ReplaceFailed;
    }
  }

  // ---------- polling

  /** The server's answer to a poll; a body that cannot be used is no document. */
  datatype Poll = NoAnswer | Answer(status: int, document: Option<Document>, retryAfter: RetryAfter)

  datatype PollResult = PollContinue | PollBlocked | PollFailed

  /** What one poll can change. */
  datatype Poller = Poller(stored: Snapshot, due: int, attempts: int, dirty: bool)

  /** After a failed poll: the more failures in a row, the longer the wait. */
  function Later(p: Poller, at: int, header: RetryAfter, jitter: nat): Poller {
    p.(due := RetryAt(at, p.attempts, header, jitter), attempts := Min(p.attempts + 1, 30))
  }

  const POLL_INTERVAL := 60000

  /** A notification shortens the wait for the next ordinary poll, but never the wait after a failure. */
  function Hurried(p: Poller): Poller {
    if p.attempts == 0 then p.(due := 0) else p
  }

  /** The document is stored; the flag goes up only once the commit was reported. */
  ghost function Taken(p: Poller, d: Document, at: int, commit: Commit, root: real -> real): (Poller, PollResult) {
    if !Storable(d, root) then (p, PollFailed)
    else match commit
      case Applied => (Poller(AsSnapshot(d, root), at + POLL_INTERVAL, 0, true), PollContinue)
      case RolledBack => (p, PollFailed)
      case Uncertain => (p.(stored := AsSnapshot(d, root)), PollFailed)
  }

  /** One poll at time now, answered at time at. */
  ghost function Polled(p: Poller, now: int, poll: Poll, at: int, jitter: nat, commit: Commit,
                        root: real -> real): (Poller, PollResult) {
    if now < p.due then (p, PollContinue)
    else match poll
      case NoAnswer => (Later(p, at, Missing, jitter), PollContinue)
      case Answer(status, document, retryAfter) =>
        if status == 401 || status == 403 then (p, PollBlocked)
        else if status == 304 && p.stored.version != "" then (p.(due := at + POLL_INTERVAL, attempts := 0),
                                                              PollContinue)
        else if status == 200 && document.Some? then Taken(p, document.value, at, commit, root)
        else (Later(p, at, retryAfter, jitter), PollContinue)
  }

  /** What the owner may rely on: a changed gallery is flagged unless its commit went unreported, a flag is never
      lowered, and what is stored came with status 200. */
  lemma ChangeIsFlagged(p: Poller, now: int, poll: Poll, at: int, jitter: nat, commit: Commit, root: real -> real)
    ensures var q := Polled(p, now, poll, at, jitter, commit, root).0;
      && (p.dirty ==> q.dirty)
      && (q.stored != p.stored ==> (q.dirty <==> p.dirty || commit == Applied) && commit != RolledBack)
      && (q.stored != p.stored ==>
          poll.Answer? && poll.status == 200 && poll.document.Some? && Storable(poll.document.value, root)
                                   && q.stored == AsSnapshot(poll.document.value, root))
      && (q.dirty && !p.dirty ==>
            commit == Applied && poll.Answer? && poll.document.Some?
              && q.stored == AsSnapshot(poll.document.value, root))
  {
  }

  /** The next poll waits: a minute after a success, at least the back-off after a failure, and not at all after an
      error. */
  lemma PollsArePaced(p: Poller, now: int, poll: Poll, at: int, jitter: nat, commit: Commit, root: real -> real)
    requires now >= p.due && 0 <= p.attempts <= 30
    ensures var (q, result) := Polled(p, now, poll, at, jitter, commit, root);
      if result != PollContinue then q.due == p.due && q.attempts == p.attempts
      else if q.attempts == 0 then q.due == at + POLL_INTERVAL
      else q.due >= at + Delay(p.attempts) && p.attempts <= q.attempts && 1 <= q.attempts <= 30
  {
    hide RetryAt;
    RetryAtBounds(at, p.attempts, Missing, jitter);
    if poll.Answer? {
      RetryAtBounds(at, p.attempts, poll.retryAfter, jitter);
    }
  }

  /** The poll succeeded: nothing is newer, or what is newer is stored and its commit reported. */
  ghost predicate Refreshes(p: Poller, poll: Poll, commit: Commit, root: real -> real) {
    && poll.Answer?
    && ((poll.status == 304 && p.stored.version != "")
        || (poll.status == 200 && poll.document.Some? && Storable(poll.document.value, root) && commit == Applied))
  }

  /** The database failed while storing a document that came with status 200, or refused it. */
  ghost predicate StoringFails(poll: Poll, commit: Commit, root: real -> real) {
    && poll.Answer? && poll.status == 200 && poll.document.Some?
    && (commit != Applied || !Storable(poll.document.value, root))
  }

  /** A document that can be stored came with status 200, and its commit took effect, reported or not. */
  ghost predicate StoresNew(poll: Poll, commit: Commit, root: real -> real) {
    && poll.Answer? && poll.status == 200 && poll.document.Some? && Storable(poll.document.value, root)
    && commit != RolledBack
  }

  /** What a poll does, told from the status. */
  lemma PollFollowsStatus(p: Poller, now: int, poll: Poll, at: int, jitter: nat, commit: Commit, root: real -> real)
    requires 0 <= p.attempts <= 30
    ensures var (q, result) := Polled(p, now, poll, at, jitter, commit, root);
      if now < p.due then q == p && result == PollContinue
      else if poll.Answer? && poll.status in {401, 403} then q == p && result == PollBlocked
      else if StoringFails(poll, commit, root) then q == p.(stored := q.stored) && result == PollFailed
      else if Refreshes(p, poll, commit, root) then q.attempts == 0 && q.due == at + 60000 && result == PollContinue
      else
        && q == p.(due := q.due, attempts := if p.attempts < 30 then p.attempts + 1 else 30)
        && q.due >= at + Delay(p.attempts) && result == PollContinue
        && (poll.NoAnswer? || poll.retryAfter.Missing? || poll.retryAfter.Unreadable? ==> q.due <= at + 300500)
    ensures now >= p.due && StoresNew(poll, commit, root) ==>
      Polled(p, now, poll, at, jitter, commit, root).0.stored == AsSnapshot(poll.document.value, root)
  {
    hide RetryAt, Storable;
    RetryAtBounds(at, p.attempts, Missing, jitter);
    if poll.Answer? {
      RetryAtBounds(at, p.attempts, poll.retryAfter, jitter);
    }
  }

  /** Each template of the document is stored under its id, for the same person and in the same direction. */
  lemma StoredKeepDirection(d: Document, root: real -> real, k: nat)
    requires Storable(d, root) && RealArithmetic.IsRoot(root) && k < |d.ids|
    ensures var g := AsSnapshot(d, root);
      && g.version == d.version && g.etag == d.etag && g.modelHash == d.modelHash && d.ids[k] in g.templates
      && g.templates[d.ids[k]].identity == d.templates[k].identity
      && var e, f := g.templates[d.ids[k]].embedding, d.templates[k].embedding;
         |e| == |f| && forall i :: 0 <= i < |f| ==> e[i] * Norm(f, root) == f[i]
  {
    hide Norm, Unit;
    ByIdFinds(d.ids, Normalised(d.templates, root));
    assert Acceptable(d.templates[k], root);
    var f := d.templates[k].embedding;
    UnitKeepsDirection(f, seq(|f|, _ => 0.0), root);
  }

  /** However often the server is notified of, the wait after a failure lasts. */
  lemma BackOffSurvivesNotices(p: Poller, at: int, header: RetryAfter, jitter: nat)
    requires p.attempts >= 0
    ensures Hurried(Later(p, at, header, jitter)) == Later(p, at, header, jitter)
  {
  }

  class GallerySync {
    const gallery: GalleryRepository
    var due: int
    var attempts: int
    var dirty: bool

    constructor (g: GalleryRepository)
      ensures gallery == g && due == 0 && attempts == 0 && !dirty
    {
      gallery, due, attempts, dirty := g, 0, 0, false;
    }

    method ResetPoll()
      modifies this`due
      ensures due == 0
    {
      due := 0;
    }

    /** Reads and clears the flag in one step. */
    method TakeDirty() returns (was: bool)
      modifies this`dirty
      ensures was == old(dirty) && !dirty
    {
      was := dirty;
      dirty := false;
    }

    /** The fields and the stored gallery. */
    ghost function Now(): Poller
      reads this, gallery
    {
      Poller(gallery.stored, due, attempts, dirty)
    }

    method RequestRefresh()
      modifies this`due
      ensures Now() == Hurried(old(Now()))
    {
      if attempts == 0 {
        due := 0;
      }
    }

    method Fail(at: int, header: RetryAfter, jitter: nat)
      modifies this`due, this`attempts
      ensures Now() == Later(old(Now()), at, header, jitter)
    {
      due := RetryAt(at, attempts, header, jitter);
      attempts := Min(attempts + 1, 30);
    }

    /** One poll. */
    method Step(now: int, poll: Poll, at: int, jitter: nat, commit: Commit) returns (result: PollResult)
      modifies this, gallery
      ensures (Now(), result) == Polled(old(Now()), now, poll, at, jitter, commit, gallery.root)
    {
      if now < due {
        return PollContinue;
      }
      if poll.NoAnswer? {
        Fail(at, Missing, jitter);
        return PollContinue;
      }
      if poll.status == 401 || poll.status == 403 {
        return PollBlocked;
      }
      if poll.status == 304 && gallery.stored.version != "" {
        due, attempts := at + POLL_INTERVAL, 0;
        return PollContinue;
      }
      if poll.status == 200 && poll.document.Some? {
        var replaced := gallery.Replace(poll.document.value, commit);
        if replaced != Replaced {
          return PollFailed;
        }
        dirty := true;
        due, attempts := at + POLL_INTERVAL, 0;
        return PollContinue;
      }
      Fail(at, poll.retryAfter, jitter);
      return PollContinue;
    }
  }
}
