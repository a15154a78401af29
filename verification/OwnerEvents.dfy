/** What the owner does to records, as events of the delivery protocol. */
module OwnerEvents {
  import opened Outbox
  import opened Delivery
  import opened Coordinator
  import opened EdgeApplication

  /** Staging the events of a frame under new ids is one event of the protocol. */
  lemma StageIsEvent(s: State, events: seq<AttendanceEvent>, ids: seq<string>, device: string, version: string,
                     rs: seq<AttendanceRecord>)
    requires s.pending == [] && |rs| == |events| == |ids|
    requires forall k :: 0 <= k < |rs| ==> rs[k] == Envelope(events[k], ids[k], device, version)
    requires forall i, j :: 0 <= i < j < |ids| ==> ids[i] != ids[j]
    requires forall k :: 0 <= k < |ids| ==> ids[k] !in s.used
    ensures Enabled(s, Stage(rs)) && Apply(s, Stage(rs)).pending == rs && Apply(s, Stage(rs)).store == s.store
  {
  }

  /** The first n commits, one event each. */
  ghost function Commits(s: State, commits: seq<Commit>, n: nat): (t: State)
    requires n <= |s.pending| == |commits|
    ensures |t.pending| >= |s.pending| - n
  {
    if n == 0 then s else Apply(Commits(s, commits, n - 1), Event.CommitNext(commits[n - 1]))
  }

  /** As long as records are stored, each commit takes the next one. */
  lemma {:induction false} StoredCommits(s: State, commits: seq<Commit>, n: nat)
    requires n <= |s.pending| == |commits| && forall i: nat :: i < n ==> Stores(s.store, s.pending, commits, i)
    ensures var t := Commits(s, commits, n);
      && t.store == EnqueuedAll(s.store, s.pending[..n]) && t.pending == s.pending[n..]
      && t.worker == s.worker && t.server == s.server && t.used == s.used
      && t.committed == s.committed + set k | 0 <= k < n :: s.pending[k].id
  {
    hide Conflicts, Enqueued;
    if n > 0 {
      StoredCommits(s, commits, n - 1);
      assert Stores(s.store, s.pending, commits, n - 1);
      assert s.pending[..n][..n - 1] == s.pending[..n - 1];
    }
  }

  /** Persisting without interference is one commit event for each staged record, up to and including the first that is
      not stored: the same outbox, the same records left. */
  lemma PersistIsEvents(s: State, commits: seq<Commit>, k: nat, after: Store)
    requires |commits| == |s.pending| && StoredUpTo(s.store, s.pending, commits, k, after)
    ensures var t := Commits(s, commits, if k < |s.pending| then k + 1 else k);
      t.store == after && t.pending == s.pending[k..] && t.worker == s.worker && t.server == s.server
  {
    hide Conflicts, Enqueued;
    StoredCommits(s, commits, k);
  }
}
