/** The delivery database as an object: each method is one transaction whose end the environment decides. */
module OutboxRepository {
  import opened Collections
  import opened IntArithmetic
  import opened Outbox

  class OutboxRepository {
    var rows: map<string, Row>
    var dead: map<string, Rejected>
    var notBefore: int

    ghost function Contents(): Store
      reads this
    {
      Store(rows, dead, notBefore)
    }

    /** Opens a new database. */
    constructor ()
      ensures Contents() == Store(map[], map[], 0)
    {
      rows, dead, notBefore := map[], map[], 0;
    }

    /** Opens a database of schema version 1: the upload pause is the latest deadline any row still has. */
    constructor Migrate(v1: map<string, Row>, rejected: map<string, Rejected>)
      ensures Contents() == Store(v1, rejected, notBefore)
      ensures v1 == map[] ==> notBefore == 0
      ensures forall id :: id in v1 ==> v1[id].next <= notBefore
      ensures v1 != map[] ==> exists id :: id in v1 && v1[id].next == notBefore
    {
      rows, dead := v1, rejected;
      var latest := LatestDeadline(v1);
      notBefore := if latest.None? then 0 else latest.value;
    }

    static method LatestDeadline(v1: map<string, Row>) returns (latest: Option<int>)
      ensures latest.None? <==> v1 == map[]
      ensures latest.Some? ==> (forall id :: id in v1 ==> v1[id].next <= latest.value)
      ensures latest.Some? ==> exists id :: id in v1 && v1[id].next == latest.value
    {
      latest := None;
      var left := v1.Keys;
      while left != {}
        invariant left <= v1.Keys
        invariant latest.None? <==> left == v1.Keys
        invariant latest.Some? ==> forall id :: id in v1 && id !in left ==> v1[id].next <= latest.value
        invariant latest.Some? ==> exists id :: id in v1 && v1[id].next == latest.value
        decreases left
      {
        var id :| id in left;
        if latest.None? || latest.value < v1[id].next {
          latest := Some(v1[id].next);
        }
        left := left - {id};
        assert id in v1.Keys && id !in left;
      }
      assert v1 == map[] <==> v1.Keys == {};
    }

    method Restore(s: Store)
      modifies this
      ensures Contents() == s
    {
      rows, dead, notBefore := s.rows, s.dead, s.notBefore;
    }

    /** Ends a transaction: a rollback puts back what was there at its begin. */
    method End(begin: Store, commit: Commit) returns (result: Outcome)
      modifies this
      ensures Contents() == After(begin, old(Contents()), commit) && result == Reported(commit)
    {
      if commit == RolledBack {
        Restore(begin);
      }
      result := Reported(commit);
    }

    /** A plain insert. It does not look at the rejected rows. */
    method Enqueue(r: AttendanceRecord, commit: Commit) returns (result: Outcome)
      modifies this
      ensures r.id in old(rows) ==> result == StorageError && Contents() == old(Contents())
      ensures r.id !in old(rows) ==> result == Reported(commit)
      ensures r.id !in old(rows) ==>
        Contents() == After(old(Contents()), old(Contents()).(rows := old(rows)[r.id := NewRow(r)]), commit)
    {
      var begin := Store(rows, dead, notBefore);
      if r.id in rows {
        return StorageError;
      }
      rows := rows[r.id := NewRow(r)];
      result := End(begin, commit);
    }

    /** Stores a record, or finds it stored or rejected already. */
    method EnsureEnqueued(r: AttendanceRecord, commit: Commit) returns (result: Outcome)
      modifies this
      ensures Conflicts(old(Contents()), r) ==> result == Conflict && Contents() == old(Contents())
      ensures !Conflicts(old(Contents()), r) ==>
        Contents() == After(old(Contents()), Enqueued(old(Contents()), r), commit) && result == Reported(commit)
    {
      var begin := Store(rows, dead, notBefore);
      if r.id in rows {
        if rows[r.id].payload != r.payload || rows[r.id].occurred != r.occurred {
          return Conflict;
        }
        result := End(begin, commit);
        return;
      }
      if r.id in dead {
        if dead[r.id].payload != r.payload {
          return Conflict;
        }
        result := End(begin, commit);
        return;
      }
      rows := rows[r.id := NewRow(r)];
      result := End(begin, commit);
    }

    /** The first rows that may be uploaded now, at most 100. */
    method Due(now: int, limit: nat) returns (out: seq<AttendanceRecord>)
      ensures FirstDue(out, Contents(), now, if limit < 100 then limit else 100)
    {
      hide DueSoFar, FirstDue;
      ghost var s := Contents();
      var most := if limit < 100 then limit else 100;
      out := [];
      var left := set id | id in rows && rows[id].next <= now && notBefore <= now;
      NothingDueYet(s, left, now);
      while left != {} && |out| < most
        invariant |out| <= most && left <= rows.Keys
        invariant DueSoFar(out, left, s, now)
        decreases left
      {
        var id := First(rows, left);
        OneMoreDue(out, left, s, now, id);
        out := out + [RecordOf(id, rows[id])];
        left := left - {id};
      }
      AllDue(out, left, s, now, most);
    }

    static method First(rows: map<string, Row>, ids: set<string>) returns (id: string)
      requires ids != {} && ids <= rows.Keys
      ensures id in ids && forall x :: x in ids && x != id ==> Earlier(rows, id, x)
    {
      id :| id in ids;
      var left := ids - {id};
      while left != {}
        invariant left <= ids && id in ids && id !in left
        invariant forall x :: x in ids && x !in left && x != id ==> Earlier(rows, id, x)
        decreases left
      {
        var x :| x in left;
        EarlierIsTotal(rows, id, x);
        if Earlier(rows, x, id) {
          forall y | y in ids && y !in left && y != id ensures Earlier(rows, x, y) {
            EarlierIsTransitive(rows, x, id, y);
          }
          id := x;
        }
        left := left - {x};
      }
    }

    /** Postpones the listed rows, and with them every upload. */
    method Retry(rs: seq<AttendanceRecord>, next: int, reason: Reason, commit: Commit) returns (result: Outcome)
      modifies this
      ensures rs == [] ==> Contents() == old(Contents()) && result == Done
      ensures rs != [] ==>
        Contents() == After(old(Contents()), Retried(old(Contents()), rs, next, reason), commit)
          && result == Reported(commit)
    {
      if rs == [] {
        return Done;
      }
      var begin := Store(rows, dead, notBefore);
      notBefore := Max(notBefore, next);
      for k := 0 to |rs|
        invariant Contents() == Store(RowsRetried(begin.rows, rs[..k], next, reason), begin.dead,
                                      Max(begin.notBefore, next))
      {
        assert rs[..k + 1][..k] == rs[..k];
        if rs[k].id in rows {
          rows := rows[rs[k].id := Bumped(rows[rs[k].id], next, reason)];
        }
      }
      assert rs[..|rs|] == rs;
      result := End(begin, commit);
    }

    /** Inserts the row into the rejected ones and deletes it; ok is false when its id is rejected already. */
    method Bury(id: string, reason: Reason) returns (ok: bool)
      modifies this
      ensures ok <==> Buried(old(Contents()), id, reason).Some?
      ensures Contents() == if ok then Buried(old(Contents()), id, reason).value else old(Contents())
    {
      if id in rows {
        if id in dead {
          return false;
        }
        dead := dead[id := Rejected(rows[id].payload, reason)];
      }
      rows := rows - {id};
      ok := true;
    }

    /** Removes the rows the receipts settle; rejected ones are kept aside. */
    method Acknowledge(rs: seq<Receipt>, commit: Commit) returns (result: Outcome)
      modifies this
      ensures (exists k :: 0 <= k < |rs| && !ValidDisposition(rs[k].disposition)) ==>
        result == InvalidDisposition && Contents() == old(Contents())
      ensures (forall k :: 0 <= k < |rs| ==> ValidDisposition(rs[k].disposition)) ==>
        var next := Acknowledged(old(Contents()), rs);
        if next.None? then result == StorageError && Contents() == old(Contents())
        else result == Reported(commit) && Contents() == After(old(Contents()), next.value, commit)
    {
      for k := 0 to |rs|
        invariant forall j :: 0 <= j < k ==> ValidDisposition(rs[j].disposition)
        invariant Contents() == old(Contents())
      {
        if !ValidDisposition(rs[k].disposition) {
          return InvalidDisposition;
        }
      }
      var begin := Store(rows, dead, notBefore);
      for k := 0 to |rs|
        invariant Acknowledged(begin, rs[..k]) == Some(Contents())
      {
        AcknowledgedStep(begin, rs, k);
        if rs[k].disposition == "rejected" {
          var ok := Bury(rs[k].id, BusinessRejected);
          if !ok {
            Restore(begin);
            return StorageError;
          }
        } else {
          rows := rows - {rs[k].id};
        }
      }
      assert rs[..|rs|] == rs;
      result := End(begin, commit);
    }

    /** Rejects all listed rows. */
    method DeadLetter(rs: seq<AttendanceRecord>, reason: Reason, commit: Commit) returns (result: Outcome)
      modifies this
      ensures var next := AllBuried(old(Contents()), rs, reason);
        if next.None? then result == StorageError && Contents() == old(Contents())
        else result == Reported(commit) && Contents() == After(old(Contents()), next.value, commit)
    {
      var begin := Store(rows, dead, notBefore);
      for k := 0 to |rs|
        invariant AllBuried(begin, rs[..k], reason) == Some(Contents())
      {
        AllBuriedStep(begin, rs, k, reason);
        var ok := Bury(rs[k].id, reason);
        if !ok {
          Restore(begin);
          return StorageError;
        }
      }
      assert rs[..|rs|] == rs;
      result := End(begin, commit);
    }
  }

  /** One receipt more; where it fails, the whole list fails. */
  lemma AcknowledgedStep(s: Store, rs: seq<Receipt>, k: nat)
    requires k < |rs| && Acknowledged(s, rs[..k]).Some?
    ensures Acknowledged(s, rs[..k + 1]) == Settled(Acknowledged(s, rs[..k]).value, rs[k])
    ensures Acknowledged(s, rs[..k + 1]).None? ==> Acknowledged(s, rs).None?
  {
    assert rs[..k + 1][..k] == rs[..k];
    if Acknowledged(s, rs[..k + 1]).None? {
      AcknowledgedFails(s, rs, k + 1);
    }
  }

  lemma {:induction false} AcknowledgedFails(s: Store, rs: seq<Receipt>, k: nat)
    requires k <= |rs| && Acknowledged(s, rs[..k]).None?
    ensures Acknowledged(s, rs).None?
    decreases |rs| - k
  {
    if k < |rs| {
      assert rs[..k + 1][..k] == rs[..k];
      AcknowledgedFails(s, rs, k + 1);
    } else {
      assert rs[..k] == rs;
    }
  }

  lemma AllBuriedStep(s: Store, rs: seq<AttendanceRecord>, k: nat, reason: Reason)
    requires k < |rs| && AllBuried(s, rs[..k], reason).Some?
    ensures AllBuried(s, rs[..k + 1], reason) == Buried(AllBuried(s, rs[..k], reason).value, rs[k].id, reason)
    ensures AllBuried(s, rs[..k + 1], reason).None? ==> AllBuried(s, rs, reason).None?
  {
    assert rs[..k + 1][..k] == rs[..k];
    if AllBuried(s, rs[..k + 1], reason).None? {
      AllBuriedFails(s, rs, k + 1, reason);
    }
  }

  lemma {:induction false} AllBuriedFails(s: Store, rs: seq<AttendanceRecord>, k: nat, reason: Reason)
    requires k <= |rs| && AllBuried(s, rs[..k], reason).None?
    ensures AllBuried(s, rs, reason).None?
    decreases |rs| - k
  {
    if k < |rs| {
      assert rs[..k + 1][..k] == rs[..k];
      AllBuriedFails(s, rs, k + 1, reason);
    } else {
      assert rs[..k] == rs;
    }
  }

  /** The plain insert keeps waiting and rejected ids apart exactly when the id is not a rejected one. */
  lemma EnqueueKeepsDisjointIff(s: Store, r: AttendanceRecord)
    requires Disjoint(s) && r.id !in s.rows
    ensures Disjoint(s.(rows := s.rows[r.id := NewRow(r)])) <==> r.id !in s.dead
  {
    var t := s.(rows := s.rows[r.id := NewRow(r)]);
    assert r.id in t.rows;
  }

  /** The rows taken so far, in order; all that are left come later. */
  ghost predicate DueSoFar(out: seq<AttendanceRecord>, left: set<string>, s: Store, now: int) {
    && (forall id :: id in left ==> Eligible(s, id, now) && !Listed(out, id))
    && (forall id :: Eligible(s, id, now) && id !in left ==> Listed(out, id))
    && (forall k :: 0 <= k < |out| ==> Eligible(s, out[k].id, now) && out[k] == RecordOf(out[k].id, s.rows[out[k].id]))
    && (forall j, k :: 0 <= j < k < |out| ==> Earlier(s.rows, out[j].id, out[k].id))
    && (forall k, id :: 0 <= k < |out| && id in left ==> Earlier(s.rows, out[k].id, id))
  }

  lemma NothingDueYet(s: Store, left: set<string>, now: int)
    requires left == set id | id in s.rows && s.rows[id].next <= now && s.notBefore <= now
    ensures DueSoFar([], left, s, now)
  {
  }

  lemma OneMoreDue(out: seq<AttendanceRecord>, left: set<string>, s: Store, now: int, id: string)
    requires DueSoFar(out, left, s, now) && id in left && left <= s.rows.Keys
    requires forall x :: x in left && x != id ==> Earlier(s.rows, id, x)
    ensures DueSoFar(out + [RecordOf(id, s.rows[id])], left - {id}, s, now)
  {
    hide Earlier, Listed;
    var r := RecordOf(id, s.rows[id]);
    forall x ensures Listed(out + [r], x) <==> Listed(out, x) || x == id {
      ListedGrows(out, r, x);
    }
  }

  lemma AllDue(out: seq<AttendanceRecord>, left: set<string>, s: Store, now: int, most: nat)
    requires DueSoFar(out, left, s, now) && |out| <= most && (left == {} || |out| == most)
    ensures FirstDue(out, s, now, most)
  {
    hide Earlier, Listed;
  }
}
