/** What the delivery database holds, and what each of its transactions does to it. */
module Outbox {
  import opened Collections
  import opened IntArithmetic
  import opened Texts

  /** Where a stored text would say why an upload failed. */
  datatype Reason = NoError | TransportFailure | MissingAck | InvalidAck | HttpStatus(status: int)
    | SchemaRejected(status: int)
                  | BusinessRejected

  /** The envelope of one attendance event, as it is uploaded. */
  datatype Payload = Payload(
    eventId: string, occurred: int, device: string, identity: string, galleryVersion: string, track: nat, frame: nat,
    similarity: real, margin: real, padReal: real)

  /** An attendance record as the owner creates it, with the delivery fields the database reports. */
  datatype AttendanceRecord = AttendanceRecord(id: string, payload: Payload, occurred: int, next: int, attempts: int)

  datatype Row = Row(payload: Payload, occurred: int, attempts: int, next: int, error: Reason)

  datatype Rejected = Rejected(payload: Payload, reason: Reason)

  /** The rows still to upload, the rejected ones, and the time before which nothing is uploaded. */
  datatype Store = Store(rows: map<string, Row>, dead: map<string, Rejected>, notBefore: int)

  datatype Receipt = Receipt(id: string, disposition: string)

  // ---------- the order of uploads

  /** Oldest first, then by id. */
  predicate Earlier(rows: map<string, Row>, a: string, b: string)
    requires a in rows && b in rows
  {
    rows[a].occurred < rows[b].occurred || (rows[a].occurred == rows[b].occurred && Before(a, b))
  }

  lemma EarlierIsTotal(rows: map<string, Row>, a: string, b: string)
    requires a in rows && b in rows
    ensures a == b || Earlier(rows, a, b) || Earlier(rows, b, a)
    ensures !(Earlier(rows, a, b) && Earlier(rows, b, a)) && !Earlier(rows, a, a)
  {
    BeforeIsTotal(a, b);
  }

  lemma EarlierIsTransitive(rows: map<string, Row>, a: string, b: string, c: string)
    requires a in rows && b in rows && c in rows && Earlier(rows, a, b) && Earlier(rows, b, c)
    ensures Earlier(rows, a, c)
  {
    if rows[a].occurred == rows[b].occurred == rows[c].occurred {
      BeforeIsTransitive(a, b, c);
    }
  }

  /** The row may be uploaded now. */
  predicate Eligible(s: Store, id: string, now: int) {
    id in s.rows && s.rows[id].next <= now && s.notBefore <= now
  }

  function RecordOf(id: string, row: Row): AttendanceRecord {
    AttendanceRecord(id, row.payload, row.occurred, row.next, row.attempts)
  }

  /** The first limit eligible rows, in upload order. */
  ghost predicate FirstDue(out: seq<AttendanceRecord>, s: Store, now: int, limit: nat) {
    && |out| <= limit
    && (forall k :: 0 <= k < |out| ==> Eligible(s, out[k].id, now) && out[k] == RecordOf(out[k].id, s.rows[out[k].id]))
    && (forall j, k :: 0 <= j < k < |out| ==> Earlier(s.rows, out[j].id, out[k].id))
    && (forall id :: Eligible(s, id, now) && !Listed(out, id) ==>
          |out| == limit && forall k :: 0 <= k < |out| ==> Earlier(s.rows, out[k].id, id))
  }

  ghost predicate Listed(out: seq<AttendanceRecord>, id: string) {
    exists k :: 0 <= k < |out| && out[k].id == id
  }

  /** There is only one such list. */
  lemma {:induction false} FirstDueIsUnique(a: seq<AttendanceRecord>, b: seq<AttendanceRecord>, s: Store, now: int,
                                            limit: nat, k: nat)
    requires FirstDue(a, s, now, limit) && FirstDue(b, s, now, limit) && k <= |a|
    ensures k <= |b| && a[..k] == b[..k]
  {
    if k > 0 {
      FirstDueIsUnique(a, b, s, now, limit, k - 1);
      NextDueIn(a, b, s, now, limit, k - 1);
      NextDueIn(b, a, s, now, limit, k - 1);
      EarlierIsTotal(s.rows, a[k - 1].id, b[k - 1].id);
      assert a[..k] == a[..k - 1] + [a[k - 1]] && b[..k] == b[..k - 1] + [b[k - 1]];
    }
  }

  /** Where two such lists agree so far, the next of one is not before the next of the other. */
  lemma NextDueIn(a: seq<AttendanceRecord>, b: seq<AttendanceRecord>, s: Store, now: int, limit: nat, k: nat)
    requires FirstDue(a, s, now, limit) && FirstDue(b, s, now, limit) && k < |a| && k <= |b| && a[..k] == b[..k]
    ensures k < |b| && !Earlier(s.rows, a[k].id, b[k].id)
  {
    var id := a[k].id;
    assert Eligible(s, id, now);
    forall j | 0 <= j < k ensures b[j].id != id {
      assert a[..k][j] == b[..k][j];
      EarlierIsTotal(s.rows, a[j].id, id);
    }
    if Listed(b, id) {
      var j :| 0 <= j < |b| && b[j].id == id;
      EarlierIsTotal(s.rows, b[k].id, id);
    } else if k < |b| {
      assert Earlier(s.rows, b[k].id, id);
      EarlierIsTotal(s.rows, b[k].id, id);
    }
  }

  /** The record comes first in the list: it is older, or of the same time and first in the dictionary. */
  ghost predicate Older(time: int, id: string, time': int, id': string) {
    time < time' || (time == time' && exists k: nat :: FirstDifference(id, id', k))
  }

  /** Due, but not in the list. */
  ghost predicate LeftOut(out: seq<AttendanceRecord>, s: Store, id: string, now: int) {
    id in s.rows && s.rows[id].next <= now && s.notBefore <= now && forall j :: 0 <= j < |out| ==> out[j].id != id
  }

  /** Oldest events go first: within a batch, and against everything eligible that is left out of it. */
  lemma OldestGoFirst(out: seq<AttendanceRecord>, s: Store, now: int, limit: nat)
    requires FirstDue(out, s, now, limit)
    ensures forall j, k :: 0 <= j < k < |out| ==> Older(out[j].occurred, out[j].id, out[k].occurred, out[k].id)
    ensures forall k, id :: 0 <= k < |out| && LeftOut(out, s, id, now) ==>
      Older(out[k].occurred, out[k].id, s.rows[id].occurred, id)
    ensures |out| < limit ==> forall id :: id in s.rows && s.rows[id].next <= now && s.notBefore <= now ==>
      exists j :: 0 <= j < |out| && out[j].id == id
  {
    hide Older;
    forall j, k | 0 <= j < k < |out| ensures Older(out[j].occurred, out[j].id, out[k].occurred, out[k].id) {
      EarlierIsOlder(s.rows, out[j].id, out[k].id);
    }
    forall k, id | 0 <= k < |out| && LeftOut(out, s, id, now)
      ensures Older(out[k].occurred, out[k].id, s.rows[id].occurred, id)
    {
      assert Eligible(s, id, now) && !Listed(out, id);
      EarlierIsOlder(s.rows, out[k].id, id);
    }
    forall id | id in s.rows && s.rows[id].next <= now && s.notBefore <= now && |out| < limit
      ensures exists j :: 0 <= j < |out| && out[j].id == id
    {
      assert Eligible(s, id, now);
      assert Listed(out, id);
    }
  }

  lemma EarlierIsOlder(rows: map<string, Row>, a: string, b: string)
    requires a in rows && b in rows && Earlier(rows, a, b)
    ensures Older(rows[a].occurred, a, rows[b].occurred, b)
  {
    BeforeIff(a, b);
  }

  // ---------- transactions

  /** How a transaction ends: applied; rolled back; or applied although COMMIT reported an error. */
  datatype Commit = Applied | RolledBack | Uncertain

  /** What the caller sees. */
  datatype Outcome = Done | StorageError | Conflict | InvalidDisposition

  function Reported(c: Commit): Outcome {
    if c == Applied then Done else StorageError
  }

  function After(before: Store, after: Store, c: Commit): Store {
    if c == RolledBack then before else after
  }

  function NewRow(r: AttendanceRecord): Row {
    Row(r.payload, r.occurred, 0, 0, NoError)
  }

  /** The record's id is in use for something else. */
  predicate Conflicts(s: Store, r: AttendanceRecord) {
    if r.id in s.rows then s.rows[r.id].payload != r.payload || s.rows[r.id].occurred != r.occurred
    else r.id in s.dead && s.dead[r.id].payload != r.payload
  }

  /** The record is stored, unless it is already, or was rejected. */
  function Enqueued(s: Store, r: AttendanceRecord): Store {
    if r.id in s.rows || r.id in s.dead then s else s.(rows := s.rows[r.id := NewRow(r)])
  }

  function Bumped(row: Row, next: int, reason: Reason): Row {
    row.(attempts := Min(row.attempts + 1, 30), next := next, error := reason)
  }

  /** Each listed row is postponed, one after the other. */
  function RowsRetried(rows: map<string, Row>, rs: seq<AttendanceRecord>, next: int, reason: Reason): map<string, Row> {
    if rs == [] then rows else
    var rest, id := RowsRetried(rows, rs[..|rs| - 1], next, reason), rs[|rs| - 1].id;
    if id in rest then rest[id := Bumped(rest[id], next, reason)] else rest
  }

  function Retried(s: Store, rs: seq<AttendanceRecord>, next: int, reason: Reason): Store {
    if rs == [] then s
    else s.(rows := RowsRetried(s.rows, rs, next, reason), notBefore := Max(s.notBefore, next))
  }

  /** Moves one row to the rejected ones; fails when the id is rejected already. */
  function Buried(s: Store, id: string, reason: Reason): Option<Store> {
    if id !in s.rows then Some(s)
    else if id in s.dead then None
    else Some(Store(s.rows - {id}, s.dead[id := Rejected(s.rows[id].payload, reason)], s.notBefore))
  }

  function AllBuried(s: Store, rs: seq<AttendanceRecord>, reason: Reason): Option<Store> {
    if rs == [] then Some(s) else
    var rest := AllBuried(s, rs[..|rs| - 1], reason);
    if rest.None? then None else Buried(rest.value, rs[|rs| - 1].id, reason)
  }

  predicate ValidDisposition(d: string) {
    d == "accepted" || d == "duplicate" || d == "rejected"
  }

  function Settled(s: Store, r: Receipt): Option<Store> {
    if r.disposition == "rejected" then Buried(s, r.id, BusinessRejected) else Some(s.(rows := s.rows - {r.id}))
  }

  function Acknowledged(s: Store, rs: seq<Receipt>): Option<Store> {
    if rs == [] then Some(s) else
    var rest := Acknowledged(s, rs[..|rs| - 1]);
    if rest.None? then None else Settled(rest.value, rs[|rs| - 1])
  }

  // ---------- what the transactions mean

  /** No id is both waiting for upload and rejected. */
  ghost predicate Disjoint(s: Store) {
    forall id :: id in s.rows ==> id !in s.dead
  }

  ghost predicate DistinctIds(rs: seq<AttendanceRecord>) {
    forall i, j :: 0 <= i < j < |rs| ==> rs[i].id != rs[j].id
  }

  /** Storing a record again, after a commit of which nobody knows the end, changes nothing. */
  lemma EnqueueIsIdempotent(s: Store, r: AttendanceRecord)
    requires !Conflicts(s, r)
    ensures !Conflicts(Enqueued(s, r), r) && Enqueued(Enqueued(s, r), r) == Enqueued(s, r)
    ensures Disjoint(s) ==> Disjoint(Enqueued(s, r))
    ensures var t := Enqueued(s, r);
      if r.id in s.dead && r.id !in s.rows then r.id !in t.rows && t.dead[r.id].payload == r.payload
      else r.id in t.rows && t.rows[r.id].payload == r.payload && t.rows[r.id].occurred == r.occurred
  {
  }

  /** Exactly the listed rows are postponed; nothing comes or goes. */
  lemma {:induction false} RowsRetriedExactly(rows: map<string, Row>, rs: seq<AttendanceRecord>, next: int,
                                              reason: Reason)
    requires DistinctIds(rs)
    ensures var out := RowsRetried(rows, rs, next, reason);
      && out.Keys == rows.Keys
      && forall id :: id in rows ==> out[id] == if Listed(rs, id) then Bumped(rows[id], next, reason) else rows[id]
  {
    if rs != [] {
      var front, id := rs[..|rs| - 1], rs[|rs| - 1].id;
      RowsRetriedExactly(rows, front, next, reason);
      forall x ensures Listed(rs, x) <==> Listed(front, x) || x == id {
        ListedGrows(front, rs[|rs| - 1], x);
        assert front + [rs[|rs| - 1]] == rs;
      }
      assert !Listed(front, id);
    }
  }

  lemma ListedGrows(rs: seq<AttendanceRecord>, r: AttendanceRecord, id: string)
    ensures Listed(rs + [r], id) <==> Listed(rs, id) || id == r.id
  {
    if Listed(rs, id) {
      var k :| 0 <= k < |rs| && rs[k].id == id;
      assert (rs + [r])[k].id == id;
    }
    assert (rs + [r])[|rs|] == r;
  }

  /** The rows of t are those of s without the given ids; those that were there are rejected now, payload and all. */
  ghost predicate Moved(s: Store, t: Store, ids: iset<string>, reason: Reason) {
    && Disjoint(t) && t.notBefore == s.notBefore
    && (forall id :: id in t.rows <==> id in s.rows && id !in ids)
    && (forall id :: id in t.rows ==> t.rows[id] == s.rows[id])
    && (forall id :: id in t.dead <==> id in s.dead || (id in s.rows && id in ids))
    && (forall id :: id in t.dead ==>
        t.dead[id] == if id in s.dead then s.dead[id] else Rejected(s.rows[id].payload, reason))
  }

  lemma BuryMovesOne(s: Store, t: Store, ids: iset<string>, id: string, reason: Reason)
    requires Disjoint(s) && Moved(s, t, ids, reason)
    ensures Buried(t, id, reason).Some? && Moved(s, Buried(t, id, reason).value, ids + iset{id}, reason)
  {
  }

  ghost function IdsOf(rs: seq<AttendanceRecord>): iset<string> {
    iset id | Listed(rs, id)
  }

  /** Rejecting a batch moves exactly its rows, with their payloads, and never fails. */
  lemma {:induction false} BuryMoves(s: Store, rs: seq<AttendanceRecord>, reason: Reason)
    requires Disjoint(s)
    ensures AllBuried(s, rs, reason).Some? && Moved(s, AllBuried(s, rs, reason).value, IdsOf(rs), reason)
  {
    if rs != [] {
      hide Moved, Buried, Listed;
      var front, last := rs[..|rs| - 1], rs[|rs| - 1];
      BuryMoves(s, front, reason);
      assert IdsOf(rs) == IdsOf(front) + iset{last.id} by {
        forall x ensures Listed(rs, x) <==> Listed(front, x) || x == last.id {
          ListedGrows(front, last, x);
          assert front + [last] == rs;
        }
      }
      BuryMovesOne(s, AllBuried(s, front, reason).value, IdsOf(front), last.id, reason);
    }
  }

  /** The receipt that settles the id, if any. */
  ghost predicate Received(rs: seq<Receipt>, id: string, rejected: bool) {
    exists k :: 0 <= k < |rs| && rs[k].id == id && (rs[k].disposition == "rejected") == rejected
  }

  ghost predicate DistinctReceipts(rs: seq<Receipt>) {
    forall i, j :: 0 <= i < j < |rs| ==> rs[i].id != rs[j].id
  }

  lemma ReceivedGrows(rs: seq<Receipt>, r: Receipt, id: string, rejected: bool)
    ensures Received(rs + [r], id, rejected) <==>
      Received(rs, id, rejected) || (id == r.id && (r.disposition == "rejected") == rejected)
  {
    if Received(rs, id, rejected) {
      var k :| 0 <= k < |rs| && rs[k].id == id && (rs[k].disposition == "rejected") == rejected;
      assert (rs + [r])[k] == rs[k];
    }
    assert (rs + [r])[|rs|] == r;
    if Received(rs + [r], id, rejected) && !(id == r.id && (r.disposition == "rejected") == rejected) {
      var k :| 0 <= k < |rs + [r]| && (rs + [r])[k].id == id && ((rs + [r])[k].disposition == "rejected") == rejected;
      assert rs[k] == (rs + [r])[k];
    }
  }

  /** Receipts remove exactly the rows they name; only rejected ones are kept, with their payload; it never fails. */
  lemma {:induction false} AcknowledgeSettles(s: Store, rs: seq<Receipt>)
    requires Disjoint(s) && DistinctReceipts(rs)
    ensures Acknowledged(s, rs).Some?
    ensures var t := Acknowledged(s, rs).value;
      && Disjoint(t) && t.notBefore == s.notBefore
      && (forall id :: id in t.rows <==> id in s.rows && !Received(rs, id, true) && !Received(rs, id, false))
      && (forall id :: id in t.rows ==> t.rows[id] == s.rows[id])
      && (forall id :: id in t.dead <==> id in s.dead || (id in s.rows && Received(rs, id, true)))
      && (forall id :: id in t.dead ==>
            t.dead[id] == if id in s.dead then s.dead[id] else Rejected(s.rows[id].payload, BusinessRejected))
  {
    if rs != [] {
      var front, last := rs[..|rs| - 1], rs[|rs| - 1];
      AcknowledgeSettles(s, front);
      forall x, b
        ensures Received(rs, x, b) <==> Received(front, x, b) || (x == last.id && (last.disposition == "rejected") == b)
      {
        ReceivedGrows(front, last, x, b);
        assert front + [last] == rs;
      }
      assert !Received(front, last.id, true) && !Received(front, last.id, false);
    }
  }
}
