/** One upload of the worker: what it sends, how it reads the answer, and what it then does to the outbox. */
module AttendanceSync {
  import opened Collections
  import opened IntArithmetic
  import opened Outbox
  import opened RetryPolicy
  import opened OutboxRepository

  // ---------- the answer

  /** The body of an answer, as far as it can be read as JSON. */
  datatype Body = Unparseable | Results(schemaVersion: int, list: seq<Receipt>)

  /** What the transport delivers: an exception, or a response. */
  datatype Reply = NoReply | Reply(status: int, body: Body, retryAfter: RetryAfter)

  /** The answer's receipts: each for a record that was sent, none twice, each with a known disposition. */
  ghost predicate WellFormed(list: seq<Receipt>, sent: seq<AttendanceRecord>) {
    && |list| <= |sent| && DistinctReceipts(list)
    && forall k :: 0 <= k < |list| ==> Listed(sent, list[k].id) && ValidDisposition(list[k].disposition)
  }

  /** The receipts of an answer, or none where anything about it is wrong. */
  method ParseReceipts(body: Body, sent: seq<AttendanceRecord>) returns (r: Option<seq<Receipt>>)
    ensures r.Some? <==> body.Results? && body.schemaVersion == 1 && WellFormed(body.list, sent)
    ensures r.Some? ==> r.value == body.list
  {
    if body.Unparseable? || body.schemaVersion != 1 {
      return None;
    }
    var allowed, seen: set<string> := {}, {};
    for k := 0 to |sent|
      invariant forall id :: id in allowed <==> Listed(sent[..k], id)
    {
      ListedGrows(sent[..k], sent[k], sent[k].id);
      forall id ensures Listed(sent[..k + 1], id) <==> Listed(sent[..k], id) || id == sent[k].id {
        ListedGrows(sent[..k], sent[k], id);
        assert sent[..k + 1] == sent[..k] + [sent[k]];
      }
      allowed := allowed + {sent[k].id};
    }
    assert sent[..|sent|] == sent;
    if |body.list| > |sent| {
      return None;
    }
    var result := [];
    for k := 0 to |body.list|
      invariant result == body.list[..k]
      invariant forall id :: id in seen <==> exists j :: 0 <= j < k && body.list[j].id == id
      invariant DistinctReceipts(body.list[..k])
      invariant forall j :: 0 <= j < k ==> Listed(sent, body.list[j].id) && ValidDisposition(body.list[j].disposition)
    {
      var a := body.list[k];
      if a.id !in allowed || a.id in seen || !ValidDisposition(a.disposition) {
        return None;
      }
      seen := seen + {a.id};
      result := result + [a];
    }
    assert body.list[..|body.list|] == body.list;
    r := Some(result);
  }

  // ---------- the records that still need another try

  /** The records no receipt names, in order. */
  function Unacked(rs: seq<AttendanceRecord>, list: seq<Receipt>): seq<AttendanceRecord> {
    if rs == [] then [] else
    var rest, last := Unacked(rs[..|rs| - 1], list), rs[|rs| - 1];
    if exists k :: 0 <= k < |list| && list[k].id == last.id then rest else rest + [last]
  }

  lemma {:induction false} UnackedAre(rs: seq<AttendanceRecord>, list: seq<Receipt>)
    ensures forall r :: r in Unacked(rs, list) <==> r in rs && forall k :: 0 <= k < |list| ==> list[k].id != r.id
    ensures DistinctIds(rs) ==> DistinctIds(Unacked(rs, list))
  {
    if rs != [] {
      var front, last := rs[..|rs| - 1], rs[|rs| - 1];
      UnackedAre(front, list);
      hide DistinctIds;
      assert rs == front + [last];
      forall r ensures r in rs <==> r in front || r == last {
      }
      if DistinctIds(rs) {
        AppendDistinct(front, Unacked(front, list), last);
      }
    }
  }

  lemma AppendDistinct(front: seq<AttendanceRecord>, out: seq<AttendanceRecord>, last: AttendanceRecord)
    requires DistinctIds(front + [last]) && (DistinctIds(front) ==> DistinctIds(out)) && forall r :: r in out ==>
      r in front
    ensures DistinctIds(out) && DistinctIds(out + [last])
  {
    var rs := front + [last];
    assert forall k :: 0 <= k < |front| ==> rs[k] == front[k];
    forall i | 0 <= i < |out| ensures out[i].id != last.id {
      assert out[i] in out;
      var k :| 0 <= k < |front| && front[k] == out[i];
      assert rs[k] == front[k] && rs[|front|] == last;
    }
  }

  function MaxAttempts(rs: seq<AttendanceRecord>): int {
    if rs == [] then 0 else Max(MaxAttempts(rs[..|rs| - 1]), rs[|rs| - 1].attempts)
  }

  /** A new record never shortens the wait an older one has earned. */
  lemma {:induction false} MaxAttemptsIsMax(rs: seq<AttendanceRecord>)
    ensures 0 <= MaxAttempts(rs) && forall k :: 0 <= k < |rs| ==> rs[k].attempts <= MaxAttempts(rs)
    ensures MaxAttempts(rs) == 0 || exists k :: 0 <= k < |rs| && rs[k].attempts == MaxAttempts(rs)
  {
    if rs != [] {
      MaxAttemptsIsMax(rs[..|rs| - 1]);
    }
  }

  // ---------- what the worker makes of an answer

  datatype Plan = Block | Reject(reason: Reason) | Postpone(header: RetryAfter, reason: Reason)
    | Confirm(receipts: seq<Receipt>)

  /** The worker's decision, from the answer alone. */
  ghost function PlanFor(sent: seq<AttendanceRecord>, reply: Reply): Plan {
    if reply.NoReply? then Postpone(Missing, TransportFailure)
    else if reply.status == 401 || reply.status == 403 then Block
    else if reply.status == 400 || reply.status == 422 then Reject(SchemaRejected(reply.status))
    else if 200 <= reply.status < 300 then
      (if reply.body.Results? && reply.body.schemaVersion == 1 && WellFormed(reply.body.list, sent)
       then Confirm(reply.body.list)
       else Postpone(reply.retryAfter, InvalidAck))
    else Postpone(reply.retryAfter, HttpStatus(reply.status))
  }

  /** The store after the decision's transaction, were it applied. */
  ghost function Effect(s: Store, sent: seq<AttendanceRecord>, plan: Plan, at: int, jitter: nat): Option<Store> {
    match plan
    case Block => Some(s)
    case Reject(reason) => AllBuried(s, sent, reason)
    case Postpone(header, reason) => Some(Retried(s, sent, RetryAt(at, MaxAttempts(sent), header, jitter), reason))
    case Confirm(receipts) => Acknowledged(s, receipts)
  }

  /** The second transaction, for records without a receipt. */
  ghost function Leftover(s: Store, left: seq<AttendanceRecord>, header: RetryAfter, at: int, jitter: nat): Store {
    Retried(s, left, RetryAt(at, MaxAttempts(left), header, jitter), MissingAck)
  }

  /** The store after a whole upload that nobody interferes with. */
  ghost function Uploaded(s: Store, sent: seq<AttendanceRecord>, reply: Reply, at: int, jitter: nat, first: Commit,
                          second: Commit)
    : Store
  {
    var plan := PlanFor(sent, reply);
    var effect := Effect(s, sent, plan, at, jitter);
    if effect.None? then s
    else if !plan.Confirm? || first != Applied || Unacked(sent, plan.receipts) == [] then After(s, effect.value, first)
    else After(effect.value, Leftover(effect.value, Unacked(sent, plan.receipts), reply.retryAfter, at, jitter), second)
  }

  /** No transaction of the upload reports an error. */
  ghost predicate Finishes(s: Store, sent: seq<AttendanceRecord>, reply: Reply, at: int, jitter: nat, first: Commit,
                           second: Commit) {
    var plan := PlanFor(sent, reply);
    Effect(s, sent, plan, at, jitter).Some? && first == Applied
    && (plan.Confirm? && Unacked(sent, plan.receipts) != [] ==> second == Applied)
  }

  // ---------- what each status does, in terms of the answer itself

  predicate Blocks(reply: Reply) {
    reply.Reply? && (reply.status == 401 || reply.status == 403)
  }

  predicate Refuses(reply: Reply) {
    reply.Reply? && (reply.status == 400 || reply.status == 422)
  }

  predicate Succeeds(reply: Reply) {
    reply.Reply? && 200 <= reply.status && reply.status < 300
  }

  /** A success that names records of the batch only, none twice, each accepted, a duplicate or rejected. */
  ghost predicate Confirms(reply: Reply, sent: seq<AttendanceRecord>) {
    && Succeeds(reply) && reply.body.Results? && reply.body.schemaVersion == 1 && |reply.body.list| <= |sent|
    && (forall i, j :: 0 <= i < j < |reply.body.list| ==> reply.body.list[i].id != reply.body.list[j].id)
    && (forall k :: 0 <= k < |reply.body.list| ==>
          reply.body.list[k].disposition in {"accepted", "duplicate", "rejected"}
            && Listed(sent, reply.body.list[k].id))
  }

  /** No answer, any other status, or a success that cannot be read as receipts for the batch. */
  ghost predicate Fails(reply: Reply, sent: seq<AttendanceRecord>) {
    !Blocks(reply) && !Refuses(reply) && !Confirms(reply, sent)
  }

  /** A valid receipt for the record, with or without a rejection. */
  ghost predicate ReceiptFor(reply: Reply, sent: seq<AttendanceRecord>, id: string, rejected: bool) {
    && Confirms(reply, sent)
    && exists k :: 0 <= k < |reply.body.list| && reply.body.list[k].id == id
                   && (reply.body.list[k].disposition == "rejected") == rejected
  }

  /** The row has failed once more, and waits for at least a second. */
  predicate FailedOnceMore(row: Row, was: Row, at: int, reason: Reason) {
    && row.payload == was.payload && row.occurred == was.occurred && row.error == reason
    && row.attempts == (if was.attempts + 1 <= 30 then was.attempts + 1 else 30) && row.next >= at + 1000
  }

  /** Nothing comes or goes; exactly the listed rows fail once more, and until they may be tried nothing is. */
  ghost predicate Waits(s: Store, t: Store, rs: seq<AttendanceRecord>, at: int, reason: Reason) {
    && t.dead == s.dead && t.rows.Keys == s.rows.Keys && t.notBefore >= s.notBefore && t.notBefore >= at + 1000
    && forall id :: id in s.rows ==>
         if Listed(rs, id) then FailedOnceMore(t.rows[id], s.rows[id], at, reason) && t.rows[id].next <= t.notBefore
         else t.rows[id] == s.rows[id]
  }

  /** Exactly the sent rows are rejected, with their payloads; the others stay. */
  ghost predicate AllRejected(s: Store, t: Store, sent: seq<AttendanceRecord>, reason: Reason) {
    && t.notBefore == s.notBefore
    && (forall id :: id in t.rows <==> id in s.rows && !Listed(sent, id))
    && (forall id :: id in t.rows ==> t.rows[id] == s.rows[id])
    && (forall id :: id in t.dead <==> id in s.dead || (id in s.rows && Listed(sent, id)))
    && (forall id :: id in t.dead ==>
          t.dead[id] == if id in s.dead then s.dead[id] else Rejected(s.rows[id].payload, reason))
  }

  /** Exactly the rows with a receipt are gone, the rejected ones among the rejected; the others stay. */
  ghost predicate ReceiptsTaken(s: Store, t: Store, sent: seq<AttendanceRecord>, reply: Reply) {
    && t.notBefore == s.notBefore
    && (forall id :: id in t.rows <==>
          id in s.rows && !ReceiptFor(reply, sent, id, true) && !ReceiptFor(reply, sent, id, false))
    && (forall id :: id in t.rows ==> t.rows[id] == s.rows[id])
    && (forall id :: id in t.dead <==> id in s.dead || (id in s.rows && ReceiptFor(reply, sent, id, true)))
    && (forall id :: id in t.dead ==>
          t.dead[id] == if id in s.dead then s.dead[id] else Rejected(s.rows[id].payload, BusinessRejected))
  }

  /** What the transaction for an answer makes of the store, when it is applied. */
  ghost predicate Taken(s: Store, t: Store, sent: seq<AttendanceRecord>, reply: Reply, at: int) {
    && (Blocks(reply) ==> t == s)
    && (Refuses(reply) ==> AllRejected(s, t, sent, SchemaRejected(reply.status)))
    && (Confirms(reply, sent) ==> ReceiptsTaken(s, t, sent, reply))
    && (Fails(reply, sent) ==> Waits(s, t, sent, at, WhyFailed(reply)))
  }

  /** What is kept as the reason of a failed upload. */
  function WhyFailed(reply: Reply): Reason {
    if reply.NoReply? then TransportFailure else if Succeeds(reply) then InvalidAck else HttpStatus(reply.status)
  }

  /** The plan that goes with each kind of answer. */
  lemma PlanIs(sent: seq<AttendanceRecord>, reply: Reply)
    ensures Blocks(reply) <==> PlanFor(sent, reply).Block?
    ensures Refuses(reply) <==> PlanFor(sent, reply).Reject?
    ensures Confirms(reply, sent) <==> PlanFor(sent, reply).Confirm?
    ensures Fails(reply, sent) <==> PlanFor(sent, reply).Postpone?
    ensures Confirms(reply, sent) ==>
      PlanFor(sent, reply).receipts == reply.body.list && DistinctReceipts(reply.body.list)
    ensures Fails(reply, sent) ==>
      PlanFor(sent, reply) == Postpone(if reply.NoReply? then Missing else reply.retryAfter, WhyFailed(reply))
    ensures Refuses(reply) ==> PlanFor(sent, reply).reason == SchemaRejected(reply.status)
  {
  }

  lemma RetriedWaits(s: Store, rs: seq<AttendanceRecord>, next: int, reason: Reason, at: int)
    requires rs != [] && DistinctIds(rs) && next >= at + 1000
    ensures Waits(s, Retried(s, rs, next, reason), rs, at, reason)
  {
    RowsRetriedExactly(s.rows, rs, next, reason);
  }

  lemma RejectedAll(s: Store, t: Store, sent: seq<AttendanceRecord>, reason: Reason)
    requires Moved(s, t, IdsOf(sent), reason)
    ensures AllRejected(s, t, sent, reason)
  {
  }

  lemma ReceivedIsReceipt(sent: seq<AttendanceRecord>, reply: Reply, id: string, rejected: bool)
    requires Confirms(reply, sent)
    ensures Received(reply.body.list, id, rejected) <==> ReceiptFor(reply, sent, id, rejected)
  {
  }

  lemma AcknowledgedTakes(s: Store, sent: seq<AttendanceRecord>, reply: Reply)
    requires Disjoint(s) && Confirms(reply, sent) && DistinctReceipts(reply.body.list)
    ensures Acknowledged(s, reply.body.list).Some?
    ensures ReceiptsTaken(s, Acknowledged(s, reply.body.list).value, sent, reply)
  {
    hide Received, ReceiptFor;
    AcknowledgeSettles(s, reply.body.list);
    forall id, b: bool ensures Received(reply.body.list, id, b) <==> ReceiptFor(reply, sent, id, b) {
      ReceivedIsReceipt(sent, reply, id, b);
    }
  }

  /** The decision's transaction never fails, and does what the status says. */
  lemma EffectTakes(s: Store, sent: seq<AttendanceRecord>, reply: Reply, at: int, jitter: nat)
    requires Disjoint(s) && sent != [] && DistinctIds(sent)
    ensures Effect(s, sent, PlanFor(sent, reply), at, jitter).Some?
    ensures Taken(s, Effect(s, sent, PlanFor(sent, reply), at, jitter).value, sent, reply, at)
  {
    hide PlanFor, Waits, AllRejected, ReceiptsTaken, Confirms, Moved, Retried, AllBuried, Acknowledged, RetryAt,
         DistinctReceipts;
    PlanIs(sent, reply);
    match PlanFor(sent, reply)
    case Block =>
    case Reject(reason) =>
      BuryMoves(s, sent, reason);
      RejectedAll(s, AllBuried(s, sent, reason).value, sent, reason);
    case Postpone(header, reason) =>
      RetryAtBounds(at, MaxAttempts(sent), header, jitter);
      RetriedWaits(s, sent, RetryAt(at, MaxAttempts(sent), header, jitter), reason, at);
    case Confirm(receipts) =>
      AcknowledgedTakes(s, sent, reply);
  }

  /** What a whole upload does, from the status and the ends of its transactions: rolled back, it does nothing; applied,
      the answer is taken; and with receipts missing, the records without one then fail once more. */
  ghost predicate UploadTaken(s: Store, t: Store, sent: seq<AttendanceRecord>, reply: Reply, at: int, first: Commit,
                              second: Commit) {
    if first == RolledBack then t == s
    else if first == Applied && Confirms(reply, sent) && second != RolledBack then
      exists mid: Store, left: seq<AttendanceRecord> ::
        ReceiptsTaken(s, mid, sent, reply) && LeftOf(sent, reply, left)
        && if left == [] then t == mid else Waits(mid, t, left, at, MissingAck)
    else Taken(s, t, sent, reply, at)
  }

  /** The records of the batch without a receipt. */
  ghost predicate LeftOf(sent: seq<AttendanceRecord>, reply: Reply, left: seq<AttendanceRecord>)
    requires Confirms(reply, sent)
  {
    && DistinctIds(left)
    && forall r :: r in left <==>
         r in sent && forall k :: 0 <= k < |reply.body.list| ==> reply.body.list[k].id != r.id
  }

  lemma UploadTakes(s: Store, sent: seq<AttendanceRecord>, reply: Reply, at: int, jitter: nat, first: Commit,
                    second: Commit)
    requires Disjoint(s) && sent != [] && DistinctIds(sent)
    ensures UploadTaken(s, Uploaded(s, sent, reply, at, jitter, first, second), sent, reply, at, first, second)
  {
    hide PlanFor, Waits, AllRejected, ReceiptsTaken, Confirms, Retried, RetryAt, DistinctReceipts, Effect, DistinctIds,
         LeftOf;
    PlanIs(sent, reply);
    EffectTakes(s, sent, reply, at, jitter);
    var plan := PlanFor(sent, reply);
    if plan.Confirm? {
      ConfirmsIsReply(sent, reply);
      var mid, left := Effect(s, sent, plan, at, jitter).value, Unacked(sent, plan.receipts);
      LeftAre(sent, reply, plan.receipts);
      if left != [] {
        RetryAtBounds(at, MaxAttempts(left), reply.retryAfter, jitter);
        RetriedWaits(mid, left, RetryAt(at, MaxAttempts(left), reply.retryAfter, jitter), MissingAck, at);
      }
    }
  }

  lemma ConfirmsIsReply(sent: seq<AttendanceRecord>, reply: Reply)
    requires Confirms(reply, sent)
    ensures reply.Reply? && reply.body.Results?
  {
  }

  lemma DueAreDistinct(sent: seq<AttendanceRecord>, s: Store, now: int, limit: nat)
    requires FirstDue(sent, s, now, limit)
    ensures DistinctIds(sent)
  {
    forall i, j | 0 <= i < j < |sent| ensures sent[i].id != sent[j].id {
      EarlierIsTotal(s.rows, sent[i].id, sent[j].id);
    }
  }

  lemma LeftAre(sent: seq<AttendanceRecord>, reply: Reply, list: seq<Receipt>)
    requires Confirms(reply, sent) && list == reply.body.list && DistinctIds(sent)
    ensures DistinctIds(Unacked(sent, list)) && LeftOf(sent, reply, Unacked(sent, list))
  {
    UnackedAre(sent, list);
  }

  datatype SyncResult = Continue | AuthenticationBlocked | StorageFailed

  class AttendanceSync {
    const outbox: OutboxRepository

    constructor (o: OutboxRepository)
      ensures outbox == o
    {
      outbox := o;
    }

    method Attempts(rs: seq<AttendanceRecord>) returns (maximum: int)
      ensures maximum == MaxAttempts(rs)
    {
      maximum := 0;
      for k := 0 to |rs|
        invariant maximum == MaxAttempts(rs[..k])
      {
        assert rs[..k + 1][..k] == rs[..k];
        if rs[k].attempts > maximum {
          maximum := rs[k].attempts;
        }
      }
      assert rs[..|rs|] == rs;
    }

    method EraseDone(rs: seq<AttendanceRecord>, list: seq<Receipt>) returns (left: seq<AttendanceRecord>)
      ensures left == Unacked(rs, list)
    {
      var done: set<string> := {};
      for k := 0 to |list|
        invariant forall id :: id in done <==> exists j :: 0 <= j < k && list[j].id == id
      {
        done := done + {list[k].id};
      }
      left := [];
      for k := 0 to |rs|
        invariant left == Unacked(rs[..k], list)
      {
        assert rs[..k + 1][..k] == rs[..k];
        if rs[k].id !in done {
          left := left + [rs[k]];
        }
      }
      assert rs[..|rs|] == rs;
    }

    /** Postpones the rows, the pause counted from the worst of them. */
    method PostponeRows(rs: seq<AttendanceRecord>, header: RetryAfter, at: int, jitter: nat, reason: Reason,
                        commit: Commit)
      returns (result: Outcome)
      requires rs != []
      modifies outbox
      ensures result == Reported(commit)
      ensures outbox.Contents() == After(old(outbox.Contents()),
        Retried(old(outbox.Contents()), rs, RetryAt(at, MaxAttempts(rs), header, jitter), reason), commit)
    {
      var attempts := Attempts(rs);
      result := outbox.Retry(rs, RetryAt(at, attempts, header, jitter), reason, commit);
    }

    /** One upload. The environment supplies the answer, the clock after it, and how the transactions end; a storage
        error leaves the step at once. */
    method Step(now: int, reply: Reply, at: int, jitter: nat, first: Commit, second: Commit)
      returns (result: SyncResult, ghost sent: seq<AttendanceRecord>)
      modifies outbox
      ensures FirstDue(sent, old(outbox.Contents()), now, 32)
      ensures sent == [] ==> result == Continue && outbox.Contents() == old(outbox.Contents())
      ensures result == AuthenticationBlocked <==> sent != [] && Blocks(reply)
      ensures sent != [] ==>
        outbox.Contents() == Uploaded(old(outbox.Contents()), sent, reply, at, jitter, first, second)
      ensures sent != [] && result != AuthenticationBlocked ==>
        (result == Continue <==> Finishes(old(outbox.Contents()), sent, reply, at, jitter, first, second))
      ensures sent != [] && Disjoint(old(outbox.Contents())) ==>
        UploadTaken(old(outbox.Contents()), outbox.Contents(), sent, reply, at, first, second)
    {
      hide UploadTaken, Disjoint, DistinctIds, Retried, Acknowledged, AllBuried, RetryAt, FirstDue, MaxAttempts,
           Unacked, RowsRetried;
      result := Continue;
      var rows := outbox.Due(now, 32);
      sent := rows;
      if rows == [] {
        return;
      }
      if Disjoint(outbox.Contents()) {
        DueAreDistinct(rows, outbox.Contents(), now, 32);
        UploadTakes(outbox.Contents(), rows, reply, at, jitter, first, second);
      }
      var outcome;
      if reply.NoReply? {
        outcome := PostponeRows(rows, Missing, at, jitter, TransportFailure, first);
      } else if reply.status == 401 || reply.status == 403 {
        return AuthenticationBlocked, sent;
      } else if reply.status == 400 || reply.status == 422 {
        outcome := outbox.DeadLetter(rows, SchemaRejected(reply.status), first);
      } else if reply.status >= 200 && reply.status < 300 {
        var receipts := ParseReceipts(reply.body, rows);
        if receipts.Some? {
          outcome := outbox.Acknowledge(receipts.value, first);
          if outcome != Done {
            return StorageFailed, sent;
          }
          rows := EraseDone(rows, receipts.value);
        }
        if rows != [] {
          outcome := PostponeRows(rows, reply.retryAfter, at, jitter, if receipts.Some? then MissingAck else InvalidAck,
                                  if receipts.Some? then second else first);
        }
      } else {
        outcome := PostponeRows(rows, reply.retryAfter, at, jitter, HttpStatus(reply.status), first);
      }
      if outcome != Done {
        return StorageFailed, sent;
      }
    }
  }
}
