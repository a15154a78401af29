/** The delivery protocol: owner, worker, database and server, interleaved step by step, with crashes. */
module Delivery {
  import opened Outbox
  import opened RetryPolicy
  import opened AttendanceSync

  /** What the worker is in the middle of. */
  datatype Worker = Idle
                  | Sending(sent: seq<AttendanceRecord>)
                  | Answered(batch: seq<AttendanceRecord>, reply: Reply)
                  | Remaining(left: seq<AttendanceRecord>, header: RetryAfter)

  /** used and committed only record history: every id ever staged, and every id ever put into the database. */
  datatype State = State(
    store: Store, pending: seq<AttendanceRecord>, worker: Worker, server: map<string, Payload>,
    used: map<string, Payload>, committed: set<string>)

  datatype Event =
      Stage(records: seq<AttendanceRecord>)
    | CommitNext(commit: Commit)
    | Fetch(now: int, rows: seq<AttendanceRecord>)
    | Post(taken: set<string>, answer: Reply)
    | Settle(at: int, jitter: nat, commit: Commit)
    | PostponeRest(at: int, jitter: nat, commit: Commit)
    | Crash

  /** New records have new ids, and their payload is their own envelope. */
  ghost predicate Fresh(s: State, rs: seq<AttendanceRecord>) {
    && DistinctIds(rs)
    && forall k :: 0 <= k < |rs| ==>
       rs[k].id !in s.used && rs[k].payload.eventId == rs[k].id && rs[k].payload.occurred == rs[k].occurred
  }

  /** A server that only confirms what it has stored. */
  ghost predicate Honest(sent: seq<AttendanceRecord>, answer: Reply, server: map<string, Payload>) {
    Confirms(answer, sent) ==> forall a :: a in answer.body.list && a.disposition != "rejected" ==> a.id in server
  }

  ghost predicate Enabled(s: State, e: Event) {
    match e
    case Stage(rs) => s.pending == [] && Fresh(s, rs)
    case CommitNext(_) => s.pending != []
    case Fetch(now, rows) => s.worker.Idle? && FirstDue(rows, s.store, now, 32)
    case Post(taken, answer) => s.worker.Sending? && Honest(s.worker.sent, answer,
                                                            Stored(s.server, s.worker.sent, taken))
    case Settle(_, _, _) => s.worker.Answered?
    case PostponeRest(_, _, _) => s.worker.Remaining?
    case Crash => true
  }

  function WithAll(used: map<string, Payload>, rs: seq<AttendanceRecord>): map<string, Payload> {
    if rs == [] then used else WithAll(used, rs[..|rs| - 1])[rs[|rs| - 1].id := rs[|rs| - 1].payload]
  }

  /** The server stores some of what it was sent, and keeps what it has. */
  function Stored(server: map<string, Payload>, sent: seq<AttendanceRecord>, taken: set<string>): map<string, Payload> {
    if sent == [] then server else
    var rest, last := Stored(server, sent[..|sent| - 1], taken), sent[|sent| - 1];
    if last.id in taken && last.id !in rest then rest[last.id := last.payload] else rest
  }

  /** A conflict or a rejected id ends the step without effect. */
  ghost function Settle1(s: State, at: int, jitter: nat, commit: Commit): State
    requires s.worker.Answered?
  {
    var plan := PlanFor(s.worker.batch, s.worker.reply);
    var effect := Effect(s.store, s.worker.batch, plan, at, jitter);
    if effect.None? then s.(worker := Idle) else
    var store := if plan.Block? then s.store else After(s.store, effect.value, commit);
    var rest := if plan.Confirm? && commit == Applied then Unacked(s.worker.batch, plan.receipts) else [];
    s.(store := store, worker := if rest == [] then Idle else Remaining(rest, s.worker.reply.retryAfter))
  }

  ghost function Apply(s: State, e: Event): State
    requires Enabled(s, e)
  {
    match e
    case Stage(rs) => s.(pending := rs, used := WithAll(s.used, rs))
    case CommitNext(commit) =>
      var r := s.pending[0];
      if Conflicts(s.store, r) then s
      else s.(store := After(s.store, Enqueued(s.store, r), commit),
              pending := if commit == Applied then s.pending[1..] else s.pending,
              committed := if commit == RolledBack then s.committed else s.committed + {r.id})
    case Fetch(_, rows) => if rows == [] then s else s.(worker := Sending(rows))
    case Post(taken, answer) =>
      s.(server := Stored(s.server, s.worker.sent, taken), worker := Answered(s.worker.sent, answer))
    case Settle(at, jitter, commit) => Settle1(s, at, jitter, commit)
    case PostponeRest(at, jitter, commit) =>
      s.(store := After(s.store, Leftover(s.store, s.worker.left, s.worker.header, at, jitter), commit), worker := Idle)
    case Crash => s.(pending := [], worker := Idle)
  }

  ghost predicate Step(s: State, e: Event, t: State) {
    Enabled(s, e) && t == Apply(s, e)
  }

  /** Every interleaving: a sequence of states, each one step after the other. */
  ghost predicate Run(run: seq<State>, es: seq<Event>) {
    |run| == |es| + 1 && forall i :: 0 <= i < |es| ==> Step(run[i], es[i], run[i + 1])
  }

  // ---------- the invariant

  /** The payload is the one this id was staged with. */
  ghost predicate Known(used: map<string, Payload>, id: string, p: Payload) {
    id in used && used[id] == p && p.eventId == id
  }

  ghost predicate KnownRecords(used: map<string, Payload>, rs: seq<AttendanceRecord>) {
    forall k :: 0 <= k < |rs| ==> Known(used, rs[k].id, rs[k].payload) && rs[k].payload.occurred == rs[k].occurred
  }

  /** Waiting, rejected, or at the server. */
  ghost predicate Safe(s: State, id: string) {
    id in s.store.rows || id in s.store.dead || id in s.server
  }

  ghost predicate StoreKnown(used: map<string, Payload>, store: Store) {
    && (forall id :: id in store.rows ==>
          Known(used, id, store.rows[id].payload) && store.rows[id].payload.occurred == store.rows[id].occurred)
    && (forall id :: id in store.dead ==> Known(used, id, store.dead[id].payload))
  }

  ghost predicate ServerKnown(used: map<string, Payload>, server: map<string, Payload>) {
    forall id :: id in server ==> Known(used, id, server[id])
  }

  ghost predicate WorkerOk(s: State) {
    match s.worker
    case Idle => true
    case Sending(sent) => sent != [] && KnownRecords(s.used, sent) && DistinctIds(sent)
    case Answered(batch, reply) =>
      batch != [] && KnownRecords(s.used, batch) && DistinctIds(batch) && Honest(batch, reply, s.server)
    case Remaining(left, _) => left != [] && KnownRecords(s.used, left) && DistinctIds(left)
  }

  /** Nothing may be tried before the pause is over. */
  ghost predicate Paced(store: Store) {
    0 <= store.notBefore && forall id :: id in store.rows ==> store.rows[id].next <= store.notBefore
  }

  ghost predicate Inv(s: State) {
    && Disjoint(s.store) && Paced(s.store)
    && StoreKnown(s.used, s.store) && ServerKnown(s.used, s.server)
    && KnownRecords(s.used, s.pending) && DistinctIds(s.pending)
    && (forall id :: id in s.store.rows ==> id in s.committed)
    && (forall id :: id in s.committed ==> Safe(s, id))
    && WorkerOk(s)
  }

  /** A freshly opened database, nothing staged. */
  ghost predicate Init(s: State) {
    && s.pending == [] && s.worker.Idle?
    && Disjoint(s.store) && Paced(s.store) && StoreKnown(s.used, s.store) && ServerKnown(s.used, s.server)
    && s.committed == s.store.rows.Keys + s.store.dead.Keys
  }

  // ---------- each step keeps it

  lemma {:induction false} WithAllExtends(used: map<string, Payload>, rs: seq<AttendanceRecord>)
    requires DistinctIds(rs) && forall k :: 0 <= k < |rs| ==> rs[k].id !in used
    ensures forall id :: id in used ==> id in WithAll(used, rs) && WithAll(used, rs)[id] == used[id]
    ensures forall k :: 0 <= k < |rs| ==> rs[k].id in WithAll(used, rs) && WithAll(used, rs)[rs[k].id] == rs[k].payload
  {
    if rs != [] {
      WithAllExtends(used, rs[..|rs| - 1]);
      forall k | 0 <= k < |rs| - 1
        ensures rs[k].id in WithAll(used, rs) && WithAll(used, rs)[rs[k].id] == rs[k].payload
      {
        assert rs[..|rs| - 1][k] == rs[k];
      }
    }
  }

  lemma StageKeeps(s: State, rs: seq<AttendanceRecord>)
    requires Inv(s) && Enabled(s, Stage(rs))
    ensures Inv(Apply(s, Stage(rs)))
  {
    WithAllExtends(s.used, rs);
  }

  /** No staged record is ever in conflict with what is stored. */
  lemma NeverConflicts(s: State)
    requires Inv(s) && s.pending != []
    ensures !Conflicts(s.store, s.pending[0])
  {
  }

  lemma CommitKeeps(s: State, c: Commit)
    requires Inv(s) && Enabled(s, CommitNext(c))
    ensures Inv(Apply(s, CommitNext(c)))
  {
    NeverConflicts(s);
    var t := Apply(s, CommitNext(c));
    forall id | id in t.committed ensures Safe(t, id) {
      assert id in s.committed ==> Safe(s, id);
    }
  }

  lemma FetchKeeps(s: State, now: int, rows: seq<AttendanceRecord>)
    requires Inv(s) && Enabled(s, Fetch(now, rows))
    ensures Inv(Apply(s, Fetch(now, rows)))
  {
    forall i, j | 0 <= i < j < |rows| ensures rows[i].id != rows[j].id {
      EarlierIsTotal(s.store.rows, rows[i].id, rows[j].id);
    }
    forall k | 0 <= k < |rows|
      ensures Known(s.used, rows[k].id, rows[k].payload) && rows[k].payload.occurred == rows[k].occurred
    {
      assert Eligible(s.store, rows[k].id, now);
    }
  }

  lemma {:induction false} StoredKeeps(used: map<string, Payload>, server: map<string, Payload>,
                                       sent: seq<AttendanceRecord>, taken: set<string>)
    requires ServerKnown(used, server) && KnownRecords(used, sent)
    ensures ServerKnown(used, Stored(server, sent, taken))
    ensures forall id :: id in server ==> id in Stored(server, sent, taken)
  {
    if sent != [] {
      StoredKeeps(used, server, sent[..|sent| - 1], taken);
    }
  }

  lemma PostKeeps(s: State, taken: set<string>, answer: Reply)
    requires Inv(s) && Enabled(s, Post(taken, answer))
    ensures Inv(Apply(s, Post(taken, answer)))
  {
    StoredKeeps(s.used, s.server, s.worker.sent, taken);
  }

  lemma RetriedKeeps(s: Store, used: map<string, Payload>, rs: seq<AttendanceRecord>, next: int, reason: Reason)
    requires DistinctIds(rs) && Paced(s) && StoreKnown(used, s) && Disjoint(s)
    ensures var t := Retried(s, rs, next, reason);
      Paced(t) && StoreKnown(used, t) && Disjoint(t) && t.rows.Keys == s.rows.Keys && t.dead == s.dead
      && s.notBefore <= t.notBefore && (rs != [] ==> next <= t.notBefore)
  {
    if rs != [] {
      RowsRetriedExactly(s.rows, rs, next, reason);
    }
  }

  lemma ConfirmKeeps(s: State, t: State, receipts: seq<Receipt>)
    requires Inv(s) && s.worker.Answered? && PlanFor(s.worker.batch, s.worker.reply) == Confirm(receipts)
    requires Acknowledged(s.store, receipts).Some? && t.store == Acknowledged(s.store, receipts).value
    requires t == s.(store := t.store, worker := t.worker) && WorkerOk(t)
    ensures Inv(t)
  {
    AcknowledgeSettles(s.store, receipts);
    PlanIs(s.worker.batch, s.worker.reply);
    forall id | id in t.committed ensures Safe(t, id) {
      assert Safe(s, id);
      if id in s.store.rows && id !in t.store.rows && !Received(receipts, id, true) {
        var k :| 0 <= k < |receipts| && receipts[k].id == id && (receipts[k].disposition == "rejected") == false;
        assert id in s.server;
      }
    }
  }

  lemma UnackedKeeps(used: map<string, Payload>, rs: seq<AttendanceRecord>, list: seq<Receipt>)
    requires KnownRecords(used, rs) && DistinctIds(rs)
    ensures KnownRecords(used, Unacked(rs, list)) && DistinctIds(Unacked(rs, list))
  {
    UnackedAre(rs, list);
    var out := Unacked(rs, list);
    forall k | 0 <= k < |out|
      ensures Known(used, out[k].id, out[k].payload) && out[k].payload.occurred == out[k].occurred
    {
      assert out[k] in out;
      assert out[k] in rs;
    }
  }

  lemma RejectKeeps(s: State, t: State, reason: Reason)
    requires Inv(s) && s.worker.Answered? && AllBuried(s.store, s.worker.batch, reason).Some?
    requires t == s.(store := AllBuried(s.store, s.worker.batch, reason).value, worker := Idle)
    ensures Inv(t)
  {
    BuryMoves(s.store, s.worker.batch, reason);
    forall id | id in t.committed ensures Safe(t, id) {
      assert Safe(s, id);
    }
  }

  lemma PostponeKeeps(s: State, t: State, rs: seq<AttendanceRecord>, next: int, reason: Reason)
    requires Inv(s) && DistinctIds(rs) && t == s.(store := Retried(s.store, rs, next, reason), worker := Idle)
    ensures Inv(t)
  {
    RetriedKeeps(s.store, s.used, rs, next, reason);
    forall id | id in t.committed ensures Safe(t, id) {
      assert Safe(s, id);
    }
    assert t.store.rows.Keys == s.store.rows.Keys;
  }

  lemma OnlyWorkerMoves(s: State, t: State)
    requires Inv(s) && t == s.(worker := t.worker) && WorkerOk(t)
    ensures Inv(t)
  {
    forall id | id in t.committed ensures Safe(t, id) {
      assert Safe(s, id);
    }
  }

  lemma SettleKeeps(s: State, at: int, jitter: nat, c: Commit)
    requires Inv(s) && Enabled(s, Settle(at, jitter, c))
    ensures Inv(Apply(s, Settle(at, jitter, c)))
  {
    hide Inv, Retried, RetryAt;
    var t, batch := Apply(s, Settle(at, jitter, c)), s.worker.batch;
    var plan := PlanFor(batch, s.worker.reply);
    var effect := Effect(s.store, batch, plan, at, jitter);
    Parts(s);
    if plan.Confirm? {
      UnackedKeeps(s.used, batch, plan.receipts);
    }
    if effect.None? || plan.Block? || c == RolledBack {
      OnlyWorkerMoves(s, t);
    } else if plan.Confirm? {
      ConfirmKeeps(s, t, plan.receipts);
    } else if plan.Reject? {
      RejectKeeps(s, t, plan.reason);
    } else {
      PostponeKeeps(s, t, batch, RetryAt(at, MaxAttempts(batch), plan.header, jitter), plan.reason);
    }
  }

  lemma Parts(s: State)
    requires Inv(s)
    ensures WorkerOk(s) && Disjoint(s.store) && Paced(s.store)
  {
  }

  lemma PostponeRestKeeps(s: State, at: int, jitter: nat, c: Commit)
    requires Inv(s) && Enabled(s, PostponeRest(at, jitter, c))
    ensures Inv(Apply(s, PostponeRest(at, jitter, c)))
  {
    hide Inv, Retried, RetryAt;
    Parts(s);
    var t, left := Apply(s, PostponeRest(at, jitter, c)), s.worker.left;
    if c == RolledBack {
      OnlyWorkerMoves(s, t);
    } else {
      PostponeKeeps(s, t, left, RetryAt(at, MaxAttempts(left), s.worker.header, jitter), MissingAck);
    }
  }

  lemma CrashKeeps(s: State)
    requires Inv(s)
    ensures Inv(Apply(s, Crash))
  {
    var t := Apply(s, Crash);
    forall id | id in t.committed ensures Safe(t, id) {
      assert Safe(s, id);
    }
  }

  lemma StepKeeps(s: State, e: Event)
    requires Inv(s) && Enabled(s, e)
    ensures Inv(Apply(s, e))
  {
    hide Inv, Apply, Enabled;
    match e
    case Stage(rs) => StageKeeps(s, rs);
    case CommitNext(c) => CommitKeeps(s, c);
    case Fetch(now, rows) => FetchKeeps(s, now, rows);
    case Post(taken, answer) => PostKeeps(s, taken, answer);
    case Settle(at, jitter, c) => SettleKeeps(s, at, jitter, c);
    case PostponeRest(at, jitter, c) => PostponeRestKeeps(s, at, jitter, c);
    case Crash => CrashKeeps(s);
  }

  // ---------- whole runs

  lemma {:induction false} RunKeeps(run: seq<State>, es: seq<Event>, i: nat)
    requires Run(run, es) && Init(run[0]) && i <= |es|
    ensures Inv(run[i])
  {
    if i == 0 {
      InitHolds(run[0]);
    } else {
      RunKeeps(run, es, i - 1);
      assert Step(run[i - 1], es[i - 1], run[i]);
      StepKeeps(run[i - 1], es[i - 1]);
    }
  }

  lemma InitHolds(s: State)
    requires Init(s)
    ensures Inv(s)
  {
  }

  /** Whatever happened, every id that was ever committed is waiting, rejected, or stored at the server; the first two
      never overlap. */
  lemma NoCommittedEventIsLost(run: seq<State>, es: seq<Event>, i: nat)
    requires Run(run, es) && Init(run[0]) && i <= |es|
    ensures forall id :: id in run[i].committed ==> Safe(run[i], id)
    ensures Disjoint(run[i].store)
  {
    RunKeeps(run, es, i);
  }

  /** One step never forgets a committed id, and never gives an id another payload. */
  lemma HistoryGrowsOnce(s: State, e: Event)
    requires Inv(s) && Enabled(s, e)
    ensures s.committed <= Apply(s, e).committed
    ensures forall id :: id in s.used ==> id in Apply(s, e).used && Apply(s, e).used[id] == s.used[id]
  {
    if e.Stage? {
      WithAllExtends(s.used, e.records);
    }
  }

  lemma {:induction false} HistoryGrows(run: seq<State>, es: seq<Event>, i: nat, j: nat)
    requires Run(run, es) && Init(run[0]) && i <= j <= |es|
    ensures run[i].committed <= run[j].committed
    ensures forall id :: id in run[i].used ==> id in run[j].used && run[j].used[id] == run[i].used[id]
  {
    if i < j {
      HistoryGrows(run, es, i, j - 1);
      RunKeeps(run, es, j - 1);
      assert Step(run[j - 1], es[j - 1], run[j]);
      HistoryGrowsOnce(run[j - 1], es[j - 1]);
    }
  }

  /** An event whose commit was reported stays safe for ever, through crashes and lost answers. */
  lemma ReportedIsSafeForEver(run: seq<State>, es: seq<Event>, i: nat, j: nat)
    requires Run(run, es) && Init(run[0]) && i < j <= |es|
    requires es[i] == CommitNext(Applied) && run[i].pending != []
    ensures Safe(run[j], run[i].pending[0].id)
  {
    RunKeeps(run, es, i);
    assert Step(run[i], es[i], run[i + 1]);
    NeverConflicts(run[i]);
    HistoryGrows(run, es, i + 1, j);
    NoCommittedEventIsLost(run, es, j);
  }

  /** Where the payload of an id can be seen. */
  ghost predicate Shows(s: State, id: string, p: Payload) {
    || (id in s.store.rows && s.store.rows[id].payload == p)
    || (id in s.store.dead && s.store.dead[id].payload == p)
    || (id in s.server && s.server[id] == p)
    || (s.worker.Sending?
        && exists k :: 0 <= k < |s.worker.sent| && s.worker.sent[k].id == id && s.worker.sent[k].payload == p)
  }

  /** An id has one payload, at all times and in all places. */
  lemma PayloadNeverChanges(run: seq<State>, es: seq<Event>, i: nat, j: nat, id: string, p: Payload, q: Payload)
    requires Run(run, es) && Init(run[0]) && i <= j <= |es|
    requires Shows(run[i], id, p) && Shows(run[j], id, q)
    ensures p == q
  {
    RunKeeps(run, es, i);
    RunKeeps(run, es, j);
    HistoryGrows(run, es, i, j);
    ShownIsKnown(run[i], id, p);
    ShownIsKnown(run[j], id, q);
  }

  lemma ShownIsKnown(s: State, id: string, p: Payload)
    requires Inv(s) && Shows(s, id, p)
    ensures Known(s.used, id, p)
  {
  }

  // ---------- the pause

  /** With the pause in force on every row, what is due is all or nothing. */
  lemma DueIffPauseIsOver(s: Store, out: seq<AttendanceRecord>, now: int, limit: nat)
    requires Paced(s) && limit > 0 && FirstDue(out, s, now, limit)
    ensures out != [] <==> s.rows != map[] && s.notBefore <= now
  {
    if out != [] {
      assert Eligible(s, out[0].id, now);
    } else if s.rows != map[] && s.notBefore <= now {
      var id :| id in s.rows;
      EligibleAfterPause(s, id, now);
    }
  }

  lemma EligibleAfterPause(s: Store, id: string, now: int)
    requires Paced(s) && id in s.rows && s.notBefore <= now
    ensures Eligible(s, id, now)
  {
  }

  /** Databases of schema version 1 come out of their migration with the pause in force. */
  lemma MigrationIsPaced(rows: map<string, Row>, dead: map<string, Rejected>, notBefore: int)
    requires forall id :: id in rows ==> rows[id].next <= notBefore
    requires rows == map[] ==> notBefore == 0
    requires forall id :: id in rows ==> 0 <= rows[id].next
    ensures Paced(Store(rows, dead, notBefore))
  {
    if rows != map[] {
      var id :| id in rows;
    }
  }

  /** One step never brings the end of the pause forward. */
  lemma PauseGrowsOnce(s: State, e: Event)
    requires Inv(s) && Enabled(s, e)
    ensures s.store.notBefore <= Apply(s, e).store.notBefore
  {
    if e.Settle? {
      var plan := PlanFor(s.worker.batch, s.worker.reply);
      if plan.Confirm? {
        AcknowledgeSettles(s.store, plan.receipts);
      } else if plan.Reject? {
        BuryMoves(s.store, s.worker.batch, plan.reason);
      }
    }
  }

  lemma {:induction false} PauseGrows(run: seq<State>, es: seq<Event>, i: nat, j: nat)
    requires Run(run, es) && Init(run[0]) && i <= j <= |es|
    ensures run[i].store.notBefore <= run[j].store.notBefore
  {
    if i < j {
      PauseGrows(run, es, i, j - 1);
      RunKeeps(run, es, j - 1);
      assert Step(run[j - 1], es[j - 1], run[j]);
      PauseGrowsOnce(run[j - 1], es[j - 1]);
    }
  }

  /** Once the pause is known to last until a time, nothing is sent before. */
  lemma NothingBeforePauseEnds(run: seq<State>, es: seq<Event>, i: nat, j: nat)
    requires Run(run, es) && Init(run[0]) && i <= j < |es| && es[j].Fetch? && es[j].rows != []
    ensures es[j].now >= run[i].store.notBefore
  {
    PauseGrows(run, es, i, j);
    assert Step(run[j], es[j], run[j + 1]);
    assert Eligible(run[j].store, es[j].rows[0].id, es[j].now);
  }

  /** After a failed upload nothing is sent before the wait is over: neither the failed rows nor newer ones, neither by
      this process nor after a restart. */
  lemma NothingIsSentTooEarly(run: seq<State>, es: seq<Event>, i: nat, j: nat)
    requires Run(run, es) && Init(run[0]) && i < j < |es|
    requires es[i].Settle? && es[i].commit != RolledBack && run[i].worker.Answered?
    requires Fails(run[i].worker.reply, run[i].worker.batch)
    requires es[j].Fetch? && es[j].rows != []
    ensures es[j].now >= es[i].at + 1000 && es[j].now >= es[i].at + Delay(MaxAttempts(run[i].worker.batch))
    ensures var reply := run[i].worker.reply;
      && (reply.Reply? && reply.retryAfter.Seconds? ==> es[j].now >= es[i].at + reply.retryAfter.seconds * 1000)
      && (reply.Reply? && reply.retryAfter.Date? && reply.retryAfter.epochSeconds > 0 ==>
            es[j].now >= reply.retryAfter.epochSeconds * 1000)
  {
    PlanIs(run[i].worker.batch, run[i].worker.reply);
    RunKeeps(run, es, i);
    var s, batch := run[i], run[i].worker.batch;
    var plan := PlanFor(batch, s.worker.reply);
    assert Step(run[i], es[i], run[i + 1]);
    RetryAtBounds(es[i].at, MaxAttempts(batch), plan.header, es[i].jitter);
    var next := RetryAt(es[i].at, MaxAttempts(batch), plan.header, es[i].jitter);
    RetriedKeeps(s.store, s.used, batch, next, plan.reason);
    assert run[i + 1].store == Retried(s.store, batch, next, plan.reason);
    NothingBeforePauseEnds(run, es, i + 1, j);
  }

  /** The same after an answer that left records without a receipt. */
  lemma MissingReceiptsWait(run: seq<State>, es: seq<Event>, i: nat, j: nat)
    requires Run(run, es) && Init(run[0]) && i < j < |es|
    requires es[i].PostponeRest? && es[i].commit != RolledBack && run[i].worker.Remaining?
    requires es[j].Fetch? && es[j].rows != []
    ensures es[j].now >= es[i].at + Delay(MaxAttempts(run[i].worker.left))
  {
    RunKeeps(run, es, i);
    var s, left := run[i], run[i].worker.left;
    assert Step(run[i], es[i], run[i + 1]);
    RetryAtBounds(es[i].at, MaxAttempts(left), s.worker.header, es[i].jitter);
    var next := RetryAt(es[i].at, MaxAttempts(left), s.worker.header, es[i].jitter);
    RetriedKeeps(s.store, s.used, left, next, MissingAck);
    NothingBeforePauseEnds(run, es, i + 1, j);
  }

  // ---------- the worker's step is these events

  /** An upload without interference is fetching, posting, settling and, where receipts are missing, postponing. */
  lemma UploadIsEvents(s: State, now: int, sent: seq<AttendanceRecord>, taken: set<string>, reply: Reply, at: int,
                       jitter: nat, first: Commit, second: Commit)
    requires s.worker.Idle? && sent != [] && Enabled(s, Fetch(now, sent))
    requires Honest(sent, reply, Stored(s.server, sent, taken))
    ensures var a := Apply(s, Fetch(now, sent));
      && Enabled(a, Post(taken, reply))
      && var b := Apply(a, Post(taken, reply));
      && Enabled(b, Settle(at, jitter, first))
      && var c := Apply(b, Settle(at, jitter, first));
      && (c.worker.Idle? || c.worker.Remaining?)
      && Uploaded(s.store, sent, reply, at, jitter, first, second)
         == if c.worker.Idle? then c.store else Apply(c, PostponeRest(at, jitter, second)).store
  {
    hide Retried, Acknowledged, AllBuried, Stored, FirstDue, RetryAt;
  }
}
