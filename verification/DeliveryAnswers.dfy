/** Over whole runs of the delivery protocol: which answers move an event, and what its failures are counted from. */
module DeliveryAnswers {
  import opened Outbox
  import opened RetryPolicy
  import opened AttendanceSync
  import opened Delivery

  /** The worker settles an answer in a transaction that takes effect. */
  ghost predicate Settles(s: State, e: Event) {
    e.Settle? && e.commit != RolledBack && s.worker.Answered?
  }

  /** Such a step does what the status says. */
  lemma SettlingTakes(s: State, e: Event)
    requires Inv(s) && Enabled(s, e) && Settles(s, e)
    ensures Taken(s.store, Apply(s, e).store, s.worker.batch, s.worker.reply, e.at)
  {
    hide Taken, Effect, PlanFor, Disjoint, Paced, StoreKnown, ServerKnown;
    EffectTakes(s.store, s.worker.batch, s.worker.reply, e.at, e.jitter);
    BlockTakesNothing(s, e);
  }

  lemma BlockTakesNothing(s: State, e: Event)
    requires e.Settle? && s.worker.Answered?
    ensures PlanFor(s.worker.batch, s.worker.reply).Block? ==>
      Effect(s.store, s.worker.batch, PlanFor(s.worker.batch, s.worker.reply), e.at, e.jitter).Some?
      && Effect(s.store, s.worker.batch, PlanFor(s.worker.batch, s.worker.reply), e.at, e.jitter).value == s.store
  {
  }

  /** Steps other than the worker's settling keep all rows, and reject nothing. */
  lemma OthersKeepRows(s: State, e: Event)
    requires Inv(s) && Enabled(s, e) && !Settles(s, e)
    ensures var t := Apply(s, e);
      t.store.dead == s.store.dead && forall id :: id in s.store.rows ==> id in t.store.rows
  {
    if e.PostponeRest? {
      RetriedKeeps(s.store, s.used, s.worker.left, RetryAt(e.at, MaxAttempts(s.worker.left), s.worker.header, e.jitter),
                   MissingAck);
    }
  }

  /** An event stops waiting only when its upload was answered: the whole batch refused, or a valid receipt for it. It
      is rejected then exactly when the batch was refused or its receipt says so, and otherwise the server has it. */
  lemma WhenEventsLeave(run: seq<State>, es: seq<Event>, i: nat, id: string)
    requires Run(run, es) && Init(run[0]) && i < |es|
    requires id in run[i].store.rows && id !in run[i + 1].store.rows
    ensures Settles(run[i], es[i]) && Listed(run[i].worker.batch, id)
    ensures var reply, batch := run[i].worker.reply, run[i].worker.batch;
      && (Refuses(reply) || ReceiptFor(reply, batch, id, true) || ReceiptFor(reply, batch, id, false))
      && (id in run[i + 1].store.dead <==> Refuses(reply) || ReceiptFor(reply, batch, id, true))
      && (id !in run[i + 1].store.dead ==> id in run[i + 1].server)
  {
    RunKeeps(run, es, i);
    RunKeeps(run, es, i + 1);
    assert Step(run[i], es[i], run[i + 1]);
    if !Settles(run[i], es[i]) {
      OthersKeepRows(run[i], es[i]);
    } else {
      SettlingTakes(run[i], es[i]);
      LeavesByAnswer(run[i], es[i], run[i + 1], id);
    }
  }

  lemma LeavesByAnswer(s: State, e: Event, t: State, id: string)
    requires Settles(s, e) && Taken(s.store, t.store, s.worker.batch, s.worker.reply, e.at) && Inv(s) && Inv(t)
    requires id in s.store.rows && id !in t.store.rows && id in t.committed
    ensures var reply, batch := s.worker.reply, s.worker.batch;
      && Listed(batch, id) && (Refuses(reply) || ReceiptFor(reply, batch, id, true)
                             || ReceiptFor(reply, batch, id, false))
      && (id in t.store.dead <==> Refuses(reply) || ReceiptFor(reply, batch, id, true))
      && (id !in t.store.dead ==> id in t.server)
  {
    hide Paced, StoreKnown, ServerKnown, KnownRecords, WorkerOk;
    var reply, batch := s.worker.reply, s.worker.batch;
    assert Safe(t, id);
    assert id !in s.store.dead;
    if Confirms(reply, batch) {
      ReceiptsAreForSent(reply, batch, id);
    }
  }

  lemma ReceiptsAreForSent(reply: Reply, sent: seq<AttendanceRecord>, id: string)
    ensures ReceiptFor(reply, sent, id, true) || ReceiptFor(reply, sent, id, false) ==> Listed(sent, id)
  {
  }

  /** An upload that got no answer, or one that is neither a success with receipts nor a refusal of the credential or
      the batch, moves nothing: what waits and what is rejected stays the same, and each sent event has failed once more
      and waits for at least a second. */
  lemma FailureMovesNothing(run: seq<State>, es: seq<Event>, i: nat)
    requires Run(run, es) && Init(run[0]) && i < |es| && Settles(run[i], es[i])
    requires Fails(run[i].worker.reply, run[i].worker.batch)
    ensures Waits(run[i].store, run[i + 1].store, run[i].worker.batch, es[i].at, WhyFailed(run[i].worker.reply))
  {
    hide Waits;
    RunKeeps(run, es, i);
    assert Step(run[i], es[i], run[i + 1]);
    SettlingTakes(run[i], es[i]);
  }

  /** 400 and 422 reject exactly the events sent; 401 and 403 change nothing. */
  lemma RefusalsInRuns(run: seq<State>, es: seq<Event>, i: nat)
    requires Run(run, es) && Init(run[0]) && i < |es| && Settles(run[i], es[i]) && run[i].worker.reply.Reply?
    ensures run[i].worker.reply.status in {400, 422} ==>
      AllRejected(run[i].store, run[i + 1].store, run[i].worker.batch, SchemaRejected(run[i].worker.reply.status))
    ensures run[i].worker.reply.status in {401, 403} ==> run[i + 1].store == run[i].store
  {
    hide AllRejected, Waits, ReceiptsTaken;
    RunKeeps(run, es, i);
    assert Step(run[i], es[i], run[i + 1]);
    SettlingTakes(run[i], es[i]);
  }

  // ---------- failures are counted

  /** The step counts as a failed upload of the event: its batch failed, or its receipt was missing. */
  ghost predicate FailsIn(s: State, e: Event, id: string) {
    || (Settles(s, e) && Fails(s.worker.reply, s.worker.batch) && Listed(s.worker.batch, id))
    || (e.PostponeRest? && e.commit != RolledBack && s.worker.Remaining? && Listed(s.worker.left, id))
  }

  /** How often the event's upload has failed since it was stored. */
  ghost function Failures(run: seq<State>, es: seq<Event>, i: nat, id: string): nat
    requires |run| == |es| + 1 && i <= |es|
  {
    if i == 0 || id !in run[i - 1].store.rows then 0
    else Failures(run, es, i - 1, id) + if FailsIn(run[i - 1], es[i - 1], id) then 1 else 0
  }

  lemma StepCountsFailure(s: State, e: Event, id: string)
    requires Inv(s) && Enabled(s, e) && id in s.store.rows && id in Apply(s, e).store.rows
    ensures var row, was := Apply(s, e).store.rows[id], s.store.rows[id];
      row.attempts == if !FailsIn(s, e, id) then was.attempts else if was.attempts < 30 then was.attempts + 1 else 30
  {
    hide Disjoint, Paced, StoreKnown, ServerKnown, Waits, Confirms;
    if Settles(s, e) {
      SettlingTakes(s, e);
      SettledCount(s, e, Apply(s, e).store, id);
    } else if e.PostponeRest? && e.commit != RolledBack {
      var left := s.worker.left;
      RetryAtBounds(e.at, MaxAttempts(left), s.worker.header, e.jitter);
      RetriedWaits(s.store, left, RetryAt(e.at, MaxAttempts(left), s.worker.header, e.jitter), MissingAck, e.at);
      WaitingCounts(s.store, Apply(s, e).store, left, e.at, MissingAck, id);
    }
  }

  lemma WaitingCounts(s: Store, t: Store, rs: seq<AttendanceRecord>, at: int, reason: Reason, id: string)
    requires Waits(s, t, rs, at, reason) && id in s.rows && id in t.rows
    ensures t.rows[id].attempts == if !Listed(rs, id) then s.rows[id].attempts
                                   else if s.rows[id].attempts < 30 then s.rows[id].attempts + 1 else 30
  {
  }

  lemma SettledCount(s: State, e: Event, t: Store, id: string)
    requires Settles(s, e) && Taken(s.store, t, s.worker.batch, s.worker.reply, e.at)
    requires id in s.store.rows && id in t.rows
    ensures t.rows[id].attempts == if !FailsIn(s, e, id) then s.store.rows[id].attempts
                                   else if s.store.rows[id].attempts < 30 then s.store.rows[id].attempts + 1 else 30
  {
    hide Waits, Confirms;
    if Fails(s.worker.reply, s.worker.batch) {
      WaitingCounts(s.store, t, s.worker.batch, e.at, WhyFailed(s.worker.reply), id);
    }
  }

  lemma NewRowsStartAtZero(s: State, e: Event, id: string)
    requires Inv(s) && Enabled(s, e) && id !in s.store.rows && id in Apply(s, e).store.rows
    ensures Apply(s, e).store.rows[id].attempts == 0
  {
    if Settles(s, e) {
      SettlingTakes(s, e);
    } else if e.PostponeRest? {
      RetriedKeeps(s.store, s.used, s.worker.left, RetryAt(e.at, MaxAttempts(s.worker.left), s.worker.header, e.jitter),
                   MissingAck);
    }
  }

  /** The attempts of an event stored during the run are its failed uploads since then, counted up to thirty. */
  lemma {:induction false} AttemptsAreFailures(run: seq<State>, es: seq<Event>, i: nat, id: string)
    requires Run(run, es) && Init(run[0]) && i <= |es| && id !in run[0].store.rows && id in run[i].store.rows
    ensures run[i].store.rows[id].attempts == if Failures(run, es, i, id) < 30 then Failures(run, es, i, id) else 30
  {
    hide Init, Inv, FailsIn;
    RunKeeps(run, es, i - 1);
    assert Step(run[i - 1], es[i - 1], run[i]);
    if id in run[i - 1].store.rows {
      AttemptsAreFailures(run, es, i - 1, id);
      StepCountsFailure(run[i - 1], es[i - 1], id);
    } else {
      NewRowsStartAtZero(run[i - 1], es[i - 1], id);
    }
  }
}
