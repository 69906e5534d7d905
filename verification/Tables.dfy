/** The tables as the database holds them, all tickets together, and one ticket's part of them. */
module Tables {
  import opened Wrappers
  import opened Models
  import opened TaskQueue
  import opened WorkflowRuns
  import opened Graph
  import opened SideEffects
  import opened Engine

  datatype Contents = Contents(
    tasks: Table, runs: map<Id, Run>, archive: map<Id, Run>, signals: map<nat, Signal>, nextSignal: nat,
    threads: map<Id, Checkpoint>,
    refunds: map<Id, real>, sentReplies: map<Id, SentReply>, results: map<Id, TicketResult>,
    refundAttempts: seq<(Id, nat)>, replyAttempts: seq<(Id, nat)>)

  function Lookup<K, V>(m: map<K, V>, k: K): Option<V> {
    if k in m then Some(m[k]) else None
  }

  // ----- one ticket's part

  function TasksOf(q: Table, id: Id): Table {
    Table(map key | key in q.rows && key.ticket == id :: q.rows[key], q.nextId)
  }

  function SignalsOf(signals: map<nat, Signal>, id: Id): map<nat, Signal> {
    map i | i in signals && signals[i].workflowId == id :: signals[i]
  }

  function AttemptsOf(log: seq<(Id, nat)>, id: Id): seq<nat> {
    if log == [] then []
    else
      AttemptsOf(log[..|log| - 1], id) + (if log[|log| - 1].0 == id then [log[|log| - 1].1] else [])
  }

  function EffectsOf(t: Contents, id: Id): Effects {
    Effects(Lookup(t.refunds, id), Lookup(t.sentReplies, id), Lookup(t.results, id),
            AttemptsOf(t.refundAttempts, id), AttemptsOf(t.replyAttempts, id))
  }

  // No actors and no history: the tables hold neither.
  function RowsOf(t: Contents, id: Id): Rows {
    Fresh(id).(tasks := TasksOf(t.tasks, id), run := Lookup(t.runs, id), archived := Lookup(t.archive, id),
               signals := SignalsOf(t.signals, id), nextSignal := t.nextSignal, cp := Lookup(t.threads, id),
               fx := EffectsOf(t, id))
  }

  predicate SameTables(s: Rows, t: Rows) {
    && s.id == t.id && s.tasks == t.tasks && s.run == t.run && s.archived == t.archived
    && s.signals == t.signals && s.nextSignal == t.nextSignal && s.cp == t.cp && s.fx == t.fx
  }

  // ----- what a transaction about one ticket leaves alone

  predicate SameAt<K, V(==)>(m: map<K, V>, n: map<K, V>, k: K) {
    Lookup(m, k) == Lookup(n, k)
  }

  ghost predicate Elsewhere(t: Contents, u: Contents, id: Id) {
    && (forall key: Key | key.ticket != id :: SameAt(t.tasks.rows, u.tasks.rows, key))
    && (forall i | i in t.signals && t.signals[i].workflowId != id :: SameAt(t.signals, u.signals, i))
    && (forall i | i in u.signals && u.signals[i].workflowId != id :: SameAt(t.signals, u.signals, i))
    && (forall j: Id | j != id ::
          && SameAt(t.runs, u.runs, j) && SameAt(t.archive, u.archive, j) && SameAt(t.threads, u.threads, j)
          && EffectsOf(t, j) == EffectsOf(u, j))
    && t.tasks.nextId <= u.tasks.nextId && t.nextSignal <= u.nextSignal
  }

  lemma {:induction false} TasksMove(t: Contents, q: Table, id: Id)
    requires forall key: Key | key.ticket != id :: SameAt(t.tasks.rows, q.rows, key)
    requires t.tasks.nextId <= q.nextId
    ensures Elsewhere(t, t.(tasks := q), id)
  {
    assert forall j: Id :: EffectsOf(t, j) == EffectsOf(t.(tasks := q), j);
  }

  lemma {:induction false} RunsMove(t: Contents, runs: map<Id, Run>, id: Id)
    requires forall j: Id | j != id :: SameAt(t.runs, runs, j)
    ensures Elsewhere(t, t.(runs := runs), id)
  {
    assert forall j: Id :: EffectsOf(t, j) == EffectsOf(t.(runs := runs), j);
  }

  // Nothing but the effect ledgers differs.
  predicate OnlyEffects(t: Contents, u: Contents) {
    u == t.(refunds := u.refunds, refundAttempts := u.refundAttempts, sentReplies := u.sentReplies,
            replyAttempts := u.replyAttempts, results := u.results)
  }

  lemma {:induction false} EffectsMove(t: Contents, u: Contents, id: Id)
    requires OnlyEffects(t, u) && forall j: Id | j != id :: EffectsOf(t, j) == EffectsOf(u, j)
    ensures Elsewhere(t, u, id)
  {
  }

  lemma {:induction false} ElsewhereTransitive(t: Contents, u: Contents, v: Contents, id: Id)
    requires Elsewhere(t, u, id) && Elsewhere(u, v, id)
    ensures Elsewhere(t, v, id)
  {
    forall key: Key | key.ticket != id ensures SameAt(t.tasks.rows, v.tasks.rows, key) {
      assert SameAt(t.tasks.rows, u.tasks.rows, key) && SameAt(u.tasks.rows, v.tasks.rows, key);
    }
    forall i | i in t.signals && t.signals[i].workflowId != id ensures SameAt(t.signals, v.signals, i) {
      assert SameAt(t.signals, u.signals, i) && SameAt(u.signals, v.signals, i);
    }
    forall i | i in v.signals && v.signals[i].workflowId != id ensures SameAt(t.signals, v.signals, i) {
      assert SameAt(u.signals, v.signals, i) && SameAt(t.signals, u.signals, i);
    }
    forall j: Id | j != id
      ensures SameAt(t.runs, v.runs, j) && SameAt(t.archive, v.archive, j) && SameAt(t.threads, v.threads, j)
              && EffectsOf(t, j) == EffectsOf(v, j)
    {
      assert SameAt(t.runs, u.runs, j) && SameAt(u.runs, v.runs, j);
    }
  }

  lemma {:induction false} TasksElsewhere(t: Contents, u: Contents, id: Id, j: Id)
    requires Elsewhere(t, u, id) && j != id
    ensures TasksOf(u.tasks, j).rows == TasksOf(t.tasks, j).rows
  {
    var a, b := TasksOf(t.tasks, j).rows, TasksOf(u.tasks, j).rows;
    forall key: Key ensures SameAt(a, b, key) {
      if key.ticket == j {
        assert SameAt(t.tasks.rows, u.tasks.rows, key);
      }
    }
    SameEverywhere(a, b);
  }

  lemma {:induction false} SignalsElsewhere(t: Contents, u: Contents, id: Id, j: Id)
    requires Elsewhere(t, u, id) && j != id
    ensures SignalsOf(u.signals, j) == SignalsOf(t.signals, j)
  {
    var a, b := SignalsOf(t.signals, j), SignalsOf(u.signals, j);
    forall i: nat ensures SameAt(a, b, i) {
      if i in a || i in b {
        assert SameAt(t.signals, u.signals, i);
      }
    }
    SameEverywhere(a, b);
  }

  lemma {:induction false} SameEverywhere<K, V>(a: map<K, V>, b: map<K, V>)
    requires forall k :: SameAt(a, b, k)
    ensures a == b
  {
    forall k ensures k in a <==> k in b ensures k in a ==> a[k] == b[k] {
      assert SameAt(a, b, k);
    }
  }

  /** To every other ticket, a transaction about one is that some serial numbers are gone. */
  lemma {:induction false} OthersSkipSerials(t: Contents, u: Contents, id: Id, j: Id)
    requires Elsewhere(t, u, id) && j != id
    ensures RowsOf(u, j)
            == DoSerials(RowsOf(t, j), u.tasks.nextId - t.tasks.nextId, u.nextSignal - t.nextSignal)
  {
    TasksElsewhere(t, u, id, j);
    SignalsElsewhere(t, u, id, j);
    assert SameAt(t.runs, u.runs, j) && EffectsOf(t, j) == EffectsOf(u, j);
  }

  // ----- the ticket's part of each statement is that statement on the ticket's part

  lemma {:induction false} EnqueueLocal(q: Table, now: Time, key: Key, queue: Queue, payload: Payload)
    ensures TasksOf(Enqueue(q, now, key, queue, payload), key.ticket)
            == Enqueue(TasksOf(q, key.ticket), now, key, queue, payload)
  {
    assert TasksOf(Enqueue(q, now, key, queue, payload), key.ticket).rows
           == Enqueue(TasksOf(q, key.ticket), now, key, queue, payload).rows;
  }

  lemma {:induction false} CancelLocal(q: Table, key: Key, reason: string)
    ensures IsPending(TasksOf(q, key.ticket), key) == IsPending(q, key)
    ensures TasksOf(CancelPending(q, key, reason), key.ticket) == CancelPending(TasksOf(q, key.ticket), key, reason)
  {
    assert TasksOf(CancelPending(q, key, reason), key.ticket).rows
           == CancelPending(TasksOf(q, key.ticket), key, reason).rows;
  }

  lemma {:induction false} TxnLocal(q: Table, id: Id, now: Time, txn: Txn)
    requires !txn.NoTxn? ==> txn.key.ticket == id
    ensures TasksOf(ApplyTxn(q, now, txn), id) == ApplyTxn(TasksOf(q, id), now, txn)
    ensures Redispatches(TasksOf(q, id), txn) == Redispatches(q, txn)
    ensures forall key: Key | key.ticket != id :: SameAt(q.rows, ApplyTxn(q, now, txn).rows, key)
  {
    match txn
    case NoTxn =>
    case Dispatch(key, queue, payload) => EnqueueLocal(q, now, key, queue, payload);
    case Redispatch(key, payload) =>
      CancelLocal(q, key, "redispatched to fallback");
      if IsPending(q, key) {
        EnqueueLocal(CancelPending(q, key, "redispatched to fallback"), now, FallbackOf(key), FallbackQueue, payload);
      }
  }

  lemma {:induction false} CompleteLocal(q: Table, taskId: nat, result: TaskResult, id: Id)
    ensures TasksOf(Complete(q, taskId, result), id) == Complete(TasksOf(q, id), taskId, result)
  {
    assert TasksOf(Complete(q, taskId, result), id).rows == Complete(TasksOf(q, id), taskId, result).rows;
  }

  lemma {:induction false} FailLocal(q: Table, now: Time, taskId: nat, error: string, permanent: bool, id: Id)
    ensures TasksOf(Fail(q, now, taskId, error, permanent), id) == Fail(TasksOf(q, id), now, taskId, error, permanent)
  {
    assert TasksOf(Fail(q, now, taskId, error, permanent), id).rows
           == Fail(TasksOf(q, id), now, taskId, error, permanent).rows;
  }

  /** The statements over all rows act on each ticket's part as on a table of its own. */
  lemma {:induction false} SweepsLocal(q: Table, now: Time, maxAge: Time, id: Id)
    ensures TasksOf(ReclaimExpired(q, now), id) == ReclaimExpired(TasksOf(q, id), now)
    ensures TasksOf(PruneSettled(q, now, maxAge), id) == PruneSettled(TasksOf(q, id), now, maxAge)
  {
    assert TasksOf(ReclaimExpired(q, now), id).rows == ReclaimExpired(TasksOf(q, id), now).rows;
    assert TasksOf(PruneSettled(q, now, maxAge), id).rows == PruneSettled(TasksOf(q, id), now, maxAge).rows;
  }

  lemma {:induction false} LeaseLocal(q: Table, now: Time, key: Key, owner: string)
    requires key in q.rows
    ensures TasksOf(Lease(q, now, key, owner), key.ticket) == Lease(TasksOf(q, key.ticket), now, key, owner)
  {
    assert TasksOf(Lease(q, now, key, owner), key.ticket).rows == Lease(TasksOf(q, key.ticket), now, key, owner).rows;
  }

  lemma {:induction false} OldestLocal(signals: map<nat, Signal>, id: Id, lo: nat, next: nat)
    ensures OldestUnconsumed(SignalsOf(signals, id), id, lo, next) == OldestUnconsumed(signals, id, lo, next)
    decreases next - lo
  {
    if lo < next {
      OldestLocal(signals, id, lo + 1, next);
    }
  }

  lemma {:induction false} SignalsLocal(signals: map<nat, Signal>, now: Time, signal: nat, maxAge: Time, id: Id)
    ensures SignalsOf(Consume(signals, now, signal), id) == Consume(SignalsOf(signals, id), now, signal)
    ensures SignalsOf(PruneConsumed(signals, now, maxAge), id) == PruneConsumed(SignalsOf(signals, id), now, maxAge)
  {
  }

  // Envelopes name their own ticket.
  predicate EnvelopeOf(id: Id, envelope: Envelope) {
    if envelope.ApprovalEnvelope? then envelope.ticketId == id else envelope.key.ticket == id
  }

  lemma {:induction false} ResumeLocal(t: Contents, id: Id, envelope: Envelope, wakeupAt: Option<Time>)
    requires EnvelopeOf(id, envelope)
    ensures var s := RowsOf(t, id);
            ResumeForRun(s.tasks, s.signals, s.nextSignal, envelope, wakeupAt)
            == ResumeForRun(t.tasks, t.signals, t.nextSignal, envelope, wakeupAt)
  {
    OldestLocal(t.signals, id, 0, t.nextSignal);
  }
}
