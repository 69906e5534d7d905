/** The workers' handling of one task. Undisturbed, it is a run of the engine's steps. */
module Worker {
  import opened Wrappers
  import opened Models
  import opened TaskQueue
  import opened WorkflowRuns
  import opened SideEffects
  import opened Engine
  import opened Tables
  import opened Store
  import opened Invocations

  // ----- finalizing

  function RefundOn(t: Contents, id: Id, amount: real, attempt: nat): Contents {
    t.(refunds := if id in t.refunds then t.refunds else t.refunds[id := amount],
       refundAttempts := t.refundAttempts + [(id, attempt)])
  }

  function ReplyOn(t: Contents, id: Id, reply: SentReply, attempt: nat): Contents {
    t.(sentReplies := if id in t.sentReplies then t.sentReplies else t.sentReplies[id := reply],
       replyAttempts := t.replyAttempts + [(id, attempt)])
  }

  function ResultOn(t: Contents, result: TicketResult): Contents {
    t.(results := t.results[result.ticketId := result])
  }

  function FinalizeOn(t: Contents, p: Payload, attempt: nat): Contents
    requires p.FinalizePayload?
  {
    var u := if Refundable(p) then RefundOn(t, p.ticket.id, p.action.amount, attempt) else t;
    ResultOn(ReplyOn(u, p.ticket.id, ReplyOf(p), attempt), FinalResult(p))
  }

  // `None` is the error raised on a task of another type.
  method RunFinalize(db: Database, p: Payload, attempt: nat) returns (result: Option<TicketResult>)
    modifies db`refunds, db`refundAttempts, db`sentReplies, db`replyAttempts, db`results
    ensures result == if p.FinalizePayload? then Some(FinalResult(p)) else None
    ensures db.Now() == if p.FinalizePayload? then FinalizeOn(old(db.Now()), p, attempt) else old(db.Now())
  {
    if !p.FinalizePayload? {
      return None;
    }
    var refundExecuted := false;
    if p.result.status.Resolved? && p.action.Refund? {
      var _ := db.RecordRefund(p.ticket.id, p.action.amount, attempt);
      refundExecuted := p.ticket.id in db.refunds;
    }
    var _ := db.RecordSentReply(p.ticket.id, ReplyOf(p), attempt);
    var final := p.result.(refundExecuted := refundExecuted);
    db.SaveResult(final);
    result := Some(final);
  }

  lemma {:induction false} AttemptLogged(log: seq<(Id, nat)>, id: Id, attempt: nat, j: Id)
    ensures AttemptsOf(log + [(id, attempt)], j) == AttemptsOf(log, j) + (if j == id then [attempt] else [])
  {
    assert (log + [(id, attempt)])[..|log|] == log;
  }

  lemma {:induction false} RefundEffects(t: Contents, id: Id, amount: real, attempt: nat, j: Id)
    ensures EffectsOf(RefundOn(t, id, amount, attempt), j)
            == if j == id then RecordRefund(EffectsOf(t, j), amount, attempt) else EffectsOf(t, j)
  {
    AttemptLogged(t.refundAttempts, id, attempt, j);
  }

  lemma {:induction false} ReplyEffects(t: Contents, id: Id, reply: SentReply, attempt: nat, j: Id)
    ensures EffectsOf(ReplyOn(t, id, reply, attempt), j)
            == if j == id then RecordSentReply(EffectsOf(t, j), reply, attempt) else EffectsOf(t, j)
  {
    AttemptLogged(t.replyAttempts, id, attempt, j);
  }

  // The effects of `FinalizeOn`, row by row.
  function FinalizeEffects(fx: Effects, p: Payload, attempt: nat): Effects
    requires p.FinalizePayload?
  {
    var gx := if Refundable(p) then RecordRefund(fx, p.action.amount, attempt) else fx;
    SideEffects.SaveResult(RecordSentReply(gx, ReplyOf(p), attempt), FinalResult(p))
  }

  lemma {:induction false} FinalizesOwn(t: Contents, p: Payload, attempt: nat, j: Id)
    requires p.FinalizePayload? && PayloadOf(p.ticket.id, p)
    ensures EffectsOf(FinalizeOn(t, p, attempt), j)
            == if j == p.ticket.id then FinalizeEffects(EffectsOf(t, j), p, attempt) else EffectsOf(t, j)
  {
    var id := p.ticket.id;
    var u := if Refundable(p) then RefundOn(t, id, p.action.amount, attempt) else t;
    if Refundable(p) {
      RefundEffects(t, id, p.action.amount, attempt, j);
    }
    ReplyEffects(u, id, ReplyOf(p), attempt, j);
    var v := ReplyOn(u, id, ReplyOf(p), attempt);
    assert EffectsOf(ResultOn(v, FinalResult(p)), j)
           == if j == id then EffectsOf(v, j).(result := Some(FinalResult(p))) else EffectsOf(v, j);
  }

  /** `RunFinalize` is one undisturbed delivery. */
  lemma {:induction false} FinalizeIsDelivery(fx: Effects, p: Payload, attempt: nat)
    requires p.FinalizePayload?
    ensures FinalizeEffects(fx, p, attempt) == RunToEnd(fx, NewDelivery(p, attempt))
  {
    var (f1, d1) := Deliver(fx, NewDelivery(p, attempt));
    var (f2, d2) := Deliver(f1, d1);
    var (f3, d3) := Deliver(f2, d2);
    var (f4, d4) := Deliver(f3, d3);
    assert RunToEnd(fx, NewDelivery(p, attempt)) == RunToEnd(f1, d1) == RunToEnd(f2, d2);
    assert d2.progress.Recorded? || RunToEnd(f2, d2) == RunToEnd(f3, d3) == RunToEnd(f4, d4);
  }

  // ----- one task

  // What a worker's activity comes to.
  datatype Answer = Reply(result: TaskResult) | Transient(error: string) | Permanent(error: string)

  const UNEXPECTED: string := "unexpected task_type"

  // What the worker of this queue answers a task with.
  function AnswerOf(queue: Queue, p: Payload, agent: Payload -> Answer): Answer {
    if p.FinalizePayload? then
      if queue.SideEffectQueue? then Reply(Finalized(FinalResult(p))) else Transient(UNEXPECTED)
    else if queue.SideEffectQueue? then Transient(UNEXPECTED)
    else agent(p)
  }

  function ActOn(t: Contents, queue: Queue, p: Payload, attempt: nat): Contents {
    if queue.SideEffectQueue? && p.FinalizePayload? then FinalizeOn(t, p, attempt) else t
  }

  function RefundsAfter(refunds: map<Id, real>, queue: Queue, p: Payload): map<Id, real> {
    if queue.SideEffectQueue? && Refundable(p) && p.ticket.id !in refunds then refunds[p.ticket.id := p.action.amount]
    else refunds
  }

  lemma {:induction false} FinalizeLeaves(t: Contents, p: Payload, attempt: nat)
    requires p.FinalizePayload?
    ensures OnlyEffects(t, FinalizeOn(t, p, attempt))
    ensures FinalizeOn(t, p, attempt).refunds
            == if Refundable(p) then RefundOn(t, p.ticket.id, p.action.amount, attempt).refunds else t.refunds
  {
    if Refundable(p) {
      var u := RefundOn(t, p.ticket.id, p.action.amount, attempt);
      assert OnlyEffects(t, u) && OnlyEffects(u, ReplyOn(u, p.ticket.id, ReplyOf(p), attempt));
    } else {
      assert OnlyEffects(t, ReplyOn(t, p.ticket.id, ReplyOf(p), attempt));
    }
  }

  // An activity touches nothing but the effect ledgers, and the refunds as its payload says.
  lemma {:induction false} ActLeaves(t: Contents, queue: Queue, p: Payload, attempt: nat)
    ensures var u := ActOn(t, queue, p, attempt);
            OnlyEffects(t, u) && u.refunds == RefundsAfter(t.refunds, queue, p)
  {
    if queue.SideEffectQueue? && p.FinalizePayload? {
      FinalizeLeaves(t, p, attempt);
    }
  }

  method RunActivity(
    db: Database, queue: Queue, p: Payload, attempt: nat, agent: Payload -> Answer) returns (answer: Answer)
    modifies db`refunds, db`refundAttempts, db`sentReplies, db`replyAttempts, db`results
    ensures answer == AnswerOf(queue, p, agent) && db.Now() == ActOn(old(db.Now()), queue, p, attempt)
  {
    match queue
    case SideEffectQueue =>
      var result := RunFinalize(db, p, attempt);
      answer := if result.Some? then Reply(Finalized(result.value)) else Transient(UNEXPECTED);
    case _ =>
      if p.FinalizePayload? {
        return Transient(UNEXPECTED);
      }
      answer := agent(p);
  }

  function WakeOn(t: Contents, id: Id, now: Time): Contents {
    t.(runs := if id in t.runs then t.runs[id := WakeRow(t.runs[id], now)] else t.runs)
  }

  function StoreOn(t: Contents, taskId: nat, answer: Answer, now: Time): Contents {
    t.(tasks := if answer.Reply? then TaskQueue.Complete(t.tasks, taskId, answer.result)
                else TaskQueue.Fail(t.tasks, now, taskId, answer.error, answer.Permanent?))
  }

  // The answer settled a leased row.
  predicate Settles(q: Table, taskId: nat, answer: Answer) {
    if answer.Reply? then LeasedId(q, taskId) else FailsForGood(q, taskId, answer.Permanent?)
  }

  // Store the answer; wake the run if that settled a leased row.
  function SettleOn(t: Contents, id: Id, taskId: nat, answer: Answer, clock: Clock): Contents {
    var u := StoreOn(t, taskId, answer, clock(1));
    if Settles(t.tasks, taskId, answer) then WakeOn(u, id, clock(2)) else u
  }

  method Settle(db: Database, id: Id, taskId: nat, answer: Answer, clock: Clock)
    modifies db`tasks, db`runs
    ensures db.Now() == SettleOn(old(db.Now()), id, taskId, answer, clock)
  {
    var wake;
    match answer {
      case Reply(result) => wake := db.Complete(taskId, result);
      case _ =>
        var status := db.Fail(clock(1), taskId, answer.error, answer.Permanent?);
        wake := status == Some(Failed);
    }
    if wake {
      db.WakeRun(clock(2), id);
    }
  }

  function LeaseOn(t: Contents, key: Key, worker: string, now: Time): Contents
    requires key in t.tasks.rows
  {
    t.(tasks := Lease(t.tasks, now, key, worker))
  }

  // Everything a worker does with a task it could lease.
  function WorkOn(t: Contents, key: Key, queue: Queue, worker: string, agent: Payload -> Answer, clock: Clock): Contents
    requires key in t.tasks.rows
  {
    var u := LeaseOn(t, key, worker, clock(0));
    var row := u.tasks.rows[key];
    SettleOn(ActOn(u, queue, row.payload, row.attempts), key.ticket, row.id, AnswerOf(queue, row.payload, agent), clock)
  }

  method ProcessOneTask(db: Database, queue: Queue, worker: string, agent: Payload -> Answer, clock: Clock)
    returns (leased: Option<Key>)
    modifies db`tasks, db`runs, db`refunds, db`refundAttempts, db`sentReplies, db`replyAttempts, db`results
    ensures leased.None? ==> db.Now() == old(db.Now()) && forall key :: !IsDue(db.tasks, clock(0), queue, key)
    ensures leased.Some? ==>
              && IsDue(old(db.tasks), clock(0), queue, leased.value)
              && (forall key :: IsDue(old(db.tasks), clock(0), queue, key) ==>
                    old(db.tasks).rows[leased.value].availableAt <= old(db.tasks).rows[key].availableAt)
              && db.Now() == WorkOn(old(db.Now()), leased.value, queue, worker, agent, clock)
  {
    leased := db.Dequeue(clock(0), queue, worker);
    if leased.None? {
      return None;
    }
    var row := db.tasks.rows[leased.value];
    var answer := RunActivity(db, queue, row.payload, row.attempts, agent);
    Settle(db, leased.value.ticket, row.id, answer, clock);
  }

  // ----- the same work by one process of the engine

  lemma {:induction false} LeaseInStep(t: Contents, key: Key, s: Rows, queue: Queue, worker: string, now: Time)
    requires IsDue(t.tasks, now, queue, key) && InStep(t, key.ticket, s, None)
    ensures var u := LeaseOn(t, key, worker, now);
            InStep(u, key.ticket, DoDequeue(s, now, 0, key, queue, worker), Some(LeasedActor(u.tasks.rows[key])))
  {
    LeaseLocal(t.tasks, now, key, worker);
    assert key in s.tasks.rows && s.tasks.rows[key] == t.tasks.rows[key];
    assert EffectsOf(LeaseOn(t, key, worker, now), key.ticket) == EffectsOf(t, key.ticket);
  }

  // All of a delivery's commits but the last, which completes the task.
  function Delivered(s: Rows, n: nat): Rows
    decreases n
  {
    if n == 0 then s else Delivered(DoSideEffect(s, 0), n - 1)
  }

  function Commits(p: Payload): nat { if Refundable(p) then 4 else 2 }

  lemma {:induction false} DeliveredOnce(s: Rows, taskId: nat, d: Delivery)
    requires s.actors == map[0 := Finalizing(taskId, d)] && d.payload.FinalizePayload? && !d.progress.Recorded?
    ensures var (fx, e) := Deliver(s.fx, d);
            DoSideEffect(s, 0) == s.(fx := fx, actors := map[0 := Finalizing(taskId, e)])
  {
    assert s.actors[0 := Finalizing(taskId, Deliver(s.fx, d).1)] == map[0 := Finalizing(taskId, Deliver(s.fx, d).1)];
  }

  function Left(d: Delivery): nat {
    match d.progress
    case Began => Commits(d.payload)
    case Refunded => 3
    case LedgerRead => 2
    case Replied => 1
    case Recorded => 0
  }

  // What the delivery will have read from the ledger.
  function WillExecute(fx: Effects, d: Delivery): bool {
    match d.progress
    case Began => Refundable(d.payload)
    case Refunded => fx.refund.Some?
    case _ => d.refundExecuted
  }

  lemma {:induction false} DeliveredIs(s: Rows, taskId: nat, d: Delivery) returns (e: Delivery)
    requires s.actors == map[0 := Finalizing(taskId, d)] && d.payload.FinalizePayload?
    requires d.progress.Began? ==> !d.refundExecuted
    ensures Delivered(s, Left(d)) == s.(fx := RunToEnd(s.fx, d), actors := map[0 := Finalizing(taskId, e)])
    ensures e == Delivery(d.payload, d.attempt, Recorded, WillExecute(s.fx, d))
    decreases Left(d)
  {
    if d.progress.Recorded? {
      e := d;
    } else {
      var (fx, d') := Deliver(s.fx, d);
      DeliveredOnce(s, taskId, d);
      assert Left(d) == Left(d') + 1 && WillExecute(fx, d') == WillExecute(s.fx, d);
      e := DeliveredIs(s.(fx := fx, actors := map[0 := Finalizing(taskId, d')]), taskId, d');
    }
  }

  lemma {:induction false} DeliverInStep(t: Contents, id: Id, s: Rows, taskId: nat, p: Payload, attempt: nat)
    requires p.FinalizePayload? && PayloadOf(id, p)
    requires InStep(t, id, s, Some(Finalizing(taskId, NewDelivery(p, attempt))))
    ensures InStep(FinalizeOn(t, p, attempt), id, Delivered(s, Commits(p)),
                   Some(Finalizing(taskId, Delivery(p, attempt, Recorded, Refundable(p)))))
  {
    var d := NewDelivery(p, attempt);
    var e := DeliveredIs(s, taskId, d);
    assert Left(d) == Commits(p);
    FinalizesOwn(t, p, attempt, id);
    FinalizeIsDelivery(s.fx, p, attempt);
  }

  predicate OnlyHere(q: Table, taskId: nat, id: Id) {
    forall key :: key in q.rows && q.rows[key].id == taskId ==> key.ticket == id
  }

  lemma {:induction false} LeasedHere(q: Table, taskId: nat, id: Id)
    requires OnlyHere(q, taskId, id)
    ensures LeasedId(TasksOf(q, id), taskId) == LeasedId(q, taskId)
  {
    var r := TasksOf(q, id).rows;
    assert forall key :: key in r ==> key in q.rows && r[key] == q.rows[key];
    assert forall key :: key in q.rows && q.rows[key].id == taskId ==> key in r;
  }

  lemma {:induction false} FailsHere(q: Table, taskId: nat, id: Id, permanent: bool)
    requires OnlyHere(q, taskId, id)
    ensures FailsForGood(TasksOf(q, id), taskId, permanent) == FailsForGood(q, taskId, permanent)
  {
    var r := TasksOf(q, id).rows;
    assert forall key :: key in r ==> key in q.rows && r[key] == q.rows[key];
    assert forall key :: key in q.rows && q.rows[key].id == taskId ==> key in r;
  }

  function WakingIf(b: bool): Option<Actor> { if b then Some(Waking) else None }

  lemma {:induction false} WakeInStep(t: Contents, id: Id, s: Rows, settled: bool, now: Time)
    requires InStep(t, id, s, WakingIf(settled))
    ensures InStep(if settled then WakeOn(t, id, now) else t, id, DoWake(s, now, 0), None)
  {
    assert EffectsOf(WakeOn(t, id, now), id) == EffectsOf(t, id);
  }

  lemma {:induction false} FinishMoves(s: Rows, x: Actor, taskId: nat, result: TaskResult)
    requires s.actors == map[0 := x]
    ensures Finish(s, 0, taskId, result)
            == s.(tasks := TaskQueue.Complete(s.tasks, taskId, result),
                  actors := if LeasedId(s.tasks, taskId) then map[0 := Waking] else map[])
  {
    assert map[0 := x][0 := Waking] == map[0 := Waking];
    assert map[0 := x] - {0} == map[];
  }

  lemma {:induction false} CompleteInStep(
    t: Contents, id: Id, s: Rows, x: Actor, taskId: nat, answer: Answer, now: Time)
    requires InStep(t, id, s, Some(x)) && OnlyHere(t.tasks, taskId, id) && answer.Reply?
    ensures InStep(StoreOn(t, taskId, answer, now), id, Finish(s, 0, taskId, answer.result),
                   WakingIf(Settles(t.tasks, taskId, answer)))
  {
    FinishMoves(s, x, taskId, answer.result);
    CompleteLocal(t.tasks, taskId, answer.result, id);
    LeasedHere(t.tasks, taskId, id);
    assert EffectsOf(StoreOn(t, taskId, answer, now), id) == EffectsOf(t, id);
  }

  lemma {:induction false} ErrorMoves(s: Rows, x: Actor, now: Time, error: string, permanent: bool)
    requires s.actors == map[0 := x] && (x.Working? || x.Finalizing?)
    ensures DoTaskError(s, now, 0, error, permanent)
            == s.(tasks := TaskQueue.Fail(s.tasks, now, x.taskId, error, permanent),
                  actors := if FailsForGood(s.tasks, x.taskId, permanent) then map[0 := Waking] else map[])
  {
    assert map[0 := x][0 := Waking] == map[0 := Waking];
    assert map[0 := x] - {0} == map[];
  }

  lemma {:induction false} FailInStep(t: Contents, id: Id, s: Rows, x: Actor, taskId: nat, answer: Answer, now: Time)
    requires InStep(t, id, s, Some(x)) && OnlyHere(t.tasks, taskId, id) && !answer.Reply?
    requires (x.Working? || x.Finalizing?) && x.taskId == taskId
    ensures InStep(StoreOn(t, taskId, answer, now), id, DoTaskError(s, now, 0, answer.error, answer.Permanent?),
                   WakingIf(Settles(t.tasks, taskId, answer)))
  {
    ErrorMoves(s, x, now, answer.error, answer.Permanent?);
    FailLocal(t.tasks, now, taskId, answer.error, answer.Permanent?, id);
    FailsHere(t.tasks, taskId, id, answer.Permanent?);
    assert EffectsOf(StoreOn(t, taskId, answer, now), id) == EffectsOf(t, id);
  }

  // The engine process's steps between lease and wake.
  function EngineActs(s: Rows, queue: Queue, p: Payload, answer: Answer, now: Time): Rows {
    if queue.SideEffectQueue? && p.FinalizePayload? then DoSideEffect(Delivered(s, Commits(p)), 0)
    else if answer.Reply? then DoAgentReply(s, 0, answer.result)
    else DoTaskError(s, now, 0, answer.error, answer.Permanent?)
  }

  function EngineWork(s: Rows, key: Key, queue: Queue, worker: string, p: Payload, answer: Answer, clock: Clock): Rows {
    DoWake(EngineActs(DoDequeue(s, clock(0), 0, key, queue, worker), queue, p, answer, clock(1)), clock(2), 0)
  }

  lemma {:induction false} TaskHere(t: Contents, key: Key, worker: string, now: Time)
    requires key in t.tasks.rows && UniqueIds(t.tasks)
    ensures OnlyHere(LeaseOn(t, key, worker, now).tasks, t.tasks.rows[key].id, key.ticket)
  {
  }

  // The activity ran on the worker for the queue.
  predicate Fits(queue: Queue, p: Payload, answer: Answer) {
    if p.FinalizePayload? then
      if queue.SideEffectQueue? then answer == Reply(Finalized(FinalResult(p))) else !answer.Reply?
    else answer.Reply? ==> Answers(answer.result, p)
  }

  lemma {:induction false} AgentInStep(t: Contents, id: Id, s: Rows, queue: Queue, row: Task, answer: Answer, now: Time)
    requires InStep(t, id, s, Some(LeasedActor(row))) && OnlyHere(t.tasks, row.id, id)
    requires Fits(queue, row.payload, answer) && !(queue.SideEffectQueue? && row.payload.FinalizePayload?)
    ensures InStep(StoreOn(t, row.id, answer, now), id, EngineActs(s, queue, row.payload, answer, now),
                   WakingIf(Settles(t.tasks, row.id, answer)))
  {
    if answer.Reply? {
      CompleteInStep(t, id, s, LeasedActor(row), row.id, answer, now);
    } else {
      FailInStep(t, id, s, LeasedActor(row), row.id, answer, now);
    }
  }

  lemma {:induction false} SideEffectInStep(t: Contents, id: Id, s: Rows, queue: Queue, row: Task, now: Time)
    requires InStep(t, id, s, Some(LeasedActor(row))) && OnlyHere(t.tasks, row.id, id)
    requires queue.SideEffectQueue? && row.payload.FinalizePayload? && PayloadOf(id, row.payload)
    ensures var answer := Reply(Finalized(FinalResult(row.payload)));
            InStep(StoreOn(FinalizeOn(t, row.payload, row.attempts), row.id, answer, now), id,
                   EngineActs(s, queue, row.payload, answer, now), WakingIf(Settles(t.tasks, row.id, answer)))
  {
    var p := row.payload;
    var u := FinalizeOn(t, p, row.attempts);
    DeliverInStep(t, id, s, row.id, p, row.attempts);
    FinalizeLeaves(t, p, row.attempts);
    LastCommit(u, id, Delivered(s, Commits(p)), row.id, Delivery(p, row.attempts, Recorded, Refundable(p)), now);
  }

  lemma {:induction false} LastCommit(t: Contents, id: Id, s: Rows, taskId: nat, d: Delivery, now: Time)
    requires d.payload.FinalizePayload? && d.progress.Recorded? && d.refundExecuted == Refundable(d.payload)
    requires InStep(t, id, s, Some(Finalizing(taskId, d))) && OnlyHere(t.tasks, taskId, id)
    ensures var answer := Reply(Finalized(FinalResult(d.payload)));
            InStep(StoreOn(t, taskId, answer, now), id, DoSideEffect(s, 0), WakingIf(Settles(t.tasks, taskId, answer)))
  {
    assert ResultOf(d) == FinalResult(d.payload);
    CompleteInStep(t, id, s, Finalizing(taskId, d), taskId, Reply(Finalized(FinalResult(d.payload))), now);
  }

  // Between lease and wake.
  lemma {:induction false} ActInStep(
    t: Contents, id: Id, s: Rows, queue: Queue, row: Task, agent: Payload -> Answer, now: Time)
    requires InStep(t, id, s, Some(LeasedActor(row))) && OnlyHere(t.tasks, row.id, id) && PayloadOf(id, row.payload)
    requires forall p: Payload :: agent(p).Reply? ==> Answers(agent(p).result, p)
    ensures var answer := AnswerOf(queue, row.payload, agent);
            var u := ActOn(t, queue, row.payload, row.attempts);
            InStep(StoreOn(u, row.id, answer, now), id, EngineActs(s, queue, row.payload, answer, now),
                   WakingIf(Settles(u.tasks, row.id, answer)))
  {
    ActLeaves(t, queue, row.payload, row.attempts);
    if queue.SideEffectQueue? && row.payload.FinalizePayload? {
      SideEffectInStep(t, id, s, queue, row, now);
    } else {
      AgentInStep(t, id, s, queue, row, AnswerOf(queue, row.payload, agent), now);
    }
  }

  /** A worker's handling of one task is one engine process's run from lease to wake. */
  lemma {:induction false} WorkInStep(
    t: Contents, key: Key, s: Rows, queue: Queue, worker: string, agent: Payload -> Answer, clock: Clock)
    requires IsDue(t.tasks, clock(0), queue, key) && InStep(t, key.ticket, s, None)
    requires Keyed(t) && UniqueIds(t.tasks)
    requires forall p: Payload :: agent(p).Reply? ==> Answers(agent(p).result, p)
    ensures var p := t.tasks.rows[key].payload;
            InStep(WorkOn(t, key, queue, worker, agent, clock), key.ticket,
                   EngineWork(s, key, queue, worker, p, AnswerOf(queue, p, agent), clock), None)
  {
    var p := t.tasks.rows[key].payload;
    var answer := AnswerOf(queue, p, agent);
    var u := LeaseOn(t, key, worker, clock(0));
    var row := u.tasks.rows[key];
    var s1 := DoDequeue(s, clock(0), 0, key, queue, worker);
    LeaseInStep(t, key, s, queue, worker, clock(0));
    TaskHere(t, key, worker, clock(0));
    ActInStep(u, key.ticket, s1, queue, row, agent, clock(1));
    var v := ActOn(u, queue, p, row.attempts);
    WakeInStep(StoreOn(v, row.id, answer, clock(1)), key.ticket, EngineActs(s1, queue, p, answer, clock(1)),
               Settles(v.tasks, row.id, answer), clock(2));
  }

  lemma {:induction false} LeaseElsewhere(t: Contents, key: Key, worker: string, now: Time)
    requires key in t.tasks.rows
    ensures Elsewhere(t, LeaseOn(t, key, worker, now), key.ticket)
  {
    TasksMove(t, Lease(t.tasks, now, key, worker), key.ticket);
  }

  lemma {:induction false} ActElsewhere(t: Contents, queue: Queue, p: Payload, attempt: nat, id: Id)
    requires PayloadOf(id, p)
    ensures Elsewhere(t, ActOn(t, queue, p, attempt), id)
  {
    var u := ActOn(t, queue, p, attempt);
    ActLeaves(t, queue, p, attempt);
    forall j: Id | j != id ensures EffectsOf(t, j) == EffectsOf(u, j) {
      if queue.SideEffectQueue? && p.FinalizePayload? {
        FinalizesOwn(t, p, attempt, j);
      }
    }
    EffectsMove(t, u, id);
  }

  lemma {:induction false} StoreElsewhere(t: Contents, id: Id, taskId: nat, answer: Answer, now: Time)
    requires OnlyHere(t.tasks, taskId, id)
    ensures Elsewhere(t, StoreOn(t, taskId, answer, now), id)
  {
    TasksMove(t, StoreOn(t, taskId, answer, now).tasks, id);
  }

  lemma {:induction false} WakeElsewhere(t: Contents, id: Id, now: Time)
    ensures Elsewhere(t, WakeOn(t, id, now), id)
  {
    RunsMove(t, WakeOn(t, id, now).runs, id);
  }

  lemma {:induction false} SettleElsewhere(t: Contents, id: Id, taskId: nat, answer: Answer, clock: Clock)
    requires OnlyHere(t.tasks, taskId, id)
    ensures Elsewhere(t, SettleOn(t, id, taskId, answer, clock), id)
  {
    var u := StoreOn(t, taskId, answer, clock(1));
    StoreElsewhere(t, id, taskId, answer, clock(1));
    if Settles(t.tasks, taskId, answer) {
      WakeElsewhere(u, id, clock(2));
      ElsewhereTransitive(t, u, WakeOn(u, id, clock(2)), id);
    }
  }

  /** It leaves every other ticket's rows alone. */
  lemma {:induction false} WorkElsewhere(
    t: Contents, key: Key, queue: Queue, worker: string, agent: Payload -> Answer, clock: Clock)
    requires key in t.tasks.rows && Keyed(t) && UniqueIds(t.tasks)
    ensures Elsewhere(t, WorkOn(t, key, queue, worker, agent, clock), key.ticket)
  {
    var p := t.tasks.rows[key].payload;
    var u := LeaseOn(t, key, worker, clock(0));
    var row := u.tasks.rows[key];
    var v := ActOn(u, queue, p, row.attempts);
    LeaseElsewhere(t, key, worker, clock(0));
    ActElsewhere(u, queue, p, row.attempts, key.ticket);
    ElsewhereTransitive(t, u, v, key.ticket);
    TaskHere(t, key, worker, clock(0));
    SettleElsewhere(v, key.ticket, row.id, AnswerOf(queue, p, agent), clock);
    ElsewhereTransitive(t, v, WorkOn(t, key, queue, worker, agent, clock), key.ticket);
  }
}
