/** The engine's task rows go through runs of queue statements, so what holds of every such run
    holds of every run of the engine. */
module EngineDeliveries {
  import opened Numbers
  import opened Models
  import opened TaskQueue
  import opened Graph
  import opened SideEffects
  import opened Engine
  import opened Frames
  import opened Deliveries

  // The statements of a node's transaction.
  function TxnOps(q: Table, now: Time, txn: Txn): seq<QueueOp> {
    match txn
    case NoTxn => []
    case Dispatch(key, queue, payload) => [Insert(key, queue, payload, MAX_ATTEMPTS, now)]
    case Redispatch(key, payload) =>
      if IsPending(q, key) then
        [Cancel(key, "redispatched to fallback"), Insert(FallbackOf(key), FallbackQueue, payload, MAX_ATTEMPTS, now)]
      else []
  }

  // The queue statements an engine step commits.
  function OpsOf(s: Rows, now: Time, e: Event): seq<QueueOp> {
    match e
    case RunNode(a) =>
      if !At(s, a) || !s.actors[a].Invoking? || s.cp.None? || s.cp.value.node.End? then []
      else TxnOps(s.tasks, now, NodeTxn(s.cp.value, InputsOf(s.cp.value, s.actors[a].resume)))
    case Dequeue(a, key, queue, owner) => if a in s.actors then [] else [QueueOp.Dequeue(key, queue, owner)]
    case AgentReply(a, result) =>
      if !At(s, a) || !s.actors[a].Working? || !Answers(result, s.actors[a].payload) then []
      else [CompleteTask(s.actors[a].taskId, result)]
    case TaskError(a, error, permanent) =>
      if !At(s, a) || !(s.actors[a].Working? || s.actors[a].Finalizing?) then []
      else [FailTask(s.actors[a].taskId, error, permanent)]
    case SideEffect(a) =>
      if At(s, a) && s.actors[a].Finalizing? && s.actors[a].delivery.payload.FinalizePayload?
         && s.actors[a].delivery.progress.Recorded?
      then [CompleteTask(s.actors[a].taskId, Finalized(ResultOf(s.actors[a].delivery)))]
      else []
    case ReclaimTasks => [Reclaim]
    case PruneTasks(maxAge) => [Prune(maxAge)]
    case Serials(taskIds, _) => [Skip(taskIds)]
    case _ => []
  }

  function Stamped(now: Time, ops: seq<QueueOp>): (r: seq<QueueStep>)
    ensures |r| == |ops| && forall i :: 0 <= i < |r| ==> r[i] == QueueStep(now, ops[i])
  {
    seq(|ops|, i requires 0 <= i < |ops| => QueueStep(now, ops[i]))
  }

  function QueueRun(id: Id, steps: seq<Step>): seq<QueueStep> {
    if steps == [] then []
    else
      var front := steps[..|steps| - 1];
      var last := steps[|steps| - 1];
      QueueRun(id, front) + Stamped(last.now, OpsOf(After(Fresh(id), front), last.now, last.event))
  }

  function RunOps(q: Table, now: Time, ops: seq<QueueOp>): Table
    decreases |ops|
  {
    if ops == [] then q else RunOps(StepTable(q, now, ops[0]), now, ops[1..])
  }

  lemma {:induction false} TxnIsOps(q: Table, now: Time, txn: Txn)
    ensures RunOps(q, now, TxnOps(q, now, txn)) == ApplyTxn(q, now, txn)
  {
    var ops := TxnOps(q, now, txn);
    if |ops| == 2 {
      var q1 := StepTable(q, now, ops[0]);
      assert RunOps(q, now, ops) == RunOps(q1, now, ops[1..]) == RunOps(StepTable(q1, now, ops[1]), now, []);
    }
  }

  lemma {:induction false} OneOp(q: Table, now: Time, op: QueueOp)
    ensures RunOps(q, now, [op]) == StepTable(q, now, op)
  {
    assert [op][1..] == [];
  }

  lemma {:induction false} NodeIsOps(s: Rows, now: Time, a: nat)
    ensures RunOps(s.tasks, now, OpsOf(s, now, RunNode(a))) == DoRunNode(s, now, a).tasks
  {
    if At(s, a) && s.actors[a].Invoking? && s.cp.Some? && !s.cp.value.node.End? {
      TxnIsOps(s.tasks, now, NodeTxn(s.cp.value, InputsOf(s.cp.value, s.actors[a].resume)));
    }
  }

  lemma {:induction false} WorkIsOps(s: Rows, now: Time, e: Event)
    requires WorkEvent(e)
    ensures |OpsOf(s, now, e)| <= 1
    ensures RunOps(s.tasks, now, OpsOf(s, now, e)) == ApplyWork(s, now, e).tasks
  {
    var ops := OpsOf(s, now, e);
    if |ops| == 1 {
      OneOp(s.tasks, now, ops[0]);
    }
  }

  lemma {:induction false} UpkeepIsOps(s: Rows, now: Time, e: Event)
    requires UpkeepEvent(e)
    ensures |OpsOf(s, now, e)| <= 1
    ensures RunOps(s.tasks, now, OpsOf(s, now, e)) == ApplyUpkeep(s, now, e).tasks
  {
    var ops := OpsOf(s, now, e);
    if |ops| == 1 {
      OneOp(s.tasks, now, ops[0]);
    }
  }

  // The steps that leave the outbox as it is.
  lemma {:induction false} OtherIsOps(s: Rows, now: Time, e: Event)
    requires e.SeedTicket? || e.Commit? || InsertEvent(e) || RunnerEvent(e)
    ensures OpsOf(s, now, e) == [] && Apply(s, now, e).tasks == s.tasks
  {
    if e.SeedTicket? {
      SeedFrame(s, e.a, e.ticket);
    } else if e.Commit? {
      CommitFrame(s, e.a);
    } else if InsertEvent(e) {
      InsertFrame(s, now, e);
    } else {
      RunnerFrame(s, now, e);
    }
  }

  lemma {:induction false} StepIsOps(s: Rows, now: Time, e: Event)
    ensures !e.RunNode? ==> |OpsOf(s, now, e)| <= 1
    ensures RunOps(s.tasks, now, OpsOf(s, now, e)) == Apply(s, now, e).tasks
  {
    if e.RunNode? {
      NodeIsOps(s, now, e.a);
    } else if WorkEvent(e) {
      WorkIsOps(s, now, e);
    } else if UpkeepEvent(e) {
      UpkeepIsOps(s, now, e);
    } else {
      OtherIsOps(s, now, e);
    }
  }

  lemma {:induction false} Continue(run: seq<QueueStep>, now: Time, ops: seq<QueueOp>)
    ensures TableAfter(run + Stamped(now, ops)) == RunOps(TableAfter(run), now, ops)
    decreases |ops|
  {
    if ops == [] {
      assert run + Stamped(now, ops) == run;
    } else {
      var next := run + [QueueStep(now, ops[0])];
      assert next[..|run|] == run;
      Continue(next, now, ops[1..]);
      assert run + Stamped(now, ops) == next + Stamped(now, ops[1..]);
    }
  }

  /** A ticket's task table after any run is the one its queue statements lead to. */
  lemma {:induction false} RunIsQueueRun(id: Id, steps: seq<Step>)
    ensures TableAfter(QueueRun(id, steps)) == After(Fresh(id), steps).tasks
  {
    if steps != [] {
      var n := |steps| - 1;
      RunIsQueueRun(id, steps[..n]);
      var s := After(Fresh(id), steps[..n]);
      StepIsOps(s, steps[n].now, steps[n].event);
      Continue(QueueRun(id, steps[..n]), steps[n].now, OpsOf(s, steps[n].now, steps[n].event));
    }
  }

  predicate Forward(steps: seq<Step>) {
    forall i, j :: 0 <= i < j < |steps| ==> steps[i].now <= steps[j].now
  }

  lemma {:induction false} QueueRunMonotone(id: Id, steps: seq<Step>)
    requires Forward(steps)
    ensures Monotone(QueueRun(id, steps))
    ensures forall i :: 0 <= i < |QueueRun(id, steps)| ==>
              steps != [] && QueueRun(id, steps)[i].now <= steps[|steps| - 1].now
  {
    if steps != [] {
      var n := |steps| - 1;
      QueueRunMonotone(id, steps[..n]);
      if n > 0 {
        assert steps[n - 1].now <= steps[n].now;
      }
    }
  }

  predicate InsertsDefault(op: QueueOp) { op.Insert? ==> op.maxAttempts == MAX_ATTEMPTS }

  lemma {:induction false} StepInsertsDefault(s: Rows, now: Time, e: Event)
    ensures forall i :: 0 <= i < |OpsOf(s, now, e)| ==> InsertsDefault(OpsOf(s, now, e)[i])
  {
  }

  lemma {:induction false} RunInsertsDefault(id: Id, steps: seq<Step>)
    ensures forall i :: 0 <= i < |QueueRun(id, steps)| ==> InsertsDefault(QueueRun(id, steps)[i].op)
  {
    if steps != [] {
      var n := |steps| - 1;
      RunInsertsDefault(id, steps[..n]);
      StepInsertsDefault(After(Fresh(id), steps[..n]), steps[n].now, steps[n].event);
    }
  }

  lemma {:induction false} StepKeepsLimit(q: Table, now: Time, op: QueueOp)
    requires InsertsDefault(op) && forall key :: key in q.rows ==> q.rows[key].maxAttempts == MAX_ATTEMPTS
    ensures var t := StepTable(q, now, op); forall key :: key in t.rows ==> t.rows[key].maxAttempts == MAX_ATTEMPTS
  {
  }

  lemma {:induction false} EveryTaskGetsThree(run: seq<QueueStep>)
    requires forall i :: 0 <= i < |run| ==> InsertsDefault(run[i].op)
    ensures forall key :: key in TableAfter(run).rows ==> TableAfter(run).rows[key].maxAttempts == MAX_ATTEMPTS
  {
    if run != [] {
      var n := |run| - 1;
      EveryTaskGetsThree(run[..n]);
      StepKeepsLimit(TableAfter(run[..n]), run[n].now, run[n].op);
    }
  }

  /** Delivery accounting and spacing hold of every task of every ticket, whatever its runners,
      workers and janitors did. */
  lemma {:induction false} EveryTaskAccounted(id: Id, steps: seq<Step>, key: Key)
    requires Forward(steps) && key in After(Fresh(id), steps).tasks.rows
    ensures key in AuditedAfter(QueueRun(id, steps)).rows
    ensures var row := After(Fresh(id), steps).tasks.rows[key];
            var x := AuditedAfter(QueueRun(id, steps)).rows[key];
            && x.row == row
            && row.attempts == |x.log.leases|
            && row.attempts == x.log.retried + x.log.reclaimed + (if row.status.Leased? || x.log.answered then 1 else 0)
            && row.attempts <= MAX_ATTEMPTS + x.log.reclaimed
            && (forall k :: 0 <= k < |x.log.leases| - 1 ==>
                x.log.leases[k + 1] - x.log.leases[k] >= Min(Pow2(k + 1), LEASE))
            && (x.log.reclaimed == 0 ==> BackedOff(x.log.leases))
  {
    var run := QueueRun(id, steps);
    RunIsQueueRun(id, steps);
    QueueRunMonotone(id, steps);
    AuditErases(run);
    EveryRow(run);
    RunInsertsDefault(id, steps);
    EveryTaskGetsThree(run);
  }
}
