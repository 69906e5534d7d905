/** Re-running a node whose queue transaction already committed. */
module Replay {
  import opened Wrappers
  import opened Models
  import opened TaskQueue
  import opened Graph
  import opened SideEffects
  import opened Engine
  import opened Frames
  import opened Outbox

  /** When a node's transaction leaves every task row as it is. */
  lemma {:induction false} UnchangedExactlyWhen(q: Table, now: Time, txn: Txn)
    requires txn.Redispatch? ==> !txn.key.fallback
    ensures ApplyTxn(q, now, txn).rows == q.rows <==>
              match txn
              case NoTxn => true
              case Dispatch(key, _, _) => key in q.rows
              case Redispatch(key, _) => !IsPending(q, key)
  {
    match txn
    case NoTxn =>
    case Dispatch(key, queue, payload) =>
      if key !in q.rows {
        assert key in ApplyTxn(q, now, txn).rows;
      }
    case Redispatch(key, payload) =>
      if IsPending(q, key) {
        var r := ApplyTxn(q, now, txn);
        assert r.rows[key].status.Failed?;
      }
  }

  lemma {:induction false} NodeRedispatchesPrimary(cp: Checkpoint, inputs: seq<Resume>)
    ensures var txn := NodeTxn(cp, inputs); txn.Redispatch? ==> !txn.key.fallback
  {
  }

  /** Running a node again straight after its transaction, with the same recorded resumes,
      changes no row, whichever node it is and whatever the queue held before. */
  lemma {:induction false} ReplayAtOnce(q: Table, cp: Checkpoint, inputs: seq<Resume>, now: Time, later: Time)
    ensures var txn := NodeTxn(cp, inputs);
            var r := ApplyTxn(q, now, txn);
            ApplyTxn(r, later, txn).rows == r.rows
  {
    var txn := NodeTxn(cp, inputs);
    NodeRedispatchesPrimary(cp, inputs);
    UnchangedExactlyWhen(ApplyTxn(q, now, txn), later, txn);
  }

  lemma {:induction false} CompleteFreezes(q: Table, taskId: nat, result: TaskResult)
    ensures Freezes(q, Complete(q, taskId, result))
  {
  }

  lemma {:induction false} FailFreezes(q: Table, now: Time, taskId: nat, error: string, permanent: bool)
    ensures Freezes(q, Fail(q, now, taskId, error, permanent))
  {
  }

  lemma {:induction false} AnswerFreezes(s: Rows, now: Time, e: Event)
    requires e.AgentReply? || e.SideEffect?
    ensures Freezes(s.tasks, ApplyWork(s, now, e).tasks)
  {
    if At(s, e.a) && e.AgentReply? && s.actors[e.a].Working? {
      CompleteFreezes(s.tasks, s.actors[e.a].taskId, e.result);
    }
    if At(s, e.a) && e.SideEffect? && s.actors[e.a].Finalizing? && s.actors[e.a].delivery.payload.FinalizePayload? {
      CompleteFreezes(s.tasks, s.actors[e.a].taskId, Finalized(ResultOf(s.actors[e.a].delivery)));
    }
  }

  lemma {:induction false} ErrorFreezes(s: Rows, now: Time, a: nat, error: string, permanent: bool)
    ensures Freezes(s.tasks, DoTaskError(s, now, a, error, permanent).tasks)
  {
    if At(s, a) && (s.actors[a].Working? || s.actors[a].Finalizing?) {
      FailFreezes(s.tasks, now, s.actors[a].taskId, error, permanent);
    }
  }

  lemma {:induction false} DequeueFreezes(s: Rows, now: Time, a: nat, key: Key, queue: Queue, owner: string)
    ensures Freezes(s.tasks, DoDequeue(s, now, a, key, queue, owner).tasks)
  {
  }

  lemma {:induction false} WorkFreezes(s: Rows, now: Time, e: Event)
    requires WorkEvent(e)
    ensures Freezes(s.tasks, ApplyWork(s, now, e).tasks)
  {
    if e.AgentReply? || e.SideEffect? {
      AnswerFreezes(s, now, e);
    } else if e.TaskError? {
      ErrorFreezes(s, now, e.a, e.error, e.permanent);
    } else if e.Dequeue? {
      DequeueFreezes(s, now, e.a, e.key, e.queue, e.owner);
    }
  }

  lemma {:induction false} NodeFreezes(s: Rows, now: Time, a: nat)
    ensures Freezes(s.tasks, DoRunNode(s, now, a).tasks)
  {
    if At(s, a) && s.actors[a].Invoking? && s.cp.Some? {
      NodeTxnFreezes(s, now, NodeTxn(s.cp.value, InputsOf(s.cp.value, s.actors[a].resume)));
    }
  }

  lemma {:induction false} UpkeepFreezes(s: Rows, now: Time, e: Event)
    requires UpkeepEvent(e) && !e.PruneTasks?
    ensures Freezes(s.tasks, ApplyUpkeep(s, now, e).tasks)
  {
  }

  lemma {:induction false} StepFreezes(s: Rows, now: Time, e: Event)
    requires !e.PruneTasks?
    ensures Freezes(s.tasks, Apply(s, now, e).tasks)
  {
    if e.RunNode? {
      NodeFreezes(s, now, e.a);
    } else if e.SeedTicket? {
      SeedFrame(s, e.a, e.ticket);
    } else if e.Commit? {
      CommitFrame(s, e.a);
    } else if InsertEvent(e) {
      InsertFrame(s, now, e);
    } else if RunnerEvent(e) {
      RunnerFrame(s, now, e);
    } else if WorkEvent(e) {
      WorkFreezes(s, now, e);
    } else {
      UpkeepFreezes(s, now, e);
    }
  }

  lemma {:induction false} FreezesTransitive(q: Table, r: Table, t: Table)
    requires Freezes(q, r) && Freezes(r, t)
    ensures Freezes(q, t)
  {
  }

  lemma {:induction false} RunFreezes(id: Id, steps: seq<Step>, i: nat)
    requires i <= |steps| && NoPruning(steps)
    ensures Freezes(After(Fresh(id), steps[..i]).tasks, After(Fresh(id), steps).tasks)
  {
    if i == |steps| {
      assert steps[..i] == steps;
    } else {
      var n := |steps| - 1;
      RunFreezes(id, steps[..n], i);
      assert steps[..n][..i] == steps[..i];
      var before := After(Fresh(id), steps[..n]);
      StepFreezes(before, steps[n].now, steps[n].event);
      FreezesTransitive(After(Fresh(id), steps[..i]).tasks, before.tasks, After(Fresh(id), steps).tasks);
    }
  }

  // The i-th step committed this node transaction.
  predicate CommittedAt(id: Id, steps: seq<Step>, i: nat, cp: Checkpoint, inputs: seq<Resume>) {
    && i < |steps| && steps[i].event.RunNode?
    && (var s := After(Fresh(id), steps[..i]);
        var a := steps[i].event.a;
        && At(s, a) && s.actors[a].Invoking? && s.cp == Some(cp) && !cp.node.End?
        && inputs == InputsOf(cp, s.actors[a].resume))
  }

  lemma {:induction false} CommittedTasks(s: Rows, now: Time, a: nat, cp: Checkpoint, inputs: seq<Resume>)
    requires At(s, a) && s.actors[a].Invoking? && s.cp == Some(cp) && !cp.node.End?
    requires inputs == InputsOf(cp, s.actors[a].resume)
    ensures DoRunNode(s, now, a).tasks == ApplyTxn(s.tasks, now, NodeTxn(cp, inputs))
  {
  }

  /** However long after its transaction a node is replayed, and whatever workers, janitors and
      other invocations did in between, the replay changes no row: a dispatching node always,
      an awaiting one exactly when its primary task is not waiting for a worker. */
  lemma {:induction false} ReplayLater(id: Id, steps: seq<Step>, i: nat, cp: Checkpoint, inputs: seq<Resume>, now: Time)
    requires NoPruning(steps) && CommittedAt(id, steps, i, cp, inputs)
    ensures var q := After(Fresh(id), steps).tasks;
            var txn := NodeTxn(cp, inputs);
            && (!txn.Redispatch? ==> ApplyTxn(q, now, txn).rows == q.rows)
            && (txn.Redispatch? ==> (ApplyTxn(q, now, txn).rows == q.rows <==> !IsPending(q, txn.key)))
  {
    var txn := NodeTxn(cp, inputs);
    var s := After(Fresh(id), steps[..i]);
    var q := After(Fresh(id), steps).tasks;
    NodeRedispatchesPrimary(cp, inputs);
    UnchangedExactlyWhen(q, now, txn);
    assert steps[..i + 1][..i] == steps[..i];
    CommittedTasks(s, steps[i].now, steps[i].event.a, cp, inputs);
    RunFreezes(id, steps, i + 1);
    DispatchLasts(ApplyTxn(s.tasks, steps[i].now, txn), q, s.tasks, steps[i].now, txn);
  }

  lemma {:induction false} DispatchLasts(q: Table, r: Table, before: Table, now: Time, txn: Txn)
    requires q == ApplyTxn(before, now, txn) && Freezes(q, r)
    ensures txn.Dispatch? ==> txn.key in r.rows
    ensures txn.Redispatch? && Redispatches(before, txn) ==> !IsPending(r, txn.key)
  {
  }

  /** Once a redispatch has taken a task off the primary queue no replay repeats it. */
  lemma {:induction false} RedispatchIsFinal(
    id: Id, steps: seq<Step>, i: nat, cp: Checkpoint, inputs: seq<Resume>, now: Time)
    requires NoPruning(steps) && CommittedAt(id, steps, i, cp, inputs)
    requires Redispatches(After(Fresh(id), steps[..i]).tasks, NodeTxn(cp, inputs))
    ensures var q := After(Fresh(id), steps).tasks; ApplyTxn(q, now, NodeTxn(cp, inputs)).rows == q.rows
  {
    var txn := NodeTxn(cp, inputs);
    var s := After(Fresh(id), steps[..i]);
    assert steps[..i + 1][..i] == steps[..i];
    CommittedTasks(s, steps[i].now, steps[i].event.a, cp, inputs);
    RunFreezes(id, steps, i + 1);
    DispatchLasts(ApplyTxn(s.tasks, steps[i].now, txn), After(Fresh(id), steps).tasks, s.tasks, steps[i].now, txn);
    ReplayLater(id, steps, i, cp, inputs, now);
  }
}
