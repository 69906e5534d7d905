/** What the task rows of a ticket say about each other as long as no settled task is pruned. */
module Outbox {
  import opened Wrappers
  import opened Models
  import opened TaskQueue
  import opened Graph
  import opened SideEffects
  import opened Engine
  import opened Safety
  import opened SafetySteps

  predicate DoneWith(q: Table, key: Key, result: TaskResult) {
    key in q.rows && q.rows[key].status.Done? && q.rows[key].result == Some(result)
  }

  // The stage's task, or its fallback, is done with this result.
  predicate Decided(q: Table, id: Id, stage: Stage, result: TaskResult) {
    DoneWith(q, Key(id, stage, false), result) || DoneWith(q, Key(id, stage, true), result)
  }

  predicate DeadPrimary(q: Table, key: Key) {
    key in q.rows && q.rows[key].status.Failed? && q.rows[key].permanent
  }

  // The draft and classification a finalize payload for a human-visible outcome rests on.
  predicate Founded(q: Table, id: Id, p: Payload, c: Classification, d: DraftReply) {
    && p.FinalizePayload?
    && Decided(q, id, Classify, Classified(c)) && Decided(q, id, Draft, Drafted(d))
    && p.action == d.action && p.result.modelPath == c.model + "/" + d.model
    && (p.result.status.Resolved? ==> p.result.replyText == d.replyText)
  }

  ghost predicate RowCausal(id: Id, q: Table, key: Key, row: Task) {
    && (key.fallback ==> !key.stage.Finalize? && DeadPrimary(q, key.(fallback := false)))
    && (row.payload.DraftPayload? ==> Decided(q, id, Classify, Classified(row.payload.classification)))
    && (row.payload.FinalizePayload? && !row.payload.result.status.Escalated? ==>
          exists c, d :: Founded(q, id, row.payload, c, d))
  }

  ghost predicate QueueCausal(id: Id, q: Table) {
    forall key :: key in q.rows ==> RowCausal(id, q, key, q.rows[key])
  }

  predicate CheckpointCausal(id: Id, q: Table, cp: Option<Checkpoint>) {
    cp.Some? && WellFormed(id, cp.value) ==>
      var st := cp.value.st;
      var rank := cp.value.node.Rank();
      && (DispatchDraft.Rank() <= rank < Execute.Rank() || (cp.value.node.Execute? && !st.status.Escalated?) ==>
            Decided(q, id, Classify, Classified(st.classification.value)))
      && (DecideApproval.Rank() <= rank < Execute.Rank() || (cp.value.node.Execute? && !st.status.Escalated?) ==>
            Decided(q, id, Draft, Drafted(st.draft.value)))
  }

  // A result some process is about to resume with is a stored one.
  predicate ResumeCausal(id: Id, q: Table, resume: Resume) {
    match resume
    case Value(Classified(c)) => Decided(q, id, Classify, Classified(c))
    case Value(Drafted(d)) => Decided(q, id, Draft, Drafted(d))
    case _ => true
  }

  ghost predicate ActorCausal(id: Id, q: Table, x: Actor) {
    match x
    case Invoking(_, resume) => resume.Some? ==> ResumeCausal(id, q, resume.value)
    case Ran(_, from, inputs, _, _) => forall r :: r in inputs ==> ResumeCausal(id, q, r)
    case _ => true
  }

  ghost predicate ActorsCausal(s: Rows) {
    forall a :: a in s.actors ==> ActorCausal(s.id, s.tasks, s.actors[a])
  }

  ghost predicate Causal(s: Rows) {
    QueueCausal(s.id, s.tasks) && CheckpointCausal(s.id, s.tasks, s.cp) && ActorsCausal(s)
  }

  // ----- without pruning, settled rows are frozen

  ghost predicate Freezes(q: Table, r: Table) {
    forall key :: key in q.rows ==>
      key in r.rows && r.rows[key].payload == q.rows[key].payload
          && (Settled(q.rows[key]) ==> r.rows[key] == q.rows[key])
  }

  lemma {:induction false} DecidedKept(q: Table, r: Table, id: Id, stage: Stage, result: TaskResult)
    requires Freezes(q, r) && Decided(q, id, stage, result)
    ensures Decided(r, id, stage, result)
  {
  }

  lemma {:induction false} FoundedKept(q: Table, r: Table, id: Id, p: Payload)
    requires Freezes(q, r) && exists c, d :: Founded(q, id, p, c, d)
    ensures exists c, d :: Founded(r, id, p, c, d)
  {
    var c, d :| Founded(q, id, p, c, d);
    DecidedKept(q, r, id, Classify, Classified(c));
    DecidedKept(q, r, id, Draft, Drafted(d));
    assert Founded(r, id, p, c, d);
  }

  // A row with the same key and payload stays causal.
  lemma {:induction false} RowCausalKept(id: Id, q: Table, r: Table, key: Key, row: Task)
    requires Freezes(q, r) && key in q.rows && RowCausal(id, q, key, q.rows[key])
    requires row.payload == q.rows[key].payload
    ensures RowCausal(id, r, key, row)
  {
    if row.payload.FinalizePayload? && !row.payload.result.status.Escalated? {
      FoundedKept(q, r, id, row.payload);
    }
  }

  lemma {:induction false} CausalKept(s: Rows, r: Table)
    requires Causal(s) && Freezes(s.tasks, r)
    requires forall key :: key in r.rows ==>
               key in s.tasks.rows || RowCausal(s.id, r, key, r.rows[key])
    ensures Causal(s.(tasks := r))
  {
    forall key | key in r.rows ensures RowCausal(s.id, r, key, r.rows[key]) {
      if key in s.tasks.rows {
        RowCausalKept(s.id, s.tasks, r, key, r.rows[key]);
      }
    }
    forall a | a in s.actors ensures ActorCausal(s.id, r, s.actors[a]) {
      assert ActorCausal(s.id, s.tasks, s.actors[a]);
    }
  }

  // ----- statements

  lemma {:induction false} LeaseCausal(s: Rows, now: Time, key: Key, owner: string)
    requires Causal(s) && IsPending(s.tasks, key)
    ensures Causal(s.(tasks := Lease(s.tasks, now, key, owner)))
  {
    assert RowCausal(s.id, s.tasks, key, s.tasks.rows[key]);
    CausalKept(s, Lease(s.tasks, now, key, owner));
  }

  lemma {:induction false} CompleteCausal(s: Rows, taskId: nat, result: TaskResult)
    requires Causal(s)
    ensures Causal(s.(tasks := Complete(s.tasks, taskId, result)))
  {
    assert forall key :: key in s.tasks.rows ==> RowCausal(s.id, s.tasks, key, s.tasks.rows[key]);
    CausalKept(s, Complete(s.tasks, taskId, result));
  }

  lemma {:induction false} FailCausal(s: Rows, now: Time, taskId: nat, error: string, permanent: bool)
    requires Causal(s)
    ensures Causal(s.(tasks := Fail(s.tasks, now, taskId, error, permanent)))
  {
    assert forall key :: key in s.tasks.rows ==> RowCausal(s.id, s.tasks, key, s.tasks.rows[key]);
    CausalKept(s, Fail(s.tasks, now, taskId, error, permanent));
  }

  lemma {:induction false} ReclaimCausal(s: Rows, now: Time)
    requires Causal(s)
    ensures Causal(s.(tasks := ReclaimExpired(s.tasks, now)))
  {
    assert forall key :: key in s.tasks.rows ==> RowCausal(s.id, s.tasks, key, s.tasks.rows[key]);
    CausalKept(s, ReclaimExpired(s.tasks, now));
  }

  lemma {:induction false} EnqueueCausal(s: Rows, now: Time, key: Key, queue: Queue, payload: Payload)
    requires Causal(s)
    requires key.fallback ==> !key.stage.Finalize? && DeadPrimary(s.tasks, key.(fallback := false))
    requires payload.DraftPayload? ==> Decided(s.tasks, s.id, Classify, Classified(payload.classification))
    requires payload.FinalizePayload? && !payload.result.status.Escalated? ==>
               exists c, d :: Founded(s.tasks, s.id, payload, c, d)
    ensures Causal(s.(tasks := Enqueue(s.tasks, now, key, queue, payload)))
  {
    var r := Enqueue(s.tasks, now, key, queue, payload);
    assert forall k :: k in s.tasks.rows ==> RowCausal(s.id, s.tasks, k, s.tasks.rows[k]);
    assert Freezes(s.tasks, r);
    if key !in s.tasks.rows && payload.FinalizePayload? && !payload.result.status.Escalated? {
      FoundedKept(s.tasks, r, s.id, payload);
    }
    CausalKept(s, r);
  }

  lemma {:induction false} RedispatchCausal(s: Rows, now: Time, key: Key, payload: Payload)
    requires Causal(s) && !key.fallback && !key.stage.Finalize? && !payload.FinalizePayload?
    requires payload.DraftPayload? ==> Decided(s.tasks, s.id, Classify, Classified(payload.classification))
    ensures Causal(s.(tasks := ApplyTxn(s.tasks, now, Redispatch(key, payload))))
  {
    if IsPending(s.tasks, key) {
      var reason := "redispatched to fallback";
      var m := CancelPending(s.tasks, key, reason);
      assert RowCausal(s.id, s.tasks, key, s.tasks.rows[key]);
      assert forall k :: k in s.tasks.rows ==> RowCausal(s.id, s.tasks, k, s.tasks.rows[k]);
      CausalKept(s, m);
      if payload.DraftPayload? {
        DecidedKept(s.tasks, m, s.id, Classify, Classified(payload.classification));
      }
      EnqueueCausal(s.(tasks := m), now, FallbackOf(key), FallbackQueue, payload);
    }
  }

  lemma {:induction false} NodeTxnCausal(s: Rows, now: Time, inputs: seq<Resume>)
    requires Causal(s) && s.cp.Some? && WellFormed(s.id, s.cp.value)
    ensures Causal(s.(tasks := ApplyTxn(s.tasks, now, NodeTxn(s.cp.value, inputs))))
  {
    var st := s.cp.value.st;
    match NodeTxn(s.cp.value, inputs)
    case NoTxn =>
    case Dispatch(key, queue, payload) =>
      if s.cp.value.node.Execute? && !st.status.Escalated? {
        assert Founded(s.tasks, s.id, FinalizeOf(st), st.classification.value, st.draft.value);
      }
      EnqueueCausal(s, now, key, queue, payload);
    case Redispatch(key, payload) => RedispatchCausal(s, now, key, payload);
  }

  // ----- steps

  lemma {:induction false} RunNodeCausal(s: Rows, now: Time, a: nat)
    requires Inv(s) && Causal(s)
    ensures Causal(DoRunNode(s, now, a))
  {
    if At(s, a) && s.actors[a].Invoking? && s.cp.Some? && !s.cp.value.node.End? {
      var Invoking(caller, resume) := s.actors[a];
      assert ActorCausal(s.id, s.tasks, s.actors[a]);
      var inputs := InputsOf(s.cp.value, resume);
      NodeTxnCausal(s, now, inputs);
      var t := DoRunNode(s, now, a);
      var m := s.(tasks := t.tasks);
      assert ActorsCausal(m);
      NodeTxnFreezes(s, now, NodeTxn(s.cp.value, inputs));
      assert ActorCausal(t.id, t.tasks, t.actors[a]);
      assert ActorsCausal(t);
    }
  }

  lemma {:induction false} NodeTxnFreezes(s: Rows, now: Time, txn: Txn)
    ensures Freezes(s.tasks, ApplyTxn(s.tasks, now, txn))
  {
  }

  lemma {:induction false} AnswerCausal(
    id: Id, q: Table, from: Checkpoint, resume: Option<Resume>, redispatched: bool, now: Time)
    requires WellFormed(id, from) && CheckpointCausal(id, q, Some(from))
    requires resume.Some? ==> ResumeCausal(id, q, resume.value)
    requires !NodeOutcome(from, InputsOf(from, resume), redispatched, now).Raise?
    ensures CheckpointCausal(id, q, Some(NodeOutcome(from, InputsOf(from, resume), redispatched, now).cp))
  {
    InputsCases(from, resume);
    NodeKeepsShape(id, from, resume, redispatched, now);
    if from.node.AwaitClassify? || from.node.AwaitDraft? {
      AwaitCausal(id, q, from, resume, redispatched, now);
    }
  }

  lemma {:induction false} AwaitCausal(
    id: Id, q: Table, from: Checkpoint, resume: Option<Resume>, redispatched: bool, now: Time)
    requires WellFormed(id, from) && CheckpointCausal(id, q, Some(from))
    requires from.node.AwaitClassify? || from.node.AwaitDraft?
    requires resume.Some? ==> ResumeCausal(id, q, resume.value)
    requires !NodeOutcome(from, InputsOf(from, resume), redispatched, now).Raise?
    ensures CheckpointCausal(id, q, Some(NodeOutcome(from, InputsOf(from, resume), redispatched, now).cp))
  {
    InputsCases(from, resume);
  }

  lemma {:induction false} CheckpointWriteCausal(
    s: Rows, a: nat, x: Actor, log: Log, from: Checkpoint, resume: Option<Resume>, redispatched: bool, now: Time)
    requires Causal(s) && s.cp == Some(from) && WellFormed(s.id, from)
    requires resume.Some? ==> ResumeCausal(s.id, s.tasks, resume.value)
    requires !NodeOutcome(from, InputsOf(from, resume), redispatched, now).Raise?
    requires !x.Ran? && (x.Invoking? ==> x.resume.None?)
    ensures Causal(Set(s.(cp := Some(NodeOutcome(from, InputsOf(from, resume), redispatched, now).cp), log := log), a,
                       x))
  {
    AnswerCausal(s.id, s.tasks, from, resume, redispatched, now);
  }

  lemma {:induction false} CommitCausal(s: Rows, a: nat)
    requires Inv(s) && Causal(s)
    ensures Causal(DoCommit(s, a))
  {
    if At(s, a) && s.actors[a].Ran? {
      var x := s.actors[a];
      if s.cp == Some(x.from) && !NodeOutcome(x.from, x.inputs, x.redispatched, x.stamp).Raise? {
        var resume := RanResume(s, a);
        NewestCausal(s, a, resume);
        var t := DoCommit(s, a);
        CheckpointWriteCausal(s, a, t.actors[a], t.log, x.from, resume, x.redispatched, x.stamp);
      } else {
        DropCausal(s, a);
      }
    }
  }

  lemma {:induction false} DropCausal(s: Rows, a: nat)
    requires Causal(s)
    ensures Causal(Drop(s, a))
  {
  }

  // The newest input of a node run is among those that are causal.
  lemma {:induction false} NewestCausal(s: Rows, a: nat, resume: Option<Resume>)
    requires ActorsCausal(s) && At(s, a) && s.actors[a].Ran?
    requires s.actors[a].inputs == InputsOf(s.actors[a].from, resume)
    ensures resume.Some? ==> ResumeCausal(s.id, s.tasks, resume.value)
  {
    var x := s.actors[a];
    assert ActorCausal(s.id, s.tasks, x);
    if resume.Some? {
      assert x.inputs[|x.inputs| - 1] == resume.value;
    }
  }

  lemma {:induction false} StoredCausal(s: Rows, key: Key)
    requires Inv(s) && QueueCausal(s.id, s.tasks) && TaskResume(s.tasks, key).Some?
    ensures ResumeCausal(s.id, s.tasks, TaskResume(s.tasks, key).value)
  {
    assert RowCausal(s.id, s.tasks, key, s.tasks.rows[key]);
    assert RowOk(s.id, s.tasks.nextId, s.log.final, s.fx.result, key, s.tasks.rows[key]);
  }

  lemma {:induction false} ChosenCausal(s: Rows, envelope: Envelope, wakeupAt: Option<Time>)
    requires Inv(s) && QueueCausal(s.id, s.tasks)
    ensures var r := ResumeForRun(s.tasks, s.signals, s.nextSignal, envelope, wakeupAt);
            r.Some? ==> ResumeCausal(s.id, s.tasks, r.value.payload)
  {
    if !envelope.ApprovalEnvelope? && TaskResume(s.tasks, envelope.key).Some? {
      StoredCausal(s, envelope.key);
    }
  }

  lemma {:induction false} MoveCausal(s: Rows, a: nat, x: Actor)
    requires Causal(s) && ActorCausal(s.id, s.tasks, x)
    ensures Causal(Set(s, a, x))
  {
  }

  lemma {:induction false} ChooseCausal(s: Rows, a: nat)
    requires Inv(s) && Causal(s)
    ensures Causal(DoChoose(s, a))
  {
    if At(s, a) && s.actors[a].Looked? {
      if s.actors[a].envelope.Some? {
        ChosenCausal(s, s.actors[a].envelope.value, s.actors[a].wakeupAt);
      }
      MoveCausal(s, a, DoChoose(s, a).actors[a]);
    }
  }

  // Neither the queue nor the checkpoint nor what is resumed with changes.
  ghost predicate Quiet(s: Rows, t: Rows) {
    && t.id == s.id && t.tasks.rows == s.tasks.rows && (t.cp == s.cp || t.cp.None?)
    && forall a :: a in t.actors ==>
         (a in s.actors && t.actors[a] == s.actors[a]) || !(t.actors[a].Invoking? || t.actors[a].Ran?)
  }

  lemma {:induction false} QuietCausal(s: Rows, t: Rows)
    requires Causal(s) && Quiet(s, t)
    ensures Causal(t)
  {
    forall key | key in t.tasks.rows ensures RowCausal(t.id, t.tasks, key, t.tasks.rows[key]) {
      assert Freezes(s.tasks, t.tasks);
      RowCausalKept(s.id, s.tasks, t.tasks, key, s.tasks.rows[key]);
    }
    forall a | a in t.actors ensures ActorCausal(t.id, t.tasks, t.actors[a]) {
      if a in s.actors && t.actors[a] == s.actors[a] {
        assert ActorCausal(s.id, s.tasks, s.actors[a]);
      }
    }
  }

  lemma {:induction false} InsertQuiet(s: Rows, now: Time, e: Event)
    requires InsertEvent(e)
    ensures Quiet(s, ApplyInsert(s, now, e))
  {
  }

  lemma {:induction false} RunnerQuiet(s: Rows, now: Time, e: Event)
    requires RunnerEvent(e) && !e.Choose?
    ensures Quiet(s, ApplyRunner(s, now, e))
  {
  }

  lemma {:induction false} UpkeepQuiet(s: Rows, now: Time, e: Event)
    requires UpkeepEvent(e) && !e.ReclaimTasks? && !e.PruneTasks?
    ensures Quiet(s, ApplyUpkeep(s, now, e))
  {
  }

  // A worker's step is a queue statement followed by its own move.
  lemma {:induction false} WorkQuiet(s: Rows, now: Time, e: Event)
    requires WorkEvent(e)
    ensures var t := ApplyWork(s, now, e); Quiet(s.(tasks := t.tasks), t)
  {
    if e.SideEffect? {
      SideEffectQuiet(s, e.a);
    }
  }

  lemma {:induction false} SideEffectQuiet(s: Rows, a: nat)
    ensures var t := DoSideEffect(s, a); Quiet(s.(tasks := t.tasks), t)
  {
  }

  lemma {:induction false} WorkTasksCausal(s: Rows, now: Time, e: Event)
    requires Causal(s) && WorkEvent(e)
    ensures Causal(s.(tasks := ApplyWork(s, now, e).tasks))
  {
    if ApplyWork(s, now, e).tasks != s.tasks {
      match e
      case Dequeue(a, key, queue, owner) => LeaseCausal(s, now, key, owner);
      case AgentReply(a, result) => CompleteCausal(s, s.actors[a].taskId, result);
      case SideEffect(a) => CompleteCausal(s, s.actors[a].taskId, Finalized(ResultOf(s.actors[a].delivery)));
      case TaskError(a, error, permanent) => FailCausal(s, now, s.actors[a].taskId, error, permanent);
    }
  }

  lemma {:induction false} SeedCausal(s: Rows, a: nat, ticket: Ticket)
    requires Causal(s)
    ensures Causal(DoSeed(s, a, ticket))
  {
  }

  lemma {:induction false} GraphCausal(s: Rows, now: Time, e: Event)
    requires Inv(s) && Causal(s) && GraphEvent(e)
    ensures Causal(ApplyGraph(s, now, e))
  {
    match e
    case SeedTicket(a, ticket) => SeedCausal(s, a, ticket);
    case RunNode(a) => RunNodeCausal(s, now, a);
    case Commit(a) => CommitCausal(s, a);
  }

  lemma {:induction false} RunnerCausal(s: Rows, now: Time, e: Event)
    requires Inv(s) && Causal(s) && RunnerEvent(e)
    ensures Causal(ApplyRunner(s, now, e))
  {
    if e.Choose? {
      ChooseCausal(s, e.a);
    } else {
      RunnerQuiet(s, now, e);
      QuietCausal(s, ApplyRunner(s, now, e));
    }
  }

  lemma {:induction false} WorkCausal(s: Rows, now: Time, e: Event)
    requires Causal(s) && WorkEvent(e)
    ensures Causal(ApplyWork(s, now, e))
  {
    var t := ApplyWork(s, now, e);
    WorkTasksCausal(s, now, e);
    WorkQuiet(s, now, e);
    QuietCausal(s.(tasks := t.tasks), t);
  }

  lemma {:induction false} UpkeepCausal(s: Rows, now: Time, e: Event)
    requires Causal(s) && UpkeepEvent(e) && !e.PruneTasks?
    ensures Causal(ApplyUpkeep(s, now, e))
  {
    if e.ReclaimTasks? {
      ReclaimCausal(s, now);
    } else {
      UpkeepQuiet(s, now, e);
      QuietCausal(s, ApplyUpkeep(s, now, e));
    }
  }

  lemma {:induction false} InsertCausal(s: Rows, now: Time, e: Event)
    requires Causal(s) && InsertEvent(e)
    ensures Causal(ApplyInsert(s, now, e))
  {
    InsertQuiet(s, now, e);
    QuietCausal(s, ApplyInsert(s, now, e));
  }

  lemma {:induction false} StepCausal(s: Rows, now: Time, e: Event)
    requires Inv(s) && Causal(s) && !e.PruneTasks?
    ensures Causal(Apply(s, now, e))
  {
    var t;
    if GraphEvent(e) {
      GraphCausal(s, now, e);
      t := ApplyGraph(s, now, e);
    } else if InsertEvent(e) {
      InsertCausal(s, now, e);
      t := ApplyInsert(s, now, e);
    } else if RunnerEvent(e) {
      RunnerCausal(s, now, e);
      t := ApplyRunner(s, now, e);
    } else if WorkEvent(e) {
      WorkCausal(s, now, e);
      t := ApplyWork(s, now, e);
    } else {
      UpkeepCausal(s, now, e);
      t := ApplyUpkeep(s, now, e);
    }
    assert t == Apply(s, now, e) && Causal(t);
  }

  predicate NoPruning(steps: seq<Step>) {
    forall i :: 0 <= i < |steps| ==> !steps[i].event.PruneTasks?
  }

  lemma {:induction false} AlwaysCausal(id: Id, steps: seq<Step>)
    requires NoPruning(steps)
    ensures Causal(After(Fresh(id), steps))
  {
    if steps != [] {
      var front := steps[..|steps| - 1];
      var last := steps[|steps| - 1];
      AlwaysCausal(id, front);
      AlwaysInv(id, front);
      StepCausal(After(Fresh(id), front), last.now, last.event);
    }
  }
}
