/** Creating a ticket against a reconciler that inserts the same run row. */
module Seeding {
  import opened Wrappers
  import opened Models
  import opened TaskQueue
  import opened WorkflowRuns
  import opened SideEffects
  import opened Graph
  import opened Engine
  import opened Frames
  import opened Safety
  import opened SafetySteps
  import opened Guarantees

  // Before the ticket has ever had a run row.
  predicate NeverRun(s: Rows) { s.log.born && !s.log.everRun }

  // A pending insert was read before the first dispatch was checkpointed, or carries what the
  // checkpoint still says.
  predicate InsertOk(cp: Checkpoint, status: Status, wakeupAt: Option<Time>) {
    (status.Received? && wakeupAt.None?)
    || (cp.node.AwaitClassify? && status.Classifying? && status == cp.st.status && wakeupAt == cp.st.wakeupAt
        && wakeupAt.Some?)
  }

  // Only the API's own invocation can be driving the graph.
  predicate SeedingActor(cp: Checkpoint, x: Actor) {
    match x
    case Invoking(caller, resume) => caller.Api? && resume.None?
    case Ran(caller, from, inputs, _, _) => caller.Api? && inputs == [] && from.resumes == []
    case Creating(status, wakeupAt, byApi) => InsertOk(cp, status, wakeupAt) && (byApi ==> status.Classifying?)
    case Listed => true
    case Working(_, _) => true
    case Waking => true
    case _ => false
  }

  // What a never-run ticket's checkpoint can look like.
  predicate SeedCheckpoint(cp: Checkpoint) {
    && cp.resumes == [] && cp.node.Rank() <= AwaitClassify.Rank()
    && (if cp.node.AwaitClassify? then cp.st.status.Classifying? && cp.st.wakeupAt.Some?
        else cp.st.status.Received? && cp.st.wakeupAt.None?)
  }

  ghost predicate SeedOk(s: Rows) {
    NeverRun(s) ==>
      && s.run.None? && s.archived.None?
      && s.cp.Some? && SeedCheckpoint(s.cp.value)
      && (forall key :: key in s.tasks.rows ==> s.tasks.rows[key].payload.ClassifyPayload?)
      && (forall a :: a in s.actors ==> SeedingActor(s.cp.value, s.actors[a]))
  }

  lemma {:induction false} SeedTxn(s: Rows, now: Time)
    requires s.cp.Some? && SeedCheckpoint(s.cp.value)
    requires forall key :: key in s.tasks.rows ==> s.tasks.rows[key].payload.ClassifyPayload?
    ensures var q := ApplyTxn(s.tasks, now, NodeTxn(s.cp.value, []));
            forall key :: key in q.rows ==> q.rows[key].payload.ClassifyPayload?
  {
  }

  lemma {:induction false} SeedNode(cp: Checkpoint, redispatched: bool, now: Time)
    requires SeedCheckpoint(cp)
    ensures var outcome := NodeOutcome(cp, [], redispatched, now);
            && !outcome.Raise? && SeedCheckpoint(outcome.cp) && !outcome.cp.node.End?
            && (cp.node.AwaitClassify? ==> outcome.cp.st == cp.st && outcome.cp.node == cp.node)
            && (outcome.Park? ==> outcome.cp.node.AwaitClassify?)
  {
  }

  lemma {:induction false} NewSeed(s: Rows, a: nat, ticket: Ticket)
    requires SeedOk(s) && (s.log.born || Unborn(s))
    ensures SeedOk(DoSeed(s, a, ticket))
  {
  }

  lemma {:induction false} NodeSeed(s: Rows, now: Time, a: nat)
    requires SeedOk(s)
    ensures SeedOk(DoRunNode(s, now, a))
  {
    if NeverRun(s) && At(s, a) && s.actors[a].Invoking? {
      assert SeedingActor(s.cp.value, s.actors[a]);
      assert InputsOf(s.cp.value, None) == [];
      SeedTxn(s, now);
    }
  }

  lemma {:induction false} CommitSeed(s: Rows, a: nat)
    requires SeedOk(s)
    ensures SeedOk(DoCommit(s, a))
  {
    if NeverRun(s) && At(s, a) && s.actors[a].Ran? {
      var x := s.actors[a];
      assert SeedingActor(s.cp.value, x);
      if s.cp == Some(x.from) {
        SeedNode(x.from, x.redispatched, x.stamp);
      }
    }
  }

  lemma {:induction false} GraphStepSeed(s: Rows, now: Time, e: Event)
    requires SeedOk(s) && (s.log.born || Unborn(s)) && GraphEvent(e)
    ensures SeedOk(ApplyGraph(s, now, e))
  {
    match e
    case SeedTicket(a, ticket) => NewSeed(s, a, ticket);
    case RunNode(a) => NodeSeed(s, now, a);
    case Commit(a) => CommitSeed(s, a);
  }

  lemma {:induction false} InsertStepSeed(s: Rows, now: Time, e: Event)
    requires SeedOk(s) && InsertEvent(e)
    ensures SeedOk(ApplyInsert(s, now, e))
  {
  }

  lemma {:induction false} RunnerStepSeed(s: Rows, now: Time, e: Event)
    requires SeedOk(s) && RunnerEvent(e)
    ensures SeedOk(ApplyRunner(s, now, e))
  {
  }

  // Workers' steps keep each row's payload, and move only workers.
  ghost predicate WorkersMove(s: Rows, t: Rows) {
    && t.run.None? == s.run.None? && t.archived == s.archived && t.cp == s.cp && t.log == s.log
    && (forall key :: key in t.tasks.rows ==>
                        key in s.tasks.rows && t.tasks.rows[key].payload == s.tasks.rows[key].payload)
    && (forall a :: a in t.actors ==> WorkerMoved(s, t, a))
  }

  ghost predicate WorkerMoved(s: Rows, t: Rows, a: nat)
    requires a in t.actors
  {
    || (a in s.actors && t.actors[a] == s.actors[a])
    || t.actors[a].Waking?
    || (t.actors[a].Finalizing? && a in s.actors && s.actors[a].Finalizing?)
  }

  lemma {:induction false} MovedSeed(s: Rows, t: Rows)
    requires SeedOk(s) && WorkersMove(s, t)
    ensures SeedOk(t)
  {
  }

  lemma {:induction false} FinishMoves(s: Rows, a: nat, taskId: nat, result: TaskResult)
    ensures WorkersMove(s, Finish(s, a, taskId, result))
  {
  }

  lemma {:induction false} ErrorMoves(s: Rows, now: Time, a: nat, error: string, permanent: bool)
    ensures WorkersMove(s, DoTaskError(s, now, a, error, permanent))
  {
  }

  lemma {:induction false} ReplyMoves(s: Rows, a: nat, result: TaskResult)
    ensures WorkersMove(s, DoAgentReply(s, a, result))
  {
    if At(s, a) && s.actors[a].Working? {
      FinishMoves(s, a, s.actors[a].taskId, result);
    }
  }

  lemma {:induction false} SideEffectMoves(s: Rows, a: nat)
    ensures WorkersMove(s, DoSideEffect(s, a))
  {
    if At(s, a) && s.actors[a].Finalizing? && s.actors[a].delivery.payload.FinalizePayload? {
      FinishMoves(s, a, s.actors[a].taskId, Finalized(ResultOf(s.actors[a].delivery)));
    }
  }

  lemma {:induction false} TakeStepSeed(s: Rows, now: Time, e: Event)
    requires SeedOk(s) && (e.Dequeue? || e.Wake?)
    ensures SeedOk(ApplyWork(s, now, e))
  {
  }

  lemma {:induction false} WorkStepSeed(s: Rows, now: Time, e: Event)
    requires SeedOk(s) && WorkEvent(e)
    ensures SeedOk(ApplyWork(s, now, e))
  {
    if e.AgentReply? {
      ReplyMoves(s, e.a, e.result);
      MovedSeed(s, DoAgentReply(s, e.a, e.result));
    } else if e.SideEffect? {
      SideEffectMoves(s, e.a);
      MovedSeed(s, DoSideEffect(s, e.a));
    } else if e.TaskError? {
      ErrorMoves(s, now, e.a, e.error, e.permanent);
      MovedSeed(s, DoTaskError(s, now, e.a, e.error, e.permanent));
    } else {
      TakeStepSeed(s, now, e);
    }
  }

  lemma {:induction false} LeaveStepSeed(s: Rows, now: Time, e: Event)
    requires SeedOk(s) && (e.Archive? || e.DeleteThread? || e.Crash?)
    ensures SeedOk(ApplyUpkeep(s, now, e))
  {
  }

  lemma {:induction false} SweepStepSeed(s: Rows, now: Time, e: Event)
    requires SeedOk(s) && UpkeepEvent(e) && !(e.Archive? || e.DeleteThread? || e.Crash?)
    ensures SeedOk(ApplyUpkeep(s, now, e))
  {
  }

  lemma {:induction false} StepSeed(s: Rows, now: Time, e: Event)
    requires SeedOk(s) && (s.log.born || Unborn(s))
    ensures SeedOk(Apply(s, now, e))
  {
    var t;
    if GraphEvent(e) {
      GraphStepSeed(s, now, e);
      t := ApplyGraph(s, now, e);
    } else if InsertEvent(e) {
      InsertStepSeed(s, now, e);
      t := ApplyInsert(s, now, e);
    } else if RunnerEvent(e) {
      RunnerStepSeed(s, now, e);
      t := ApplyRunner(s, now, e);
    } else if WorkEvent(e) {
      WorkStepSeed(s, now, e);
      t := ApplyWork(s, now, e);
    } else {
      if e.Archive? || e.DeleteThread? || e.Crash? {
        LeaveStepSeed(s, now, e);
      } else {
        SweepStepSeed(s, now, e);
      }
      t := ApplyUpkeep(s, now, e);
    }
    assert t == Apply(s, now, e) && SeedOk(t);
  }

  lemma {:induction false} AlwaysSeedOk(id: Id, steps: seq<Step>)
    ensures SeedOk(After(Fresh(id), steps))
  {
    if steps != [] {
      var n := |steps| - 1;
      AlwaysSeedOk(id, steps[..n]);
      AlwaysInv(id, steps[..n]);
      StepSeed(After(Fresh(id), steps[..n]), steps[n].now, steps[n].event);
    }
  }

  predicate ParkedForClassify(s: Rows, st: State) {
    s.cp.Some? && s.cp.value.node.AwaitClassify? && s.cp.value.st == st
  }

  lemma {:induction false} StepFixed(s: Rows, now: Time, e: Event, st: State)
    requires SeedOk(s) && (s.log.born || Unborn(s))
    requires ParkedForClassify(s, st) && !Apply(s, now, e).log.everRun
    ensures ParkedForClassify(Apply(s, now, e), st) && !s.log.everRun
  {
    EverRunGrows(s, now, e);
    if e.Commit? {
      CommitFixed(s, e.a, st);
    } else {
      OnlyCommitsWrite(s, now, e);
      if e.DeleteThread? {
        DeleteFixed(s, e.a, st);
      } else if e.SeedTicket? {
        SeedFixed(s, e.a, e.ticket);
      } else {
        OthersKeepThread(s, now, e);
      }
    }
  }

  lemma {:induction false} CommitFixed(s: Rows, a: nat, st: State)
    requires SeedOk(s) && NeverRun(s) && ParkedForClassify(s, st)
    ensures ParkedForClassify(DoCommit(s, a), st)
  {
    if At(s, a) && s.actors[a].Ran? {
      var x := s.actors[a];
      assert SeedingActor(s.cp.value, x);
      if s.cp == Some(x.from) {
        SeedNode(x.from, x.redispatched, x.stamp);
      }
    }
  }

  lemma {:induction false} DeleteFixed(s: Rows, a: nat, st: State)
    requires SeedOk(s) && NeverRun(s) && ParkedForClassify(s, st)
    ensures DoDeleteThread(s, a) == s
  {
    if At(s, a) {
      assert SeedingActor(s.cp.value, s.actors[a]);
    }
  }

  lemma {:induction false} SeedFixed(s: Rows, a: nat, ticket: Ticket)
    requires s.log.born
    ensures DoSeed(s, a, ticket) == s
  {
  }

  lemma {:induction false} OthersKeepThread(s: Rows, now: Time, e: Event)
    requires !e.Commit? && !e.DeleteThread? && !e.SeedTicket?
    ensures Apply(s, now, e).cp == s.cp
  {
    if e.RunNode? {
      NodeFrame(s, now, e.a);
    } else if InsertEvent(e) {
      InsertFrame(s, now, e);
    } else if RunnerEvent(e) {
      RunnerFrame(s, now, e);
    } else if WorkEvent(e) {
      WorkFrame(s, now, e);
    } else {
      UpkeepKeepsThread(s, now, e);
    }
  }

  lemma {:induction false} UpkeepKeepsThread(s: Rows, now: Time, e: Event)
    requires UpkeepEvent(e) && !e.DeleteThread?
    ensures ApplyUpkeep(s, now, e).cp == s.cp
  {
  }

  lemma {:induction false} EverRunGrows(s: Rows, now: Time, e: Event)
    ensures var t := Apply(s, now, e); (s.log.everRun ==> t.log.everRun) && (s.log.born ==> t.log.born)
  {
    LogFrame(s, now, e);
  }

  /** While a ticket has no run row, a checkpoint that reached `await_classify` does not change. */
  lemma {:induction false} FixedUntilRun(id: Id, steps: seq<Step>, i: nat, st: State)
    requires i <= |steps| && ParkedForClassify(After(Fresh(id), steps[..i]), st)
    requires !After(Fresh(id), steps).log.everRun
    ensures ParkedForClassify(After(Fresh(id), steps), st)
  {
    if i == |steps| {
      assert steps[..i] == steps;
    } else {
      var n := |steps| - 1;
      var s := After(Fresh(id), steps[..n]);
      EverRunGrows(s, steps[n].now, steps[n].event);
      assert steps[..n][..i] == steps[..i];
      FixedUntilRun(id, steps[..n], i, st);
      AlwaysSeedOk(id, steps[..n]);
      AlwaysInv(id, steps[..n]);
      StepFixed(s, steps[n].now, steps[n].event, st);
    }
  }

  predicate Inserting(s: Rows, a: nat) { a in s.actors && s.actors[a].Creating? }

  lemma {:induction false} InsertsConfluentAt(s: Rows, now: Time, a: nat, b: nat)
    requires SeedOk(s) && NeverRun(s) && Inserting(s, a) && Inserting(s, b) && a != b && s.actors[a].byApi
    ensures s.cp.Some?
            && DoInsertRun(s, now, a).run == Some(NewRun(now, s.cp.value.st.status, s.cp.value.st.wakeupAt))
    ensures DoInsertRun(s, now, b).run == DoInsertRun(s, now, a).run <==> s.actors[b].status.Classifying?
    ensures s.actors[b].status.Classifying? ==>
              DoInsertRun(DoInsertRun(s, now, a), now, b) == DoInsertRun(DoInsertRun(s, now, b), now, a)
  {
    assert SeedingActor(s.cp.value, s.actors[a]) && SeedingActor(s.cp.value, s.actors[b]);
    if s.actors[b].status.Classifying? {
      assert s.actors - {a} - {b} == s.actors - {b} - {a};
    }
  }

  /** The API's insert (by process a) and another leave the same row in either order exactly when
      the other's snapshot was taken after the first dispatch had been checkpointed. */
  lemma {:induction false} InsertsConfluent(id: Id, steps: seq<Step>, now: Time, a: nat, b: nat)
    requires var s := After(Fresh(id), steps);
             NeverRun(s) && Inserting(s, a) && Inserting(s, b) && a != b && s.actors[a].byApi
    ensures var s := After(Fresh(id), steps);
            && (DoInsertRun(s, now, b).run == DoInsertRun(s, now, a).run <==> s.actors[b].status.Classifying?)
            && (s.actors[b].status.Classifying? ==>
                  DoInsertRun(DoInsertRun(s, now, a), now, b) == DoInsertRun(DoInsertRun(s, now, b), now, a))
  {
    AlwaysSeedOk(id, steps);
    InsertsConfluentAt(After(Fresh(id), steps), now, a, b);
  }

  /** The API only ever inserts what it read after the first dispatch. */
  lemma {:induction false} ApiInsertsLate(id: Id, steps: seq<Step>, a: nat)
    requires var s := After(Fresh(id), steps); NeverRun(s) && Inserting(s, a) && s.actors[a].byApi
    ensures var s := After(Fresh(id), steps);
            && s.actors[a].status.Classifying? && s.actors[a].wakeupAt.Some?
            && s.cp.Some? && s.actors[a].wakeupAt == s.cp.value.st.wakeupAt
  {
    AlwaysSeedOk(id, steps);
    var s := After(Fresh(id), steps);
    assert SeedingActor(s.cp.value, s.actors[a]);
  }

  /** The reconciler only ever takes up a thread that has no run row, and inserts what it then reads. */
  lemma {:induction false} ListsOrphansOnly(id: Id, steps: seq<Step>, i: nat)
    requires i < |steps| && (steps[i].event.ListOrphan? || steps[i].event.ReadOrphan?)
    requires After(Fresh(id), steps[..i + 1]) != After(Fresh(id), steps[..i])
    ensures var s, t, a := After(Fresh(id), steps[..i]), After(Fresh(id), steps[..i + 1]), steps[i].event.a;
            if steps[i].event.ListOrphan? then
              s.cp.Some? && s.run.None? && a !in s.actors && t == s.(actors := s.actors[a := Listed])
            else if s.cp.Some? && !s.cp.value.node.Start? then
              t == s.(actors := s.actors[a := Creating(s.cp.value.st.status, s.cp.value.st.wakeupAt, false)])
            else t == s.(actors := s.actors - {a})
  {
    assert steps[..i + 1][..i] == steps[..i];
    ReconcilerMoves(After(Fresh(id), steps[..i]), steps[i].event.a);
  }

  lemma {:induction false} ReconcilerMoves(s: Rows, a: nat)
    ensures var t := DoListOrphan(s, a);
            t != s ==> s.cp.Some? && s.run.None? && a !in s.actors && t == s.(actors := s.actors[a := Listed])
    ensures var t := DoReadOrphan(s, a);
            t != s ==> if s.cp.Some? && !s.cp.value.node.Start? then
                         t == s.(actors := s.actors[a := Creating(s.cp.value.st.status, s.cp.value.st.wakeupAt, false)])
                       else t == s.(actors := s.actors - {a})
  {
  }

  // ----- a row without a timer, over runs

  // The classify task has neither a result nor failed.
  predicate Unsettled(s: Rows) {
    var key := Key(s.id, Classify, false);
    key in s.tasks.rows && !Settled(s.tasks.rows[key]) && s.tasks.rows[key].result.None?
  }

  // Nobody has anything to resume the graph with.
  predicate Powerless(x: Actor, cp: Checkpoint) {
    match x
    case Claimed(_, status, wakeupAt) => status.Received? && wakeupAt.None?
    case Looked(_, status, wakeupAt, envelope) =>
      status.Received? && wakeupAt.None? && (envelope.None? || envelope == cp.envelope)
    case Saving(_, status, wakeupAt, signal) => status.Received? && wakeupAt.None? && signal.None?
    case Listed => true
    case Creating(_, _, _) => true
    case Working(_, _) => true
    case _ => false
  }

  // The ticket waits for its classify task and its row has no timer.
  ghost predicate Stuck(s: Rows, cp: Checkpoint) {
    var key := Key(s.id, Classify, false);
    && s.log.born && s.cp == Some(cp)
    && cp.node.AwaitClassify? && cp.envelope.Some? && cp.envelope.value.TaskEnvelope? && cp.envelope.value.key == key
    && s.run.Some? && s.run.value.status.Received? && s.run.value.wakeupAt.None?
    && s.tasks.rows.Keys == {key} && s.tasks.rows[key].payload.ClassifyPayload?
    && forall a :: a in s.actors ==> Powerless(s.actors[a], cp)
  }

  lemma {:induction false} RunnerStuck(s: Rows, now: Time, e: Event, cp: Checkpoint)
    requires Stuck(s, cp) && Unsettled(s) && RunnerEvent(e)
    ensures Stuck(ApplyRunner(s, now, e), cp)
  {
  }

  lemma {:induction false} InsertStuck(s: Rows, now: Time, e: Event, cp: Checkpoint)
    requires Stuck(s, cp) && InsertEvent(e)
    ensures Stuck(ApplyInsert(s, now, e), cp)
  {
  }

  lemma {:induction false} GraphStuck(s: Rows, now: Time, e: Event, cp: Checkpoint)
    requires Stuck(s, cp) && GraphEvent(e)
    ensures ApplyGraph(s, now, e) == s
  {
    if !e.SeedTicket? && At(s, e.a) {
      assert Powerless(s.actors[e.a], cp);
    }
  }

  lemma {:induction false} DequeueStuck(
    s: Rows, now: Time, a: nat, key: Key, queue: Queue, owner: string, cp: Checkpoint)
    requires Stuck(s, cp)
    ensures Stuck(DoDequeue(s, now, a, key, queue, owner), cp)
  {
  }

  // While the task is not settled a worker that is done with it wakes nobody.
  lemma {:induction false} FinishStuck(s: Rows, a: nat, taskId: nat, result: TaskResult, cp: Checkpoint)
    requires Stuck(s, cp) && Unsettled(Finish(s, a, taskId, result))
    ensures Stuck(Finish(s, a, taskId, result), cp)
  {
  }

  lemma {:induction false} ErrorMatches(s: Rows, now: Time, taskId: nat, error: string, permanent: bool, cp: Checkpoint)
    requires Stuck(s, cp) && Unsettled(s.(tasks := Fail(s.tasks, now, taskId, error, permanent)))
    ensures !FailsForGood(s.tasks, taskId, permanent)
  {
  }

  lemma {:induction false} FailStuck(
    s: Rows, now: Time, a: nat, taskId: nat, error: string, permanent: bool, cp: Checkpoint)
    requires Stuck(s, cp)
    ensures Stuck(Drop(s.(tasks := Fail(s.tasks, now, taskId, error, permanent)), a), cp)
  {
  }

  lemma {:induction false} ErrorStuck(s: Rows, now: Time, a: nat, error: string, permanent: bool, cp: Checkpoint)
    requires Stuck(s, cp) && Unsettled(DoTaskError(s, now, a, error, permanent))
    ensures Stuck(DoTaskError(s, now, a, error, permanent), cp)
  {
    var t := DoTaskError(s, now, a, error, permanent);
    if t != s {
      var taskId := s.actors[a].taskId;
      assert t.tasks == Fail(s.tasks, now, taskId, error, permanent);
      ErrorMatches(s, now, taskId, error, permanent, cp);
      FailStuck(s, now, a, taskId, error, permanent, cp);
    }
  }

  lemma {:induction false} WorkStuck(s: Rows, now: Time, e: Event, cp: Checkpoint)
    requires Stuck(s, cp) && WorkEvent(e) && Unsettled(ApplyWork(s, now, e))
    ensures Stuck(ApplyWork(s, now, e), cp)
  {
    if At(s, e.a) {
      assert Powerless(s.actors[e.a], cp);
    }
    if e.Dequeue? {
      DequeueStuck(s, now, e.a, e.key, e.queue, e.owner, cp);
    } else if e.TaskError? {
      ErrorStuck(s, now, e.a, e.error, e.permanent, cp);
    } else if e.AgentReply? && DoAgentReply(s, e.a, e.result) != s {
      FinishStuck(s, e.a, s.actors[e.a].taskId, e.result, cp);
    }
  }

  lemma {:induction false} LeaveStuck(s: Rows, now: Time, e: Event, cp: Checkpoint)
    requires Stuck(s, cp) && (e.Archive? || e.DeleteThread? || e.Crash?)
    ensures Stuck(ApplyUpkeep(s, now, e), cp)
  {
  }

  lemma {:induction false} SweepStuck(s: Rows, now: Time, e: Event, cp: Checkpoint)
    requires Stuck(s, cp) && Unsettled(s) && UpkeepEvent(e) && !(e.Archive? || e.DeleteThread? || e.Crash?)
    ensures Stuck(ApplyUpkeep(s, now, e), cp)
  {
  }

  lemma {:induction false} StepStuck(s: Rows, now: Time, e: Event, cp: Checkpoint)
    requires Stuck(s, cp) && Unsettled(s) && Unsettled(Apply(s, now, e))
    ensures Stuck(Apply(s, now, e), cp)
  {
    var t;
    if GraphEvent(e) {
      GraphStuck(s, now, e, cp);
      t := ApplyGraph(s, now, e);
    } else if InsertEvent(e) {
      InsertStuck(s, now, e, cp);
      t := ApplyInsert(s, now, e);
    } else if RunnerEvent(e) {
      RunnerStuck(s, now, e, cp);
      t := ApplyRunner(s, now, e);
    } else if WorkEvent(e) {
      WorkStuck(s, now, e, cp);
      t := ApplyWork(s, now, e);
    } else {
      if e.Archive? || e.DeleteThread? || e.Crash? {
        LeaveStuck(s, now, e, cp);
      } else {
        SweepStuck(s, now, e, cp);
      }
      t := ApplyUpkeep(s, now, e);
    }
    assert t == Apply(s, now, e) && Stuck(t, cp);
  }

  /** From such a row, as long as the classify task is unsettled, no run moves the checkpoint or
      takes the task off the primary queue, whatever runners, workers and janitors do. */
  lemma {:induction false} StaysStuck(s: Rows, cp: Checkpoint, steps: seq<Step>)
    requires Stuck(s, cp)
    requires forall i :: 0 <= i <= |steps| ==> Unsettled(After(s, steps[..i]))
    ensures Stuck(After(s, steps), cp) && After(s, steps).id == s.id
  {
    if steps != [] {
      var n := |steps| - 1;
      assert forall i :: 0 <= i <= n ==> steps[..n][..i] == steps[..i];
      StaysStuck(s, cp, steps[..n]);
      assert Unsettled(After(s, steps[..n]));
      assert steps[..n + 1] == steps;
      StepStuck(After(s, steps[..n]), steps[n].now, steps[n].event, cp);
      StepSameId(After(s, steps[..n]), steps[n].now, steps[n].event);
    }
  }
}
