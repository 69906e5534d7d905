/** Every committed step keeps the invariant. */
module SafetySteps {
  import opened Wrappers
  import opened Models
  import opened TaskQueue
  import opened WorkflowRuns
  import opened Graph
  import opened Verdicts
  import opened SideEffects
  import opened Engine
  import opened Safety

  lemma {:induction false} SeedKeeps(s: Rows, a: nat, ticket: Ticket)
    requires Inv(s)
    ensures Inv(DoSeed(s, a, ticket))
  {
  }

  lemma {:induction false} EnqueueKeepsRows(s: Rows, now: Time, key: Key, queue: Queue, payload: Payload)
    requires QueueOk(s.id, s.tasks, s.log.final, s.fx.result) && key.ticket == s.id && StageOf(key.stage, payload)
    requires key.stage.Finalize? ==> s.log.final == Some(payload)
    ensures var t := s.(tasks := Enqueue(s.tasks, now, key, queue, payload));
            QueueOk(t.id, t.tasks, t.log.final, t.fx.result) && Grows(s, t)
  {
  }

  lemma {:induction false} CancelKeepsRows(s: Rows, key: Key, reason: string)
    requires QueueOk(s.id, s.tasks, s.log.final, s.fx.result)
    ensures var t := s.(tasks := CancelPending(s.tasks, key, reason));
            QueueOk(t.id, t.tasks, t.log.final, t.fx.result) && Grows(s, t)
  {
  }

  lemma {:induction false} TxnKeepsRows(s: Rows, now: Time, txn: Txn)
    requires QueueOk(s.id, s.tasks, s.log.final, s.fx.result)
    requires !txn.NoTxn? ==> txn.key.ticket == s.id && StageOf(txn.key.stage, txn.payload)
    requires !txn.NoTxn? && txn.key.stage.Finalize? ==> txn.Dispatch? && s.log.final == Some(txn.payload)
    ensures var t := s.(tasks := ApplyTxn(s.tasks, now, txn));
            QueueOk(t.id, t.tasks, t.log.final, t.fx.result) && Grows(s, t)
  {
    match txn
    case NoTxn =>
    case Dispatch(key, queue, payload) => EnqueueKeepsRows(s, now, key, queue, payload);
    case Redispatch(key, payload) =>
      if IsPending(s.tasks, key) {
        var reason := "redispatched to fallback";
        CancelKeepsRows(s, key, reason);
        var m := s.(tasks := CancelPending(s.tasks, key, reason));
        EnqueueKeepsRows(m, now, FallbackOf(key), FallbackQueue, payload);
      }
  }

  // Only `execute` records a finalize payload, and always the same one.
  lemma {:induction false} FinalRecorded(s: Rows, now: Time, inputs: seq<Resume>)
    requires Inv(s) && s.cp.Some? && s.cp.value.node.Execute?
    ensures var p := FinalizeOf(s.cp.value.st);
            NodeTxn(s.cp.value, inputs) == Dispatch(FinalizeKey(s.cp.value.st), SideEffectQueue, p)
            && Authorised(s.log, p) && (s.log.final.None? || s.log.final == Some(p))
  {
  }

  lemma {:induction false} RanIsOk(
    s: Rows, t: Rows, caller: Caller, resume: Option<Resume>, redispatched: bool, now: Time)
    requires Grows(s, t) && s.cp.Some? && WellFormed(s.id, s.cp.value)
    requires ActorOk(s, Invoking(caller, resume))
    ensures ActorOk(t, Ran(caller, s.cp.value, InputsOf(s.cp.value, resume), redispatched, now))
  {
    ActorKept(s, t, Invoking(caller, resume));
    assert (resume.Some? ==> ResumeOk(t, resume.value)) && CallerOk(t, caller, resume);
  }

  // A statement that touches only `task_queue`.
  lemma {:induction false} TasksKeep(s: Rows, tasks: Table)
    requires Inv(s) && s.log.born
    requires var t := s.(tasks := tasks); QueueOk(t.id, t.tasks, t.log.final, t.fx.result) && Grows(s, t)
    ensures Inv(s.(tasks := tasks))
  {
    ActorsKept(s, s.(tasks := tasks));
  }

  lemma {:induction false} FinalKeeps(s: Rows, now: Time, inputs: seq<Resume>)
    requires Inv(s) && s.cp.Some? && s.cp.value.node.Execute? && s.log.final.None?
    ensures var t := s.(log := s.log.(final := Some(FinalizeOf(s.cp.value.st)))); Inv(t) && Grows(s, t)
  {
    var t := s.(log := s.log.(final := Some(FinalizeOf(s.cp.value.st))));
    FinalRecorded(s, now, inputs);
    assert Grows(s, t);
    ActorsKept(s, t);
    assert CheckpointOk(t.id, t.cp, t.log);
    assert LogOk(t.id, t.run, t.archived, t.log);
  }

  lemma {:induction false} TxnFits(s: Rows, inputs: seq<Resume>)
    requires CheckpointOk(s.id, s.cp, s.log) && s.cp.Some?
    ensures var txn := NodeTxn(s.cp.value, inputs);
            && (!txn.NoTxn? ==> txn.key.ticket == s.id && StageOf(txn.key.stage, txn.payload))
            && (!txn.NoTxn? && txn.key.stage.Finalize? ==>
                  s.cp.value.node.Execute? && txn.Dispatch? && txn.payload == FinalizeOf(s.cp.value.st))
  {
  }

  // The queue transaction of a node run, without the actor's move.
  lemma {:induction false} NodeTxnKeeps(s: Rows, now: Time, inputs: seq<Resume>, final: Option<Payload>)
    requires Inv(s) && s.cp.Some? && !s.cp.value.node.End?
    requires var txn := NodeTxn(s.cp.value, inputs);
             final == if s.cp.value.node.Execute? && txn.Dispatch?
                 && s.log.final.None? then Some(txn.payload) else s.log.final
    ensures var t := s.(tasks := ApplyTxn(s.tasks, now, NodeTxn(s.cp.value, inputs)), log := s.log.(final := final));
            Inv(t) && Grows(s, t)
  {
    var txn := NodeTxn(s.cp.value, inputs);
    var m := s.(log := s.log.(final := final));
    TxnFits(s, inputs);
    assert Inv(m) && Grows(s, m) && (s.cp.value.node.Execute? ==> final == Some(FinalizeOf(s.cp.value.st))) by {
      if s.cp.value.node.Execute? {
        FinalRecorded(s, now, inputs);
        if s.log.final.None? {
          FinalKeeps(s, now, inputs);
        } else {
          assert m == s;
        }
      } else {
        assert m == s;
      }
    }
    TxnKeepsRows(m, now, txn);
    TasksKeep(m, ApplyTxn(m.tasks, now, txn));
  }

  lemma {:induction false} RunMoves(s: Rows, now: Time, a: nat, caller: Caller, resume: Option<Resume>)
    requires Inv(s) && At(s, a) && s.actors[a] == Invoking(caller, resume) && ActorOk(s, s.actors[a])
    requires s.cp.Some? && !s.cp.value.node.End?
    ensures Inv(DoRunNode(s, now, a))
  {
    var inputs := InputsOf(s.cp.value, resume);
    var t := DoRunNode(s, now, a);
    var m := s.(tasks := t.tasks, log := t.log);
    NodeTxnKeeps(s, now, inputs, t.log.final);
    RanIsOk(s, m, caller, resume, Redispatches(s.tasks, NodeTxn(s.cp.value, inputs)), now);
    MoveKeeps(m, a, t.actors[a]);
  }

  lemma {:induction false} RunNodeKeeps(s: Rows, now: Time, a: nat)
    requires Inv(s)
    ensures Inv(DoRunNode(s, now, a))
  {
    if At(s, a) && s.actors[a].Invoking? && s.cp.Some? {
      var Invoking(caller, resume) := s.actors[a];
      assert ActorOk(s, s.actors[a]);
      if !s.cp.value.node.End? {
        RunMoves(s, now, a, caller, resume);
      } else {
        MoveKeeps(s, a, Returned(caller, s.cp.value));
      }
    } else {
      DropKeeps(s, a);
    }
  }

  // An actor moves on and no row changes.
  lemma {:induction false} MoveKeeps(s: Rows, a: nat, x: Actor)
    requires Inv(s) && s.log.born && ActorOk(s, x)
    ensures Inv(Set(s, a, x))
  {
    var t := Set(s, a, x);
    ActorKept(s, t, x);
    ActorsKept(s, t);
  }

  lemma {:induction false} DropKeeps(s: Rows, a: nat)
    requires Inv(s)
    ensures Inv(Drop(s, a))
  {
    var t := Drop(s, a);
    ActorsKept(s, t);
  }

  // ----- committing a checkpoint

  predicate Consumes(from: Checkpoint, resume: Option<Resume>) {
    resume.Some? && from.node.Interrupts()
  }

  predicate StatusFollows(from: Status, to: Status) {
    from.Rank() <= to.Rank() && (from.Terminal() ==> to == from)
  }

  predicate Follows(id: Id, from: Checkpoint, resume: Option<Resume>, to: Checkpoint)
    requires WellFormed(id, from)
  {
    && WellFormed(id, to)
    && from.node.Rank() <= to.node.Rank()
    && Measure(to) + (if Consumes(from, resume) then 1 else 0) <= Measure(from)
    && (!to.node.End? ==> StatusFollows(from.st.status, to.st.status))
    // The decision the checkpoint carries is set by `await_approval` alone.
    && (from.node.AwaitApproval? && to.node.Execute? ==>
          resume.Some? && to.st.decision == (if resume.value.Human? then Some(resume.value.decision) else None))
    && (to.node.Execute? && !from.node.AwaitApproval? ==>
          to.st.decision == from.st.decision && (to.st.status.AwaitingApproval? ==> from.st.status.AwaitingApproval?))
    && (to.node.Execute? && from.node.Rank() >= AwaitApproval.Rank() ==> to.st.draft == from.st.draft)
    && (to.node == from.node ==> to.st == from.st)
    && (from.node.AwaitApproval? && resume.Some? ==> to.node.Execute?)
  }

  lemma {:induction false} InputsCases(from: Checkpoint, resume: Option<Resume>)
    requires from.resumes == [] || from.resumes == [Timeout]
    ensures from.resumes == [] && resume.None? ==> InputsOf(from, resume) == []
    ensures from.resumes == [] && resume.Some? ==> InputsOf(from, resume) == [resume.value]
    ensures from.resumes == [Timeout] && resume.None? ==> InputsOf(from, resume) == [Timeout]
    ensures from.resumes == [Timeout] && resume.Some? ==> InputsOf(from, resume) == [Timeout, resume.value]
  {
  }

  // `await_agent_task` parks on its task, or returns the newest resume.
  lemma {:induction false} AwaitCases(key: Key, from: Checkpoint, resume: Option<Resume>, redispatched: bool)
    requires from.resumes == [] || from.resumes == [Timeout]
    ensures var inputs := InputsOf(from, resume);
            match AwaitAgent(key, from.st.wakeupAt, inputs, redispatched)
            case Suspend(envelope) =>
              && envelope.TaskEnvelope? && envelope.key in {key, FallbackOf(key)}
              && (inputs == [] ==> envelope.key == key)
              && (inputs == [] || inputs == [Timeout]) && |inputs| >= |from.resumes| + (if resume.Some? then 1 else 0)
            case Return(answer) => resume == Some(answer)
  {
    InputsCases(from, resume);
  }

  lemma {:induction false} ParkFollows(
    id: Id, from: Checkpoint, resume: Option<Resume>, inputs: seq<Resume>, envelope: Envelope)
    requires WellFormed(id, from) && (from.node.AwaitClassify? || from.node.AwaitDraft?)
    requires inputs == [] || inputs == [Timeout]
    requires |inputs| >= |from.resumes| + (if resume.Some? then 1 else 0)
    requires var key := if from.node.AwaitClassify? then ClassifyKey(from.st) else DraftKey(from.st);
             envelope.TaskEnvelope? && envelope.key in {key, FallbackOf(key)} && (inputs == [] ==> envelope.key == key)
    ensures Follows(id, from, resume, ParkOn(from, inputs, envelope).cp)
  {
  }

  lemma {:induction false} ClassifyAnswered(id: Id, from: Checkpoint, answer: Resume)
    requires WellFormed(id, from) && from.node.AwaitClassify? && !ClassifyOutcome(from.st, answer).Raise?
    ensures Follows(id, from, Some(answer), ClassifyOutcome(from.st, answer).cp)
  {
  }

  lemma {:induction false} DraftAnswered(id: Id, from: Checkpoint, answer: Resume)
    requires WellFormed(id, from) && from.node.AwaitDraft? && !DraftOutcome(from.st, answer).Raise?
    ensures Follows(id, from, Some(answer), DraftOutcome(from.st, answer).cp)
  {
  }

  lemma {:induction false} AwaitFollows(id: Id, from: Checkpoint, resume: Option<Resume>, redispatched: bool, now: Time)
    requires WellFormed(id, from) && (from.node.AwaitClassify? || from.node.AwaitDraft?)
    requires !NodeOutcome(from, InputsOf(from, resume), redispatched, now).Raise?
    ensures Follows(id, from, resume, NodeOutcome(from, InputsOf(from, resume), redispatched, now).cp)
  {
    var inputs := InputsOf(from, resume);
    var key := if from.node.AwaitClassify? then ClassifyKey(from.st) else DraftKey(from.st);
    AwaitCases(key, from, resume, redispatched);
    match AwaitAgent(key, from.st.wakeupAt, inputs, redispatched)
    case Suspend(envelope) => ParkFollows(id, from, resume, inputs, envelope);
    case Return(answer) =>
      if from.node.AwaitClassify? {
        ClassifyAnswered(id, from, answer);
      } else {
        DraftAnswered(id, from, answer);
      }
  }

  lemma {:induction false} ApprovalFollows(
    id: Id, from: Checkpoint, resume: Option<Resume>, redispatched: bool, now: Time)
    requires WellFormed(id, from) && (from.node.AwaitApproval? || from.node.Execute?)
    requires !NodeOutcome(from, InputsOf(from, resume), redispatched, now).Raise?
    ensures Follows(id, from, resume, NodeOutcome(from, InputsOf(from, resume), redispatched, now).cp)
  {
    InputsCases(from, resume);
  }

  // The nodes that do not interrupt.
  lemma {:induction false} PlainFollows(
    id: Id, from: Checkpoint, resume: Option<Resume>, redispatched: bool, now: Time)
    requires WellFormed(id, from) && !from.node.Interrupts()
    requires !NodeOutcome(from, InputsOf(from, resume), redispatched, now).Raise?
    ensures Follows(id, from, resume, NodeOutcome(from, InputsOf(from, resume), redispatched, now).cp)
  {
    if from.node.DecideApproval? || from.node.PrepareApproval? {
      GateFollows(id, from, resume, redispatched, now);
    } else {
      DispatchFollows(id, from, resume, redispatched, now);
    }
  }

  lemma {:induction false} GateFollows(
    id: Id, from: Checkpoint, resume: Option<Resume>, redispatched: bool, now: Time)
    requires WellFormed(id, from) && (from.node.DecideApproval? || from.node.PrepareApproval?)
    ensures Follows(id, from, resume, NodeOutcome(from, InputsOf(from, resume), redispatched, now).cp)
  {
  }

  lemma {:induction false} DispatchFollows(
    id: Id, from: Checkpoint, resume: Option<Resume>, redispatched: bool, now: Time)
    requires WellFormed(id, from) && (from.node.Start? || from.node.DispatchClassify? || from.node.DispatchDraft?)
    ensures Follows(id, from, resume, NodeOutcome(from, InputsOf(from, resume), redispatched, now).cp)
  {
  }

  /** Wherever a node run leads, the checkpoint it writes has been through what its node
      requires, it never goes back, and an accepted resume uses up the measure. */
  lemma {:induction false} NodeKeepsShape(
    id: Id, from: Checkpoint, resume: Option<Resume>, redispatched: bool, now: Time)
    requires WellFormed(id, from)
    requires !NodeOutcome(from, InputsOf(from, resume), redispatched, now).Raise?
    ensures Follows(id, from, resume, NodeOutcome(from, InputsOf(from, resume), redispatched, now).cp)
  {
    match from.node
    case AwaitClassify => AwaitFollows(id, from, resume, redispatched, now);
    case AwaitDraft => AwaitFollows(id, from, resume, redispatched, now);
    case AwaitApproval => ApprovalFollows(id, from, resume, redispatched, now);
    case Execute => ApprovalFollows(id, from, resume, redispatched, now);
    case _ => PlainFollows(id, from, resume, redispatched, now);
  }

  lemma {:induction false} CommitLogCounts(log: Log, from: Checkpoint, resume: Option<Resume>, to: Checkpoint)
    ensures CommitLog(log, from, InputsOf(from, resume), to).resumed
            == log.resumed + (if Consumes(from, resume) then 1 else 0)
  {
    assert |InputsOf(from, resume)| > |from.resumes| <==> resume.Some?;
  }

  // The finalize result a process may hold, given the recorded payload.
  predicate ResultKnown(log: Log, result: Option<TicketResult>, resume: Option<Resume>) {
    && (result.Some? ==>
        log.final.Some? && log.final.value.FinalizePayload? && result.value == FinalResult(log.final.value))
    && (resume.Some? && resume.value.Value? && resume.value.result.Finalized? ==>
          result == Some(resume.value.result.result))
  }

  lemma {:induction false} FinalizesAsOwed(id: Id, cp: Checkpoint)
    requires WellFormed(id, cp) && cp.node.Execute?
    ensures FinalizeOf(cp.st) == OwedFor(cp.st)
    ensures cp.st.decision.Some? ==> !GoesUnasked(cp.st.draft.value)
  {
  }

  lemma {:induction false} ExecuteEnds(
    id: Id, from: Checkpoint, resume: Option<Resume>, redispatched: bool, now: Time, log: Log,
    result: Option<TicketResult>)
    requires WellFormed(id, from) && from.node.Execute? && ProgressLogged(from, log) && ResultKnown(log, result, resume)
    requires var outcome := NodeOutcome(from, InputsOf(from, resume), redispatched, now);
             !outcome.Raise? && outcome.cp.node.End?
    ensures var to := NodeOutcome(from, InputsOf(from, resume), redispatched, now).cp;
            && result.Some? && to.st.result == result && to.st.decision == from.st.decision
            && to.st.draft == from.st.draft && to.st.draft.Some? && to.st.classification.Some?
            && log.final == Some(OwedFor(to.st))
            && StatusFollows(from.st.status, to.st.status)
  {
    InputsCases(from, resume);
    FinalizesAsOwed(id, from);
  }

  lemma {:induction false} OnlyExecuteEnds(from: Checkpoint, inputs: seq<Resume>, redispatched: bool, now: Time)
    requires !NodeOutcome(from, inputs, redispatched, now).Raise?
    requires !from.node.Execute?
    ensures !NodeOutcome(from, inputs, redispatched, now).cp.node.End?
  {
  }

  lemma {:induction false} CommitProgress(
    id: Id, from: Checkpoint, resume: Option<Resume>, redispatched: bool, now: Time, log: Log,
    result: Option<TicketResult>)
    requires WellFormed(id, from) && ProgressLogged(from, log) && ResultKnown(log, result, resume)
    requires !NodeOutcome(from, InputsOf(from, resume), redispatched, now).Raise?
    ensures var inputs := InputsOf(from, resume);
            var to := NodeOutcome(from, inputs, redispatched, now).cp;
            && WellFormed(id, to) && ProgressLogged(to, CommitLog(log, from, inputs, to))
            && StatusFollows(from.st.status, to.st.status)
  {
    var to := NodeOutcome(from, InputsOf(from, resume), redispatched, now).cp;
    NodeKeepsShape(id, from, resume, redispatched, now);
    if to.node.End? {
      if !from.node.Execute? {
        OnlyExecuteEnds(from, InputsOf(from, resume), redispatched, now);
      }
      ExecuteEnds(id, from, resume, redispatched, now, log, result);
    }
    LoggedFrom(id, from, resume, log, to);
  }

  lemma {:induction false} LoggedFrom(id: Id, from: Checkpoint, resume: Option<Resume>, log: Log, to: Checkpoint)
    requires WellFormed(id, from) && ProgressLogged(from, log) && Follows(id, from, resume, to)
    requires to.node.End? ==>
               from.node.Execute? && log.final.Some? && log.final.value.FinalizePayload?
               && to.st.decision == from.st.decision && to.st.result == Some(FinalResult(log.final.value))
               && to.st.draft == from.st.draft && log.final.value == OwedFor(to.st)
    ensures ProgressLogged(to, CommitLog(log, from, InputsOf(from, resume), to))
  {
    InputsCases(from, resume);
  }

  lemma {:induction false} CommitCheckpointOk(
    s: Rows, from: Checkpoint, resume: Option<Resume>, redispatched: bool, now: Time)
    requires Inv(s) && s.cp == Some(from) && (resume.Some? ==> ResumeOk(s, resume.value))
    requires !NodeOutcome(from, InputsOf(from, resume), redispatched, now).Raise?
    ensures var to := NodeOutcome(from, InputsOf(from, resume), redispatched, now).cp;
            CheckpointOk(s.id, Some(to), CommitLog(s.log, from, InputsOf(from, resume), to))
  {
    var to := NodeOutcome(from, InputsOf(from, resume), redispatched, now).cp;
    NodeKeepsShape(s.id, from, resume, redispatched, now);
    CommitProgress(s.id, from, resume, redispatched, now, s.log, s.fx.result);
    CommitLogCounts(s.log, from, resume, to);
    assert StatusOk(to, s.log.held + {to.st.status});
  }

  lemma {:induction false} CommitLogFrom(
    id: Id, run: Option<Run>, archived: Option<Run>, from: Checkpoint, resume: Option<Resume>, log: Log, to: Checkpoint)
    requires WellFormed(id, from) && Follows(id, from, resume, to) && LogOk(id, run, archived, log)
    requires log.resumed + Measure(from) <= 6
    requires ProgressLogged(from, log) && ProgressLogged(to, CommitLog(log, from, InputsOf(from, resume), to))
    requires from.node.AwaitApproval? && resume.Some? && resume.value.Human? ==>
               log.accepted == [resume.value.decision]
    ensures LogOk(id, run, archived, CommitLog(log, from, InputsOf(from, resume), to))
    ensures Kept(log.prompted, CommitLog(log, from, InputsOf(from, resume), to).prompted)
  {
    InputsCases(from, resume);
    CommitLogCounts(log, from, resume, to);
  }

  lemma {:induction false} CommitLogOk(s: Rows, from: Checkpoint, resume: Option<Resume>, redispatched: bool, now: Time)
    requires Inv(s) && s.cp == Some(from) && (resume.Some? ==> ResumeOk(s, resume.value))
    requires !NodeOutcome(from, InputsOf(from, resume), redispatched, now).Raise?
    ensures var to := NodeOutcome(from, InputsOf(from, resume), redispatched, now).cp;
            var log := CommitLog(s.log, from, InputsOf(from, resume), to);
            LogOk(s.id, s.run, s.archived, log) && Kept(s.log.prompted, log.prompted)
  {
    var to := NodeOutcome(from, InputsOf(from, resume), redispatched, now).cp;
    NodeKeepsShape(s.id, from, resume, redispatched, now);
    CommitProgress(s.id, from, resume, redispatched, now, s.log, s.fx.result);
    CommitLogFrom(s.id, s.run, s.archived, from, resume, s.log, to);
  }

  lemma {:induction false} EndReached(s: Rows, from: Checkpoint, resume: Option<Resume>, redispatched: bool, now: Time)
    requires Inv(s) && s.cp == Some(from) && (resume.Some? ==> ResumeOk(s, resume.value))
    requires !NodeOutcome(from, InputsOf(from, resume), redispatched, now).Raise?
    ensures EndOk(Some(NodeOutcome(from, InputsOf(from, resume), redispatched, now).cp), s.fx.result)
  {
    var to := NodeOutcome(from, InputsOf(from, resume), redispatched, now).cp;
    if to.node.End? {
      if !from.node.Execute? {
        OnlyExecuteEnds(from, InputsOf(from, resume), redispatched, now);
      }
      ExecuteEnds(s.id, from, resume, redispatched, now, s.log, s.fx.result);
    }
  }

  // The checkpoint write, without the actor's move.
  lemma {:induction false} CheckpointWriteKeeps(
    s: Rows, from: Checkpoint, resume: Option<Resume>, redispatched: bool, now: Time)
    requires Inv(s) && s.cp == Some(from) && (resume.Some? ==> ResumeOk(s, resume.value))
    requires !NodeOutcome(from, InputsOf(from, resume), redispatched, now).Raise?
    ensures var inputs := InputsOf(from, resume);
            var to := NodeOutcome(from, inputs, redispatched, now).cp;
            var t := s.(cp := Some(to), log := CommitLog(s.log, from, inputs, to));
            Inv(t) && Grows(s, t) && to.st.status in t.log.held && Follows(s.id, from, resume, to)
  {
    var inputs := InputsOf(from, resume);
    var to := NodeOutcome(from, inputs, redispatched, now).cp;
    var t := s.(cp := Some(to), log := CommitLog(s.log, from, inputs, to));
    NodeKeepsShape(s.id, from, resume, redispatched, now);
    CommitCheckpointOk(s, from, resume, redispatched, now);
    CommitLogOk(s, from, resume, redispatched, now);
    EndReached(s, from, resume, redispatched, now);
    WriteKeepsRest(s, from, resume, to);
  }

  // What the checkpoint's shape and the log's already are gives the rest.
  lemma {:induction false} WriteKeepsRest(s: Rows, from: Checkpoint, resume: Option<Resume>, to: Checkpoint)
    requires Inv(s) && s.cp == Some(from) && Follows(s.id, from, resume, to)
    requires var log := CommitLog(s.log, from, InputsOf(from, resume), to);
             && CheckpointOk(s.id, Some(to), log) && LogOk(s.id, s.run, s.archived, log)
             && Kept(s.log.prompted, log.prompted) && EndOk(Some(to), s.fx.result)
    ensures var t := s.(cp := Some(to), log := CommitLog(s.log, from, InputsOf(from, resume), to));
            Inv(t) && Grows(s, t) && to.st.status in t.log.held
  {
    var t := s.(cp := Some(to), log := CommitLog(s.log, from, InputsOf(from, resume), to));
    assert SignalsOk(t.id, t.cp, t.signals, t.nextSignal, t.log.accepted);
    ActorsKept(s, t);
  }

  // Where the invocation goes after a checkpoint write.
  function NextMove(caller: Caller, outcome: Outcome): Actor
    requires !outcome.Raise?
  {
    if outcome.Park? || outcome.cp.node.End? then Returned(caller, outcome.cp) else Invoking(caller, None)
  }

  lemma {:induction false} NextMoveOk(
    s: Rows, t: Rows, from: Checkpoint, caller: Caller, resume: Option<Resume>, outcome: Outcome)
    requires s.cp == Some(from) && WellFormed(s.id, from) && CallerOk(s, caller, resume)
    requires !outcome.Raise? && Follows(s.id, from, resume, outcome.cp)
    requires t.cp == Some(outcome.cp) && outcome.cp.st.status in t.log.held
    ensures ActorOk(t, NextMove(caller, outcome))
  {
  }

  // A process that ran a node wrote down what it was resumed with.
  lemma {:induction false} RanResume(s: Rows, a: nat) returns (resume: Option<Resume>)
    requires ActorsOk(s) && At(s, a) && s.actors[a].Ran?
    ensures var x := s.actors[a];
            && WellFormed(s.id, x.from) && x.inputs == InputsOf(x.from, resume)
            && (resume.Some? ==> ResumeOk(s, resume.value)) && CallerOk(s, x.caller, resume)
  {
    var x := s.actors[a];
    assert ActorOk(s, x);
    resume :| x.inputs == InputsOf(x.from, resume)
      && (resume.Some? ==> ResumeOk(s, resume.value)) && CallerOk(s, x.caller, resume);
  }

  lemma {:induction false} CommitKeeps(s: Rows, a: nat)
    requires Inv(s)
    ensures Inv(DoCommit(s, a))
  {
    if At(s, a) && s.actors[a].Ran? {
      var Ran(caller, from, inputs, redispatched, stamp) := s.actors[a];
      if s.cp != Some(from) || NodeOutcome(from, inputs, redispatched, stamp).Raise? {
        DropKeeps(s, a);
      } else {
        var resume := RanResume(s, a);
        CommitMoves(s, a, caller, from, resume, redispatched, stamp);
      }
    }
  }

  lemma {:induction false} CommitMoves(
    s: Rows, a: nat, caller: Caller, from: Checkpoint, resume: Option<Resume>, redispatched: bool, stamp: Time)
    requires Inv(s) && s.cp == Some(from) && CallerOk(s, caller, resume) && (resume.Some? ==> ResumeOk(s, resume.value))
    requires !NodeOutcome(from, InputsOf(from, resume), redispatched, stamp).Raise?
    ensures var inputs := InputsOf(from, resume);
            var outcome := NodeOutcome(from, inputs, redispatched, stamp);
            Inv(Set(s.(cp := Some(outcome.cp), log := CommitLog(s.log, from, inputs, outcome.cp)), a,
                    NextMove(caller, outcome)))
  {
    var inputs := InputsOf(from, resume);
    var outcome := NodeOutcome(from, inputs, redispatched, stamp);
    var m := s.(cp := Some(outcome.cp), log := CommitLog(s.log, from, inputs, outcome.cp));
    CheckpointWriteKeeps(s, from, resume, redispatched, stamp);
    NextMoveOk(s, m, from, caller, resume, outcome);
    MoveKeeps(m, a, NextMove(caller, outcome));
  }

  // ----- run rows and signals

  lemma {:induction false} InsertRunKeeps(s: Rows, now: Time, a: nat)
    requires Inv(s)
    ensures Inv(DoInsertRun(s, now, a))
  {
    if At(s, a) && s.actors[a].Creating? {
      assert ActorOk(s, s.actors[a]);
      var m := DoInsertRun(s, now, a).(actors := s.actors);
      assert Grows(s, m);
      ActorsKept(s, m);
      DropKeeps(m, a);
    }
  }

  lemma {:induction false} ClaimKeeps(s: Rows, now: Time, a: nat, owner: string)
    requires Inv(s)
    ensures Inv(DoClaim(s, now, a, owner))
  {
    var t := DoClaim(s, now, a, owner);
    if t != s {
      var m := t.(actors := s.actors);
      assert Grows(s, m);
      ActorsKept(s, m);
      MoveKeeps(m, a, t.actors[a]);
    }
  }

  lemma {:induction false} LookKeeps(s: Rows, a: nat)
    requires Inv(s)
    ensures Inv(DoLook(s, a))
  {
    if At(s, a) && s.actors[a].Claimed? {
      assert ActorOk(s, s.actors[a]);
      MoveKeeps(s, a, DoLook(s, a).actors[a]);
    }
  }

  // A stored finalize result is the recorded one; a signal's payload was accepted.
  lemma {:induction false} ResumeFound(s: Rows, envelope: Envelope, wakeupAt: Option<Time>)
    requires Inv(s) && (envelope.ApprovalEnvelope? ==> envelope.ticketId == s.id)
    ensures var r := ResumeForRun(s.tasks, s.signals, s.nextSignal, envelope, wakeupAt);
            r.Some? ==> ResumeOk(s, r.value.payload)
                        && (r.value.consumes.Some? ==> envelope.ApprovalEnvelope? && r.value.payload.Human?)
  {
  }

  lemma {:induction false} ChooseKeeps(s: Rows, a: nat)
    requires Inv(s)
    ensures Inv(DoChoose(s, a))
  {
    if At(s, a) && s.actors[a].Looked? {
      assert ActorOk(s, s.actors[a]);
      var Looked(claimedAt, status, wakeupAt, envelope) := s.actors[a];
      var x := DoChoose(s, a).actors[a];
      if envelope.Some? {
        ResumeFound(s, envelope.value, wakeupAt);
      }
      assert ActorOk(s, x);
      MoveKeeps(s, a, x);
    }
  }

  lemma {:induction false} ConsumeKeepsSignals(s: Rows, now: Time, signal: nat)
    requires SignalsOk(s.id, s.cp, s.signals, s.nextSignal, s.log.accepted) && Past(s, Execute)
    ensures SignalsOk(s.id, s.cp, Consume(s.signals, now, signal), s.nextSignal, s.log.accepted)
  {
    var t := Consume(s.signals, now, signal);
    assert forall i :: Unconsumed(t, i, s.id) ==> Unconsumed(s.signals, i, s.id);
  }

  lemma {:induction false} SaveKeeps(s: Rows, now: Time, a: nat)
    requires Inv(s)
    ensures Inv(DoSave(s, now, a))
  {
    if At(s, a) && s.actors[a].Saving? {
      assert ActorOk(s, s.actors[a]);
      var m := DoSave(s, now, a).(actors := s.actors);
      if s.actors[a].signal.Some? {
        ConsumeKeepsSignals(s, now, s.actors[a].signal.value);
      }
      assert Grows(s, m);
      ActorsKept(s, m);
      DropKeeps(m, a);
    }
  }

  lemma {:induction false} SubmitKeepsSignals(s: Rows, now: Time, decision: Decision)
    requires SignalsOk(s.id, s.cp, s.signals, s.nextSignal, s.log.accepted) && Accepts(s)
    ensures var t := DoSubmit(s, now, decision); SignalsOk(t.id, t.cp, t.signals, t.nextSignal, t.log.accepted)
  {
    var t := DoSubmit(s, now, decision);
    assert Unconsumed(t.signals, s.nextSignal, s.id);
  }

  lemma {:induction false} SubmitKeepsLog(s: Rows, now: Time, decision: Decision)
    requires CheckpointOk(s.id, s.cp, s.log) && LogOk(s.id, s.run, s.archived, s.log)
    ensures var t := DoSubmit(s, now, decision);
            CheckpointOk(t.id, t.cp, t.log) && LogOk(t.id, t.run, t.archived, t.log) && Grows(s, t)
  {
    var t := DoSubmit(s, now, decision);
    assert t.log == s.log.(accepted := t.log.accepted, shown := t.log.shown) && t.cp == s.cp;
  }

  lemma {:induction false} SubmitKeeps(s: Rows, now: Time, decision: Decision)
    requires Inv(s)
    ensures Inv(DoSubmit(s, now, decision))
  {
    var t := DoSubmit(s, now, decision);
    if Accepts(s) {
      SubmitKeepsSignals(s, now, decision);
      SubmitKeepsLog(s, now, decision);
      ActorsKept(s, t);
    }
  }

  lemma {:induction false} ReconcileKeeps(s: Rows, a: nat)
    requires Inv(s)
    ensures Inv(DoListOrphan(s, a)) && Inv(DoReadOrphan(s, a))
  {
    if DoListOrphan(s, a) != s {
      MoveKeeps(s, a, Listed);
    }
    if At(s, a) && s.actors[a].Listed? {
      if s.cp.None? || s.cp.value.node.Start? {
        DropKeeps(s, a);
      } else {
        MoveKeeps(s, a, DoReadOrphan(s, a).actors[a]);
      }
    }
  }

  // ----- workers

  lemma {:induction false} LeaseKeeps(s: Rows, now: Time, key: Key, owner: string)
    requires Inv(s) && IsPending(s.tasks, key)
    ensures var m := s.(tasks := Lease(s.tasks, now, key, owner));
            Inv(m) && m.log.born && ActorOk(m, LeasedActor(m.tasks.rows[key]))
  {
    LeaseKeepsRows(s, now, key, owner);
    TasksKeep(s, Lease(s.tasks, now, key, owner));
    LeasedIsOk(s.(tasks := Lease(s.tasks, now, key, owner)), key);
  }

  lemma {:induction false} LeaseKeepsRows(s: Rows, now: Time, key: Key, owner: string)
    requires QueueOk(s.id, s.tasks, s.log.final, s.fx.result) && IsPending(s.tasks, key)
    ensures var t := s.(tasks := Lease(s.tasks, now, key, owner));
            QueueOk(t.id, t.tasks, t.log.final, t.fx.result) && Grows(s, t)
  {
    assert RowOk(s.id, s.tasks.nextId, s.log.final, s.fx.result, key, s.tasks.rows[key]);
  }

  lemma {:induction false} LeasedIsOk(s: Rows, key: Key)
    requires QueueOk(s.id, s.tasks, s.log.final, s.fx.result) && key in s.tasks.rows
    ensures ActorOk(s, LeasedActor(s.tasks.rows[key]))
  {
    assert RowOk(s.id, s.tasks.nextId, s.log.final, s.fx.result, key, s.tasks.rows[key]);
  }

  lemma {:induction false} DequeueKeeps(s: Rows, now: Time, a: nat, key: Key, queue: Queue, owner: string)
    requires Inv(s)
    ensures Inv(DoDequeue(s, now, a, key, queue, owner))
  {
    if a !in s.actors && key in s.tasks.rows && Due(s.tasks.rows[key], now, queue) {
      LeaseKeeps(s, now, key, owner);
      var m := s.(tasks := Lease(s.tasks, now, key, owner));
      MoveKeeps(m, a, DoDequeue(s, now, a, key, queue, owner).actors[a]);
    }
  }

  lemma {:induction false} CompleteKeepsRow(
    id: Id, nextId: nat, final: Option<Payload>, stored: Option<TicketResult>, key: Key, row: Task, taskId: nat,
    result: TaskResult)
    requires RowOk(id, nextId, final, stored, key, row)
    requires row.id == taskId ==> Answers(result, row.payload)
    requires result.Finalized? ==> stored == Some(result.result)
    ensures RowOk(id, nextId, final, stored, key, CompleteRow(row, taskId, result))
  {
  }

  lemma {:induction false} CompleteGrows(s: Rows, taskId: nat, result: TaskResult)
    ensures Grows(s, s.(tasks := Complete(s.tasks, taskId, result)))
  {
  }

  lemma {:induction false} CompleteKeepsRows(s: Rows, taskId: nat, result: TaskResult, payload: Payload)
    requires QueueOk(s.id, s.tasks, s.log.final, s.fx.result) && TaskIdOk(s, taskId, payload)
            && Answers(result, payload)
    requires result.Finalized? ==> s.fx.result == Some(result.result)
    ensures var t := s.(tasks := Complete(s.tasks, taskId, result));
            QueueOk(t.id, t.tasks, t.log.final, t.fx.result) && Grows(s, t)
  {
    var t := s.(tasks := Complete(s.tasks, taskId, result));
    CompleteGrows(s, taskId, result);
    forall key | key in t.tasks.rows
      ensures RowOk(t.id, t.tasks.nextId, t.log.final, t.fx.result, key, t.tasks.rows[key])
    {
      CompleteKeepsRow(s.id, s.tasks.nextId, s.log.final, s.fx.result, key, s.tasks.rows[key], taskId, result);
    }
  }

  lemma {:induction false} FinishKeeps(s: Rows, a: nat, taskId: nat, result: TaskResult, payload: Payload)
    requires Inv(s) && s.log.born && TaskIdOk(s, taskId, payload) && Answers(result, payload)
    requires result.Finalized? ==> s.fx.result == Some(result.result)
    ensures Inv(Finish(s, a, taskId, result))
  {
    CompleteKeepsRows(s, taskId, result, payload);
    var m := s.(tasks := Complete(s.tasks, taskId, result));
    TasksKeep(s, m.tasks);
    MoveKeeps(m, a, Waking);
    DropKeeps(m, a);
  }

  lemma {:induction false} AgentReplyKeeps(s: Rows, a: nat, result: TaskResult)
    requires Inv(s)
    ensures Inv(DoAgentReply(s, a, result))
  {
    if At(s, a) && s.actors[a].Working? && Answers(result, s.actors[a].payload) {
      assert ActorOk(s, s.actors[a]);
      FinishKeeps(s, a, s.actors[a].taskId, result, s.actors[a].payload);
    }
  }

  lemma {:induction false} FailKeepsRows(s: Rows, now: Time, taskId: nat, error: string, permanent: bool)
    requires QueueOk(s.id, s.tasks, s.log.final, s.fx.result)
    ensures var t := s.(tasks := Fail(s.tasks, now, taskId, error, permanent));
            QueueOk(t.id, t.tasks, t.log.final, t.fx.result) && Grows(s, t)
  {
    var t := s.(tasks := Fail(s.tasks, now, taskId, error, permanent));
    forall key | key in t.tasks.rows
      ensures RowOk(t.id, t.tasks.nextId, t.log.final, t.fx.result, key, t.tasks.rows[key])
    {
      assert RowOk(s.id, s.tasks.nextId, s.log.final, s.fx.result, key, s.tasks.rows[key]);
    }
  }

  lemma {:induction false} TaskErrorKeeps(s: Rows, now: Time, a: nat, error: string, permanent: bool)
    requires Inv(s)
    ensures Inv(DoTaskError(s, now, a, error, permanent))
  {
    if At(s, a) && (s.actors[a].Working? || s.actors[a].Finalizing?) {
      var m := s.(tasks := Fail(s.tasks, now, s.actors[a].taskId, error, permanent));
      FailKeepsRows(s, now, s.actors[a].taskId, error, permanent);
      TasksKeep(s, m.tasks);
      MoveKeeps(m, a, Waking);
      DropKeeps(m, a);
    }
  }

  // A write to the effect tables.
  lemma {:induction false} EffectKeeps(s: Rows, fx: Effects)
    requires Inv(s) && s.log.born && LedgerOk(s.log.final, fx) && EffectsGrow(s.fx, fx)
    ensures Inv(s.(fx := fx))
  {
    var m := s.(fx := fx);
    assert Grows(s, m);
    ActorsKept(s, m);
    assert QueueOk(m.id, m.tasks, m.log.final, m.fx.result);
  }

  lemma {:induction false} SideEffectKeeps(s: Rows, a: nat)
    requires Inv(s)
    ensures Inv(DoSideEffect(s, a))
  {
    if At(s, a) && s.actors[a].Finalizing? {
      assert ActorOk(s, s.actors[a]);
      var Finalizing(taskId, d) := s.actors[a];
      if d.progress.Recorded? {
        FinishKeeps(s, a, taskId, Finalized(ResultOf(d)), d.payload);
      } else {
        var (fx, d') := Deliver(s.fx, d);
        DeliverKeeps(d.payload, s.fx, d);
        EffectKeeps(s, fx);
        MoveKeeps(s.(fx := fx), a, Finalizing(taskId, d'));
      }
    }
  }

  lemma {:induction false} WakeKeeps(s: Rows, now: Time, a: nat)
    requires Inv(s)
    ensures Inv(DoWake(s, now, a))
  {
    if At(s, a) && s.actors[a].Waking? {
      var m := DoWake(s, now, a).(actors := s.actors);
      assert Grows(s, m);
      ActorsKept(s, m);
      DropKeeps(m, a);
    }
  }

  // ----- janitor and retention

  lemma {:induction false} ReclaimTasksKeeps(s: Rows, now: Time)
    requires Inv(s)
    ensures Inv(s.(tasks := ReclaimExpired(s.tasks, now)))
  {
    var t := s.(tasks := ReclaimExpired(s.tasks, now));
    ReclaimKeepsRows(s, now);
    ActorsKept(s, t);
  }

  lemma {:induction false} ReclaimKeepsRows(s: Rows, now: Time)
    requires QueueOk(s.id, s.tasks, s.log.final, s.fx.result)
    ensures var t := s.(tasks := ReclaimExpired(s.tasks, now));
            QueueOk(t.id, t.tasks, t.log.final, t.fx.result) && Grows(s, t)
  {
    var t := s.(tasks := ReclaimExpired(s.tasks, now));
    forall key | key in t.tasks.rows
      ensures RowOk(t.id, t.tasks.nextId, t.log.final, t.fx.result, key, t.tasks.rows[key])
    {
      assert RowOk(s.id, s.tasks.nextId, s.log.final, s.fx.result, key, s.tasks.rows[key]);
    }
  }

  lemma {:induction false} ReclaimRunsKeeps(s: Rows, now: Time)
    requires Inv(s)
    ensures Inv(DoReclaimRuns(s, now))
  {
    var t := DoReclaimRuns(s, now);
    assert Grows(s, t);
    ActorsKept(s, t);
  }

  lemma {:induction false} RetentionKeeps(s: Rows, now: Time, a: nat, maxAge: Time, conflict: bool)
    requires Inv(s)
    ensures Inv(DoArchive(s, now, a, maxAge, conflict)) && Inv(DoDeleteThread(s, a))
  {
    var t := DoArchive(s, now, a, maxAge, conflict);
    if t != s {
      var m := t.(actors := s.actors);
      assert Grows(s, m);
      ActorsKept(s, m);
      MoveKeeps(m, a, Deleting);
    }
    if At(s, a) && s.actors[a].Deleting? {
      var m := s.(cp := None);
      assert Grows(s, m);
      ActorsKept(s, m);
      DropKeeps(m, a);
    }
  }

  lemma {:induction false} PruneKeepsSignals(s: Rows, now: Time, maxAge: Time)
    requires SignalsOk(s.id, s.cp, s.signals, s.nextSignal, s.log.accepted)
    ensures SignalsOk(s.id, s.cp, PruneConsumed(s.signals, now, maxAge), s.nextSignal, s.log.accepted)
  {
    var t := PruneConsumed(s.signals, now, maxAge);
    assert forall i :: Unconsumed(t, i, s.id) <==> Unconsumed(s.signals, i, s.id);
  }

  lemma {:induction false} PruneSignalsKeeps(s: Rows, now: Time, maxAge: Time)
    requires Inv(s)
    ensures Inv(s.(signals := PruneConsumed(s.signals, now, maxAge)))
  {
    var t := s.(signals := PruneConsumed(s.signals, now, maxAge));
    PruneKeepsSignals(s, now, maxAge);
    assert Grows(s, t);
    ActorsKept(s, t);
  }

  lemma {:induction false} PruneTasksKeeps(s: Rows, now: Time, maxAge: Time)
    requires Inv(s)
    ensures Inv(s.(tasks := PruneSettled(s.tasks, now, maxAge)))
  {
    var t := s.(tasks := PruneSettled(s.tasks, now, maxAge));
    assert QueueOk(t.id, t.tasks, t.log.final, t.fx.result) && Grows(s, t);
    ActorsKept(s, t);
  }

  lemma {:induction false} SerialsKeep(s: Rows, taskIds: nat, signalIds: nat)
    requires Inv(s)
    ensures Inv(DoSerials(s, taskIds, signalIds))
  {
    var t := DoSerials(s, taskIds, signalIds);
    assert QueueOk(t.id, t.tasks, t.log.final, t.fx.result) && Grows(s, t);
    ActorsKept(s, t);
  }

  lemma {:induction false} GraphStepKeeps(s: Rows, now: Time, e: Event)
    requires Inv(s) && GraphEvent(e)
    ensures Inv(ApplyGraph(s, now, e))
  {
    match e
    case SeedTicket(a, ticket) => SeedKeeps(s, a, ticket);
    case RunNode(a) => RunNodeKeeps(s, now, a);
    case Commit(a) => CommitKeeps(s, a);
  }

  lemma {:induction false} InsertStepKeeps(s: Rows, now: Time, e: Event)
    requires Inv(s) && InsertEvent(e)
    ensures Inv(ApplyInsert(s, now, e))
  {
    match e
    case InsertRun(a) => InsertRunKeeps(s, now, a);
    case ListOrphan(a) => ReconcileKeeps(s, a);
    case ReadOrphan(a) => ReconcileKeeps(s, a);
    case Submit(decision) => SubmitKeeps(s, now, decision);
  }

  lemma {:induction false} RunnerStepKeeps(s: Rows, now: Time, e: Event)
    requires Inv(s) && RunnerEvent(e)
    ensures Inv(ApplyRunner(s, now, e))
  {
    match e
    case Claim(a, owner) => ClaimKeeps(s, now, a, owner);
    case Look(a) => LookKeeps(s, a);
    case Choose(a) => ChooseKeeps(s, a);
    case Save(a) => SaveKeeps(s, now, a);
  }

  lemma {:induction false} WorkStepKeeps(s: Rows, now: Time, e: Event)
    requires Inv(s) && WorkEvent(e)
    ensures Inv(ApplyWork(s, now, e))
  {
    match e
    case Dequeue(a, key, queue, owner) => DequeueKeeps(s, now, a, key, queue, owner);
    case AgentReply(a, result) => AgentReplyKeeps(s, a, result);
    case SideEffect(a) => SideEffectKeeps(s, a);
    case TaskError(a, error, permanent) => TaskErrorKeeps(s, now, a, error, permanent);
    case Wake(a) => WakeKeeps(s, now, a);
  }

  lemma {:induction false} UpkeepStepKeeps(s: Rows, now: Time, e: Event)
    requires Inv(s) && UpkeepEvent(e)
    ensures Inv(ApplyUpkeep(s, now, e))
  {
    match e
    case ReclaimTasks => ReclaimTasksKeeps(s, now);
    case ReclaimRuns => ReclaimRunsKeeps(s, now);
    case Archive(a, maxAge, conflict) => RetentionKeeps(s, now, a, maxAge, conflict);
    case DeleteThread(a) => RetentionKeeps(s, now, a, 0, false);
    case PruneSignals(maxAge) => PruneSignalsKeeps(s, now, maxAge);
    case PruneTasks(maxAge) => PruneTasksKeeps(s, now, maxAge);
    case Crash(a) => DropKeeps(s, a);
    case Serials(taskIds, signalIds) => SerialsKeep(s, taskIds, signalIds);
  }

  lemma {:induction false} StepKeeps(s: Rows, now: Time, e: Event)
    requires Inv(s)
    ensures Inv(Apply(s, now, e))
  {
    var t;
    if GraphEvent(e) {
      GraphStepKeeps(s, now, e);
      t := ApplyGraph(s, now, e);
    } else if InsertEvent(e) {
      InsertStepKeeps(s, now, e);
      t := ApplyInsert(s, now, e);
    } else if RunnerEvent(e) {
      RunnerStepKeeps(s, now, e);
      t := ApplyRunner(s, now, e);
    } else if WorkEvent(e) {
      WorkStepKeeps(s, now, e);
      t := ApplyWork(s, now, e);
    } else {
      UpkeepStepKeeps(s, now, e);
      t := ApplyUpkeep(s, now, e);
    }
    assert t == Apply(s, now, e) && Inv(t);
  }

  /** The invariant holds after every run of committed steps. */
  lemma {:induction false} AlwaysInv(id: Id, steps: seq<Step>)
    ensures Inv(After(Fresh(id), steps))
  {
    if steps != [] {
      AlwaysInv(id, steps[..|steps| - 1]);
      var last := steps[|steps| - 1];
      StepKeeps(After(Fresh(id), steps[..|steps| - 1]), last.now, last.event);
    }
  }
}
