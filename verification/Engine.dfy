/** One ticket's rows in every table, the processes working on it, and the committed steps
    they take. Python code between two commits is an actor with a program counter; a crash
    drops the actor and nothing else. */
module Engine {
  import opened Wrappers
  import opened Models
  import opened TaskQueue
  import opened WorkflowRuns
  import opened Graph
  import opened SideEffects

  // ----- what a runner resumes with

  datatype ResumeValue = ResumeValue(payload: Resume, consumes: Option<nat>)

  // The stored outcome of an awaited task: `result IS NOT NULL OR status = 'failed'`.
  function TaskResume(q: Table, key: Key): Option<Resume> {
    if key !in q.rows then None
    else
      var row := q.rows[key];
      if row.status.Failed? then Some(TaskFailed(row.error, row.permanent))
      else if row.result.Some? then Some(Value(row.result.value))
      else None
  }

  function ResumeForRun(
    q: Table, signals: map<nat, Signal>, nextSignal: nat, envelope: Envelope, wakeupAt: Option<Time>)
    : Option<ResumeValue>
  {
    var timer := if wakeupAt.Some? then Some(ResumeValue(Timeout, None)) else None;
    if envelope.ApprovalEnvelope? then
      var oldest := OldestUnconsumed(signals, envelope.ticketId, 0, nextSignal);
      if oldest.Some? then Some(ResumeValue(Human(signals[oldest.value].payload), oldest)) else timer
    else
      var stored := TaskResume(q, envelope.key);
      if stored.Some? then Some(ResumeValue(stored.value, None)) else timer
  }

  // `_next_wakeup_at`: the timer of the interrupt it stopped on, else the state's own.
  function NextWakeup(cp: Checkpoint): Option<Time> {
    if cp.envelope.Some? then cp.envelope.value.Timer() else cp.st.wakeupAt
  }

  // ----- actors

  datatype Caller = Api | Runner(claimedAt: Time, signal: Option<nat>)

  datatype Actor =
    | Claimed(claimedAt: Time, status: Status, wakeupAt: Option<Time>)
    | Looked(claimedAt: Time, status: Status, wakeupAt: Option<Time>, envelope: Option<Envelope>)
    | Invoking(caller: Caller, resume: Option<Resume>)
    | Ran(caller: Caller, from: Checkpoint, inputs: seq<Resume>, redispatched: bool, stamp: Time)
    | Saving(claimedAt: Time, status: Status, wakeupAt: Option<Time>, signal: Option<nat>)
    | Listed
    | Creating(status: Status, wakeupAt: Option<Time>, byApi: bool)
    | Working(taskId: nat, payload: Payload)
    | Finalizing(taskId: nat, delivery: Delivery)
    | Waking
    | Deleting

  // History. No step reads it.
  datatype Log = Log(
    born: bool,                     // the ticket was created
    everRun: bool,                  // it has had a `workflow_run` row
    held: set<Status>,              // statuses its checkpoint has held
    resumed: nat,                   // resumes a node accepted
    accepted: seq<Decision>,        // decisions the API accepted, in order
    applied: seq<Decision>,         // decisions the graph applied, in order
    prompted: Option<DraftReply>,   // the draft put to the approver
    shown: seq<Option<DraftReply>>, // the thread's draft at each acceptance
    final: Option<Payload>)         // the finalize payload first dispatched

  datatype Rows = Rows(
    id: Id,
    tasks: Table,
    run: Option<Run>, archived: Option<Run>,
    signals: map<nat, Signal>, nextSignal: nat,
    cp: Option<Checkpoint>,
    fx: Effects,
    actors: map<nat, Actor>,
    log: Log)

  function Fresh(id: Id): Rows {
    Rows(id, EmptyTable, None, None, map[], 0, None, NoEffects, map[],
         Log(false, false, {}, 0, [], [], None, [], None))
  }

  datatype Event =
    | SeedTicket(a: nat, ticket: Ticket)
    | RunNode(a: nat)
    | Commit(a: nat)
    | InsertRun(a: nat)
    | ListOrphan(a: nat)
    | ReadOrphan(a: nat)
    | Claim(a: nat, owner: string)
    | Look(a: nat)
    | Choose(a: nat)
    | Save(a: nat)
    | Submit(decision: Decision)
    | Dequeue(a: nat, key: Key, queue: Queue, owner: string)
    | AgentReply(a: nat, result: TaskResult)
    | SideEffect(a: nat)
    | TaskError(a: nat, error: string, permanent: bool)
    | Wake(a: nat)
    | ReclaimTasks
    | ReclaimRuns
    | Archive(a: nat, maxAge: Time, conflict: bool)
    | DeleteThread(a: nat)
    | PruneSignals(maxAge: Time)
    | PruneTasks(maxAge: Time)
    | Crash(a: nat)
    | Serials(taskIds: nat, signalIds: nat)   // other tickets draw serial numbers

  predicate At(s: Rows, a: nat) { a in s.actors }

  function Set(s: Rows, a: nat, x: Actor): Rows { s.(actors := s.actors[a := x]) }

  function Drop(s: Rows, a: nat): Rows { s.(actors := s.actors - {a}) }

  // ----- graph invocations

  function DoSeed(s: Rows, a: nat, ticket: Ticket): Rows {
    if s.log.born || a in s.actors || ticket.id != s.id then s
    else Set(s.(cp := Some(Seed(ticket)), log := s.log.(born := true)), a, Invoking(Api, None))
  }

  // `ainvoke` returned with this checkpoint.
  function Returned(caller: Caller, cp: Checkpoint): Actor {
    match caller
    case Api => Creating(cp.st.status, cp.st.wakeupAt, true)
    case Runner(claimedAt, signal) => Saving(claimedAt, cp.st.status, NextWakeup(cp), signal)
  }

  function InputsOf(cp: Checkpoint, resume: Option<Resume>): seq<Resume> {
    cp.resumes + (if resume.Some? then [resume.value] else [])
  }

  // Run the latest checkpoint's node up to the commit of its queue transaction. A thread
  // that was deleted raises; a finished one returns at once.
  function DoRunNode(s: Rows, now: Time, a: nat): Rows {
    if !At(s, a) || !s.actors[a].Invoking? then s
    else if s.cp.None? then Drop(s, a)
    else
      var Invoking(caller, resume) := s.actors[a];
      var cp := s.cp.value;
      if cp.node.End? then Set(s, a, Returned(caller, cp))
      else
        var inputs := InputsOf(cp, resume);
        var txn := NodeTxn(cp, inputs);
        var final := if cp.node.Execute? && txn.Dispatch? && s.log.final.None? then Some(txn.payload) else s.log.final;
        Set(s.(tasks := ApplyTxn(s.tasks, now, txn), log := s.log.(final := final)),
            a, Ran(caller, cp, inputs, Redispatches(s.tasks, txn), now))
  }

  function CommitLog(log: Log, from: Checkpoint, inputs: seq<Resume>, to: Checkpoint): Log {
    var consumed := |inputs| > |from.resumes| && from.node.Interrupts();
    var human := from.node.AwaitApproval? && inputs != [] && inputs[0].Human?;
    log.(held := log.held + {to.st.status},
         resumed := log.resumed + (if consumed then 1 else 0),
         applied := log.applied + (if human then [inputs[0].decision] else []),
         prompted := if to.node.AwaitApproval? then to.st.draft else log.prompted)
  }

  // Write the checkpoint the node led to. It lands only on the checkpoint it ran from.
  function DoCommit(s: Rows, a: nat): Rows {
    if !At(s, a) || !s.actors[a].Ran? then s
    else
      var Ran(caller, from, inputs, redispatched, stamp) := s.actors[a];
      var outcome := NodeOutcome(from, inputs, redispatched, stamp);
      if s.cp != Some(from) || outcome.Raise? then Drop(s, a)
      else
        var to := outcome.cp;
        var next := if outcome.Park? || to.node.End? then Returned(caller, to) else Invoking(caller, None);
        Set(s.(cp := Some(to), log := CommitLog(s.log, from, inputs, to)), a, next)
  }

  // ----- run rows

  function DoInsertRun(s: Rows, now: Time, a: nat): Rows {
    if !At(s, a) || !s.actors[a].Creating? then s
    else
      var Creating(status, wakeupAt, _) := s.actors[a];
      var run := if s.run.Some? then s.run else Some(NewRun(now, status, wakeupAt));
      Drop(s.(run := run, log := s.log.(everRun := true)), a)
  }

  function DoListOrphan(s: Rows, a: nat): Rows {
    if a in s.actors || s.cp.None? || s.run.Some? then s else Set(s, a, Listed)
  }

  function DoReadOrphan(s: Rows, a: nat): Rows {
    if !At(s, a) || !s.actors[a].Listed? then s
    else if s.cp.None? || s.cp.value.node.Start? then Drop(s, a)
    else Set(s, a, Creating(s.cp.value.st.status, s.cp.value.st.wakeupAt, false))
  }

  function DoClaim(s: Rows, now: Time, a: nat, owner: string): Rows {
    if a in s.actors || s.run.None? || !Claimable(s.run.value, now) then s
    else Set(s.(run := Some(ClaimRow(s.run.value, now, owner))), a,
             Claimed(now, s.run.value.status, s.run.value.wakeupAt))
  }

  function DoLook(s: Rows, a: nat): Rows {
    if !At(s, a) || !s.actors[a].Claimed? then s
    else
      var Claimed(claimedAt, status, wakeupAt) := s.actors[a];
      Set(s, a, Looked(claimedAt, status, wakeupAt, if s.cp.Some? then s.cp.value.envelope else None))
  }

  function DoChoose(s: Rows, a: nat): Rows {
    if !At(s, a) || !s.actors[a].Looked? then s
    else
      var Looked(claimedAt, status, wakeupAt, envelope) := s.actors[a];
      var resume := if envelope.None? then None
                    else ResumeForRun(s.tasks, s.signals, s.nextSignal, envelope.value, wakeupAt);
      if resume.None? then Set(s, a, Saving(claimedAt, status, wakeupAt, None))
      else Set(s, a, Invoking(Runner(claimedAt, resume.value.consumes), Some(resume.value.payload)))
  }

  function DoSave(s: Rows, now: Time, a: nat): Rows {
    if !At(s, a) || !s.actors[a].Saving? then s
    else
      var Saving(_, status, wakeupAt, signal) := s.actors[a];
      var run := if s.run.Some? then Some(SaveRow(s.run.value, now, status, wakeupAt)) else None;
      var signals := if signal.Some? then Consume(s.signals, now, signal.value) else s.signals;
      Drop(s.(run := run, signals := signals), a)
  }

  // `add_pending_signal_if_waiting`
  predicate Accepts(s: Rows) {
    && s.run.Some? && s.run.value.status.AwaitingApproval?
    && forall id | id in s.signals :: !Unconsumed(s.signals, id, s.id)
  }

  function DraftInThread(cp: Option<Checkpoint>): Option<DraftReply> {
    if cp.Some? then cp.value.st.draft else None
  }

  function DoSubmit(s: Rows, now: Time, decision: Decision): Rows {
    if !Accepts(s) then s
    else s.(signals := s.signals[s.nextSignal := Signal(s.id, decision, false, None)],
            nextSignal := s.nextSignal + 1,
            run := Some(WakeRow(s.run.value, now)),
            log := s.log.(accepted := s.log.accepted + [decision], shown := s.log.shown + [DraftInThread(s.cp)]))
  }

  // ----- workers

  // What the worker of a leased row starts as.
  function LeasedActor(row: Task): Actor {
    if row.payload.FinalizePayload? then Finalizing(row.id, NewDelivery(row.payload, row.attempts))
    else Working(row.id, row.payload)
  }

  function DoDequeue(s: Rows, now: Time, a: nat, key: Key, queue: Queue, owner: string): Rows {
    if a in s.actors || key !in s.tasks.rows || !Due(s.tasks.rows[key], now, queue) then s
    else
      var row := LeaseRow(s.tasks.rows[key], now, owner);
      Set(s.(tasks := Lease(s.tasks, now, key, owner)), a, LeasedActor(row))
  }

  // `complete`, then wake the run if a leased row matched.
  function Finish(s: Rows, a: nat, taskId: nat, result: TaskResult): Rows {
    var s' := s.(tasks := Complete(s.tasks, taskId, result));
    if LeasedId(s.tasks, taskId) then Set(s', a, Waking) else Drop(s', a)
  }

  predicate Answers(result: TaskResult, payload: Payload) {
    match payload
    case ClassifyPayload(_) => result.Classified?
    case DraftPayload(_, _) => result.Drafted?
    case FinalizePayload(_, _, _) => result.Finalized?
  }

  function DoAgentReply(s: Rows, a: nat, result: TaskResult): Rows {
    if !At(s, a) || !s.actors[a].Working? || !Answers(result, s.actors[a].payload) then s
    else Finish(s, a, s.actors[a].taskId, result)
  }

  // `status == "failed"`: the leased row had no retry left.
  predicate FailsForGood(q: Table, id: nat, permanent: bool) {
    exists key :: key in q.rows && q.rows[key].id == id && q.rows[key].status.Leased?
                  && !(q.rows[key].attempts < q.rows[key].maxAttempts && !(q.rows[key].permanent || permanent))
  }

  function DoTaskError(s: Rows, now: Time, a: nat, error: string, permanent: bool): Rows {
    if !At(s, a) || !(s.actors[a].Working? || s.actors[a].Finalizing?) then s
    else
      var taskId := s.actors[a].taskId;
      var s' := s.(tasks := Fail(s.tasks, now, taskId, error, permanent));
      if FailsForGood(s.tasks, taskId, permanent) then Set(s', a, Waking) else Drop(s', a)
  }

  // One commit of `run_finalize`, or of the `complete` that follows it.
  function DoSideEffect(s: Rows, a: nat): Rows {
    if !At(s, a) || !s.actors[a].Finalizing? || !s.actors[a].delivery.payload.FinalizePayload? then s
    else
      var Finalizing(taskId, d) := s.actors[a];
      if d.progress.Recorded? then Finish(s, a, taskId, Finalized(ResultOf(d)))
      else
        var (fx, d') := Deliver(s.fx, d);
        Set(s.(fx := fx), a, Finalizing(taskId, d'))
  }

  function DoWake(s: Rows, now: Time, a: nat): Rows {
    if !At(s, a) || !s.actors[a].Waking? then s
    else Drop(s.(run := if s.run.Some? then Some(WakeRow(s.run.value, now)) else None), a)
  }

  // ----- janitor and retention

  function DoReclaimRuns(s: Rows, now: Time): Rows {
    s.(run := if s.run.Some? then Some(ReclaimRunRow(s.run.value, now)) else None)
  }

  // The move fails as a whole when any id it moves is archived already (`conflict`: another one's).
  function DoArchive(s: Rows, now: Time, a: nat, maxAge: Time, conflict: bool): Rows {
    if a in s.actors || s.run.None? || !Archivable(s.run.value, now, maxAge) || s.archived.Some? || conflict then s
    else Set(s.(run := None, archived := s.run), a, Deleting)
  }

  function DoDeleteThread(s: Rows, a: nat): Rows {
    if !At(s, a) || !s.actors[a].Deleting? then s else Drop(s.(cp := None), a)
  }

  function DoSerials(s: Rows, taskIds: nat, signalIds: nat): Rows {
    s.(tasks := s.tasks.(nextId := s.tasks.nextId + taskIds), nextSignal := s.nextSignal + signalIds)
  }

  // ----- one committed step, by what it is part of

  predicate GraphEvent(e: Event) {
    e.SeedTicket? || e.RunNode? || e.Commit?
  }

  predicate InsertEvent(e: Event) {
    e.InsertRun? || e.ListOrphan? || e.ReadOrphan? || e.Submit?
  }

  predicate RunnerEvent(e: Event) {
    e.Claim? || e.Look? || e.Choose? || e.Save?
  }

  predicate WorkEvent(e: Event) {
    e.Dequeue? || e.AgentReply? || e.SideEffect? || e.TaskError? || e.Wake?
  }

  predicate UpkeepEvent(e: Event) {
    !GraphEvent(e) && !InsertEvent(e) && !RunnerEvent(e) && !WorkEvent(e)
  }

  function ApplyGraph(s: Rows, now: Time, e: Event): Rows
    requires GraphEvent(e)
  {
    match e
    case SeedTicket(a, ticket) => DoSeed(s, a, ticket)
    case RunNode(a) => DoRunNode(s, now, a)
    case Commit(a) => DoCommit(s, a)
  }

  function ApplyInsert(s: Rows, now: Time, e: Event): Rows
    requires InsertEvent(e)
  {
    match e
    case InsertRun(a) => DoInsertRun(s, now, a)
    case ListOrphan(a) => DoListOrphan(s, a)
    case ReadOrphan(a) => DoReadOrphan(s, a)
    case Submit(decision) => DoSubmit(s, now, decision)
  }

  function ApplyRunner(s: Rows, now: Time, e: Event): Rows
    requires RunnerEvent(e)
  {
    match e
    case Claim(a, owner) => DoClaim(s, now, a, owner)
    case Look(a) => DoLook(s, a)
    case Choose(a) => DoChoose(s, a)
    case Save(a) => DoSave(s, now, a)
  }

  function ApplyWork(s: Rows, now: Time, e: Event): Rows
    requires WorkEvent(e)
  {
    match e
    case Dequeue(a, key, queue, owner) => DoDequeue(s, now, a, key, queue, owner)
    case AgentReply(a, result) => DoAgentReply(s, a, result)
    case SideEffect(a) => DoSideEffect(s, a)
    case TaskError(a, error, permanent) => DoTaskError(s, now, a, error, permanent)
    case Wake(a) => DoWake(s, now, a)
  }

  function ApplyUpkeep(s: Rows, now: Time, e: Event): Rows
    requires UpkeepEvent(e)
  {
    match e
    case ReclaimTasks => s.(tasks := ReclaimExpired(s.tasks, now))
    case ReclaimRuns => DoReclaimRuns(s, now)
    case Archive(a, maxAge, conflict) => DoArchive(s, now, a, maxAge, conflict)
    case DeleteThread(a) => DoDeleteThread(s, a)
    case PruneSignals(maxAge) => s.(signals := PruneConsumed(s.signals, now, maxAge))
    case PruneTasks(maxAge) => s.(tasks := PruneSettled(s.tasks, now, maxAge))
    case Crash(a) => Drop(s, a)
    case Serials(taskIds, signalIds) => DoSerials(s, taskIds, signalIds)
  }

  function Apply(s: Rows, now: Time, e: Event): Rows {
    if GraphEvent(e) then ApplyGraph(s, now, e)
    else if InsertEvent(e) then ApplyInsert(s, now, e)
    else if RunnerEvent(e) then ApplyRunner(s, now, e)
    else if WorkEvent(e) then ApplyWork(s, now, e)
    else ApplyUpkeep(s, now, e)
  }

  datatype Step = Step(now: Time, event: Event)

  // The rows after a run of committed steps.
  function After(s: Rows, steps: seq<Step>): Rows {
    if steps == [] then s
    else
      var before := After(s, steps[..|steps| - 1]);
      Apply(before, steps[|steps| - 1].now, steps[|steps| - 1].event)
  }
}
