/** What a step of the runner does to the tables, envelope by envelope. */
module Steps {
  import opened Wrappers
  import opened Models
  import opened TaskQueue
  import opened WorkflowRuns
  import opened Graph
  import opened Engine
  import opened Tables
  import opened Store
  import opened Invocations
  import opened Progress
  import opened Verdicts

  function EnvelopeAt(t: Contents, id: Id): Option<Envelope> {
    if id in t.threads then t.threads[id].envelope else None
  }

  function ResumeAt(t: Contents, id: Id, wakeupAt: Option<Time>): Option<ResumeValue> {
    var envelope := EnvelopeAt(t, id);
    if envelope.None? then None else ResumeForRun(t.tasks, t.signals, t.nextSignal, envelope.value, wakeupAt)
  }

  function ClaimOn(t: Contents, id: Id, worker: string, now: Time): Contents
    requires id in t.runs
  {
    t.(runs := t.runs[id := ClaimRow(t.runs[id], now, worker)])
  }

  function SaveOn(
    t: Contents, id: Id, now: Time, status: Status, wakeupAt: Option<Time>, consumed: Option<nat>): Contents {
    t.(runs := if id in t.runs then t.runs[id := SaveRow(t.runs[id], now, status, wakeupAt)] else t.runs,
       signals := if consumed.Some? then Consume(t.signals, now, consumed.value) else t.signals)
  }

  datatype Stepped = Stepped(tables: Contents, advanced: bool, nodes: nat)

  // The step, once the run is claimed. A graph that raises leaves the lease to run out.
  function AdvanceOn(t: Contents, id: Id, run: Run, clock: Clock): Stepped {
    var resume := ResumeAt(t, id, run.wakeupAt);
    if resume.None? then Stepped(SaveOn(t, id, clock(1), run.status, run.wakeupAt, None), false, 0)
    else FinishOn(Invoke(t, id, Some(resume.value.payload), clock, 0), id, resume.value.consumes, clock)
  }

  // Save what the graph returned.
  function FinishOn(r: Invoked, id: Id, consumed: Option<nat>, clock: Clock): Stepped {
    if r.out.None? then Stepped(r.tables, false, r.nodes)
    else
      var cp := r.out.value;
      Stepped(SaveOn(r.tables, id, clock(r.nodes + 1), cp.st.status, NextWakeup(cp), consumed), true, r.nodes)
  }

  // Claim the run and advance it.
  function StepOn(t: Contents, id: Id, worker: string, clock: Clock): Stepped
    requires id in t.runs
  {
    AdvanceOn(ClaimOn(t, id, worker, clock(0)), id, ClaimRow(t.runs[id], clock(0), worker), clock)
  }

  // ----- what a step finds, as its queries read the tables

  predicate FailedRow(q: Table, key: Key) {
    key in q.rows && q.rows[key].status.Failed?
  }

  predicate DoneRow(q: Table, key: Key, result: TaskResult) {
    key in q.rows && !q.rows[key].status.Failed? && q.rows[key].result == Some(result)
  }

  predicate NothingStored(q: Table, key: Key) {
    key !in q.rows || (!q.rows[key].status.Failed? && q.rows[key].result.None?)
  }

  // The thread is at an await of this stage, parked on this key.
  predicate Awaits(t: Contents, id: Id, node: Node, key: Key) {
    && id in t.threads && t.threads[id].node == node && t.threads[id].st.ticket.id == id
    && Early(t.threads[id].resumes)
    && (node.AwaitClassify? || (node.AwaitDraft? && t.threads[id].st.classification.Some?))
    && t.threads[id].st.decision.None?
    && t.threads[id].envelope.Some? && t.threads[id].envelope.value.TaskEnvelope?
    && t.threads[id].envelope.value.key == key
  }

  // The thread waits for an approver.
  predicate AwaitsApprover(t: Contents, id: Id) {
    && id in t.threads && t.threads[id].node.AwaitApproval? && t.threads[id].st.ticket.id == id
    && t.threads[id].resumes == []
    && t.threads[id].envelope.Some? && t.threads[id].envelope.value.ApprovalEnvelope?
    && t.threads[id].envelope.value.ticketId == id
    && (var st := t.threads[id].st;
        && st.classification.Some? && st.draft.Some? && st.wakeupAt.Some? && st.decision.None?
        && st.status.AwaitingApproval? && !GoesUnasked(st.draft.value))
  }

  // The thread waits for its finalize task.
  predicate AwaitsResult(t: Contents, id: Id, key: Key) {
    && id in t.threads && t.threads[id].node.Execute? && t.threads[id].st.ticket.id == id
    && t.threads[id].resumes == []
    && t.threads[id].envelope.Some? && t.threads[id].envelope.value.TerminalEnvelope?
    && t.threads[id].envelope.value.key == key
    && t.threads[id].st.classification.Some? && t.threads[id].st.draft.Some?
  }

  // The oldest decision nobody has consumed yet.
  predicate OldestDecision(t: Contents, id: Id, i: nat, d: Decision) {
    && i in t.signals && i < t.nextSignal
    && t.signals[i].workflowId == id && !t.signals[i].consumed && t.signals[i].payload == d
    && forall j :: j in t.signals && j < i && t.signals[j].workflowId == id ==> t.signals[j].consumed
  }

  predicate NoDecision(t: Contents, id: Id) {
    forall i :: i in t.signals && t.signals[i].workflowId == id ==> t.signals[i].consumed
  }

  // ----- what it leaves

  // The row of a task the step dispatched, unless the key was taken.
  predicate Queues(q: Table, r: Table, now: Time, key: Key, queue: Queue, payload: Payload) {
    && key in r.rows
    && r.rows[key] == if key in q.rows then q.rows[key]
                      else Task(r.rows[key].id, queue, payload, Pending, 0, 3, now, now, None, None, None, None, false)
  }

  // No other row of the queue changes.
  ghost predicate OnlyRows(q: Table, r: Table, keys: set<Key>) {
    forall key :: key !in keys ==>
        (key in r.rows <==> key in q.rows) && (key in q.rows ==> r.rows[key] == q.rows[key])
  }

  // The rows of a task and its fallback, which an await that has seen its timer looks at again.
  function Revisited(t: Contents, id: Id): set<Key>
    requires id in t.threads
  {
    var stage := if t.threads[id].node.AwaitClassify? then Classify else Draft;
    if t.threads[id].resumes == [] then {} else {Key(id, stage, false), Key(id, stage, true)}
  }

  // The run row is saved with this status and timer, its lease released.
  predicate Saves(t: Contents, u: Contents, id: Id, now: Time, status: Status, wakeupAt: Option<Time>)
    requires id in t.runs
  {
    u.runs == t.runs[id := Run(status, wakeupAt, None, None, t.runs[id].createdAt, now)]
  }

  // A graph that raised leaves the thread as it was and the run leased.
  predicate Raised(t: Contents, u: Contents, id: Id, worker: string, now: Time)
    requires id in t.runs
  {
    && u.threads == t.threads && u.signals == t.signals
    && u.runs == t.runs[id := t.runs[id].(leaseOwner := Some(worker), leaseExpiresAt := Some(now + 30),
                                          updatedAt := now)]
  }

  // Finalized with what the state is owed.
  ghost predicate Finalizes(t: Contents, u: Contents, id: Id, now: Time, saved: Time, st: State)
    requires id in t.runs && id in t.threads && st.classification.Some? && st.draft.Some?
  {
    var key := Key(id, Finalize, false);
    var owed := Owed(st.ticket, st.classification.value, st.draft.value, st.decision);
    && u.threads == t.threads[id := Checkpoint(Execute, st, [], Some(TerminalEnvelope(key, owed.result)))]
    && Saves(t, u, id, saved, st.status, None)
    && Queues(t.tasks, u.tasks, now, key, SideEffectQueue, owed)
    && OnlyRows(t.tasks, u.tasks, {key} + Revisited(t, id))
  }

  ghost predicate Classifies(t: Contents, u: Contents, id: Id, clock: Clock, c: Classification)
    requires id in t.runs && id in t.threads
  {
    var st := t.threads[id].st;
    var key, timer := Key(id, Draft, false), Some(clock(2) + 30);
    && u.threads == t.threads[id := Checkpoint(AwaitDraft, st.(classification := Some(c), status := Drafting,
                                                               wakeupAt := timer), [], Some(TaskEnvelope(key, timer)))]
    && Saves(t, u, id, clock(4), Drafting, timer) && u.signals == t.signals
    && Queues(t.tasks, u.tasks, clock(2), key, AgentQueue, DraftPayload(st.ticket, c))
    && OnlyRows(t.tasks, u.tasks, {key} + Revisited(t, id))
  }

  ghost predicate Asks(t: Contents, u: Contents, id: Id, clock: Clock, d: DraftReply)
    requires id in t.runs && id in t.threads
  {
    var timer := Some(clock(3) + 24 * 60 * 60);
    && u.threads == t.threads[id := Checkpoint(AwaitApproval,
                                               t.threads[id].st.(draft := Some(d), needsApproval := true,
                                                                 status := AwaitingApproval, wakeupAt := timer),
                                               [], Some(ApprovalEnvelope(id, timer, d)))]
    && Saves(t, u, id, clock(5), AwaitingApproval, timer) && u.signals == t.signals
    && OnlyRows(t.tasks, u.tasks, Revisited(t, id))
  }

  ghost predicate Drafts(t: Contents, u: Contents, id: Id, clock: Clock, d: DraftReply)
    requires id in t.runs && id in t.threads && t.threads[id].st.classification.Some?
  {
    if d.action.Refund? || d.confidence < 0.75 then Asks(t, u, id, clock, d)
    else
      && Finalizes(t, u, id, clock(3), clock(4),
                   t.threads[id].st.(draft := Some(d), needsApproval := false, status := Drafting, wakeupAt := None))
      && u.signals == t.signals
  }

  // What a ticket is finalized with when an agent could not do its part.
  const NoDraft := DraftReply(ESCALATION_REPLY, ReplyOnly(None), 0.0, "failed-agent")
  const NoClassification := Classification(General, 0.0, "failed-agent")

  ghost predicate Escalates(t: Contents, u: Contents, id: Id, clock: Clock)
    requires id in t.runs && id in t.threads
  {
    var st := t.threads[id].st;
    var c := if t.threads[id].node.AwaitDraft? && st.classification.Some? then st.classification.value
             else NoClassification;
    && Finalizes(t, u, id, clock(2), clock(3),
                 st.(classification := Some(c), draft := Some(NoDraft), needsApproval := false, status := Escalated,
                     wakeupAt := None))
    && u.signals == t.signals
  }

  // The first time its timer is due, an await turns a task nobody has taken over to the fallback queue and waits
  // for that; a task that has been taken it goes on waiting for, without a timer.
  ghost predicate TurnsOver(t: Contents, u: Contents, id: Id, clock: Clock, key: Key)
    requires id in t.runs && id in t.threads
  {
    var cp := t.threads[id];
    var fallback := Key(id, key.stage, true);
    && Saves(t, u, id, clock(2), cp.st.status, None) && u.signals == t.signals
    && (if key in t.tasks.rows && t.tasks.rows[key].status.Pending? then
          && u.threads == t.threads[id := cp.(resumes := [Timeout], envelope := Some(TaskEnvelope(fallback, None)))]
          && key in u.tasks.rows
          && u.tasks.rows[key] == t.tasks.rows[key].(status := Failed, error := Some("redispatched to fallback"),
                                                     permanent := true)
          && Queues(t.tasks, u.tasks, clock(1), fallback, FallbackQueue,
                    if key.stage.Classify? then ClassifyPayload(cp.st.ticket)
                    else if cp.st.classification.Some? then DraftPayload(cp.st.ticket, cp.st.classification.value)
                    else ClassifyPayload(cp.st.ticket))
          && OnlyRows(t.tasks, u.tasks, {key, fallback})
        else
          && u.threads == t.threads[id := cp.(resumes := [Timeout], envelope := Some(TaskEnvelope(key, None)))]
          && u.tasks == t.tasks)
  }

  ghost predicate Decides(t: Contents, u: Contents, id: Id, clock: Clock, i: nat, d: Decision)
    requires id in t.runs && AwaitsApprover(t, id) && i in t.signals
  {
    var st := t.threads[id].st;
    && Finalizes(t, u, id, clock(2), clock(3),
                 st.(decision := Some(d), status := if d.approved then AwaitingApproval else Rejected))
    && u.signals == t.signals[i := t.signals[i].(consumed := true, consumedAt := Some(clock(3)))]
  }

  ghost predicate GivesUp(t: Contents, u: Contents, id: Id, clock: Clock)
    requires id in t.runs && AwaitsApprover(t, id)
  {
    && Finalizes(t, u, id, clock(2), clock(3), t.threads[id].st.(status := Escalated)) && u.signals == t.signals
  }

  ghost predicate Ends(t: Contents, u: Contents, id: Id, clock: Clock, r: TicketResult)
    requires id in t.runs && id in t.threads
  {
    && u.threads == t.threads[id := Checkpoint(End, t.threads[id].st.(result := Some(r), status := r.status,
                                                                      refundExecuted := r.refundExecuted,
                                                                      wakeupAt := None), [], None)]
    && Saves(t, u, id, clock(2), r.status, None) && u.signals == t.signals
    && OnlyRows(t.tasks, u.tasks, {Key(id, Finalize, false)})
  }

  // Nothing to resume with: the lease is released and nothing else happens.
  predicate Waits(t: Contents, u: Contents, id: Id, clock: Clock)
    requires id in t.runs
  {
    && u == t.(runs := u.runs) && Saves(t, u, id, clock(1), t.runs[id].status, t.runs[id].wakeupAt)
  }

  // ----- what a step comes to

  // A step that has something to resume with.
  lemma {:induction false} StepResumes(t: Contents, id: Id, worker: string, clock: Clock, resume: ResumeValue)
    requires IsClaimable(t.runs, clock(0), id) && id in t.threads
    requires ResumeAt(t, id, t.runs[id].wakeupAt) == Some(resume)
    ensures var r := Invoke(ClaimOn(t, id, worker, clock(0)), id, Some(resume.payload), clock, 0);
            r.out.Some? ==>
              StepOn(t, id, worker, clock).tables
              == SaveOn(r.tables, id, clock(r.nodes + 1), r.out.value.st.status, NextWakeup(r.out.value),
                        resume.consumes)
  {
    var u := ClaimOn(t, id, worker, clock(0));
    assert ResumeAt(u, id, u.runs[id].wakeupAt) == ResumeAt(t, id, t.runs[id].wakeupAt);
  }

  // The run row is free, in this status and due from then on, if it has a timer.
  predicate RunShows(t: Contents, id: Id, status: Status, wakeupAt: Option<Time>) {
    id in t.runs && t.runs[id].status == status && t.runs[id].wakeupAt == wakeupAt && t.runs[id].leaseExpiresAt.None?
  }

  // ----- that it does

  lemma {:induction false} StepSaves(
    t: Contents, id: Id, worker: string, clock: Clock, resume: ResumeValue, w: Contents, cp: Checkpoint, n: nat)
    requires IsClaimable(t.runs, clock(0), id) && id in t.threads
    requires ResumeAt(t, id, t.runs[id].wakeupAt) == Some(resume)
    requires Invoke(ClaimOn(t, id, worker, clock(0)), id, Some(resume.payload), clock, 0) == Invoked(w, Some(cp), n)
    requires w.runs == ClaimOn(t, id, worker, clock(0)).runs
    ensures var u := StepOn(t, id, worker, clock).tables;
            && u == w.(runs := u.runs, signals := u.signals)
            && Saves(t, u, id, clock(n + 1), cp.st.status, NextWakeup(cp))
            && u.signals == if resume.consumes.Some? then Consume(w.signals, clock(n + 1), resume.consumes.value)
                            else w.signals
  {
    StepResumes(t, id, worker, clock, resume);
    SavedIs(t, id, worker, clock(0), w, clock(n + 1), cp, resume.consumes);
  }

  lemma {:induction false} SavedIs(
    t: Contents, id: Id, worker: string, claimed: Time, w: Contents, now: Time, cp: Checkpoint, consumed: Option<nat>)
    requires id in t.runs && w.runs == ClaimOn(t, id, worker, claimed).runs
    ensures var u := SaveOn(w, id, now, cp.st.status, NextWakeup(cp), consumed);
            && u == w.(runs := u.runs, signals := u.signals)
            && Saves(t, u, id, now, cp.st.status, NextWakeup(cp))
            && u.signals == if consumed.Some? then Consume(w.signals, now, consumed.value) else w.signals
  {
  }

  lemma {:induction false} StepRaises(
    t: Contents, id: Id, worker: string, clock: Clock, resume: ResumeValue, w: Contents, n: nat)
    requires IsClaimable(t.runs, clock(0), id) && id in t.threads
    requires ResumeAt(t, id, t.runs[id].wakeupAt) == Some(resume)
    requires Invoke(ClaimOn(t, id, worker, clock(0)), id, Some(resume.payload), clock, 0) == Invoked(w, None, n)
    ensures StepOn(t, id, worker, clock).tables == w
  {
    var u := ClaimOn(t, id, worker, clock(0));
    assert ResumeAt(u, id, u.runs[id].wakeupAt) == ResumeAt(t, id, t.runs[id].wakeupAt);
  }

  // Every task the thread can wait for is one key in its envelope.
  predicate OnKey(t: Contents, id: Id, key: Key) {
    && id in t.threads && t.threads[id].envelope.Some?
    && (var envelope := t.threads[id].envelope.value; !envelope.ApprovalEnvelope? && envelope.key == key)
  }

  lemma {:induction false} FindsDone(t: Contents, id: Id, key: Key, wakeupAt: Option<Time>, r: TaskResult)
    requires OnKey(t, id, key) && DoneRow(t.tasks, key, r)
    ensures ResumeAt(t, id, wakeupAt) == Some(ResumeValue(Value(r), None))
  {
  }

  lemma {:induction false} FindsFailed(t: Contents, id: Id, key: Key, wakeupAt: Option<Time>)
    requires OnKey(t, id, key) && FailedRow(t.tasks, key)
    ensures var row := t.tasks.rows[key];
            ResumeAt(t, id, wakeupAt) == Some(ResumeValue(TaskFailed(row.error, row.permanent), None))
  {
  }

  lemma {:induction false} FindsTimer(t: Contents, id: Id, key: Key, wakeupAt: Option<Time>)
    requires OnKey(t, id, key) && NothingStored(t.tasks, key)
    ensures ResumeAt(t, id, wakeupAt) == if wakeupAt.Some? then Some(ResumeValue(Timeout, None)) else None
  {
  }

  lemma {:induction false} FindsDecision(t: Contents, id: Id, wakeupAt: Option<Time>, i: nat, d: Decision)
    requires AwaitsApprover(t, id) && OldestDecision(t, id, i, d)
    ensures ResumeAt(t, id, wakeupAt) == Some(ResumeValue(Human(d), Some(i)))
  {
    var oldest := OldestUnconsumed(t.signals, id, 0, t.nextSignal);
    assert Unconsumed(t.signals, i, id);
    assert oldest.Some? && oldest.value <= i && Unconsumed(t.signals, oldest.value, id);
  }

  lemma {:induction false} FindsNoDecision(t: Contents, id: Id, wakeupAt: Option<Time>)
    requires AwaitsApprover(t, id) && NoDecision(t, id)
    ensures ResumeAt(t, id, wakeupAt) == if wakeupAt.Some? then Some(ResumeValue(Timeout, None)) else None
  {
  }

  // The redispatch an await tries again touches its own two rows alone.
  lemma {:induction false} RetriedElsewhere(
    t: Contents, id: Id, v: Contents, now: Time, own: Key, payload: Payload)
    requires id in t.threads && v.tasks == t.tasks && own.ticket == id && !own.fallback
    requires own.stage == if t.threads[id].node.AwaitClassify? then Classify else Draft
    ensures var u := Retried(v, now, own, payload, t.threads[id].resumes);
            u == v.(tasks := u.tasks) && OnlyRows(t.tasks, u.tasks, Revisited(t, id))
  {
    RedispatchElsewhere(v.tasks, now, own, payload);
  }

  lemma {:induction false} RedispatchElsewhere(q: Table, now: Time, own: Key, payload: Payload)
    requires !own.fallback
    ensures OnlyRows(q, ApplyTxn(q, now, Redispatch(own, payload)), {own, Key(own.ticket, own.stage, true)})
  {
  }

  lemma {:induction false} EnqueueQueues(
    q: Table, r: Table, now: Time, key: Key, queue: Queue, payload: Payload, keys: set<Key>)
    requires OnlyRows(q, r, keys) && key !in keys
    ensures var u := Enqueue(r, now, key, queue, payload);
            Queues(q, u, now, key, queue, payload) && OnlyRows(q, u, {key} + keys)
  {
    var u := Enqueue(r, now, key, queue, payload);
    assert (key in r.rows <==> key in q.rows) && (key in q.rows ==> r.rows[key] == q.rows[key]);
    forall k | k !in {key} + keys
      ensures (k in u.rows <==> k in q.rows) && (k in q.rows ==> u.rows[k] == q.rows[k])
    {
      assert k !in keys;
    }
  }

  // `execute` finalizes as owed from the four states it is reached in.
  lemma {:induction false} ExecutesAsOwed(st: State)
    requires st.classification.Some? && st.draft.Some?
    requires match st.status
             case Drafting => st.decision.None? && GoesUnasked(st.draft.value)
             case AwaitingApproval => st.decision.Some? && st.decision.value.approved
             case Rejected => st.decision.Some? && !st.decision.value.approved
             case Escalated => st.decision.None? && !GoesUnasked(st.draft.value)
             case _ => false
    ensures var owed := Owed(st.ticket, st.classification.value, st.draft.value, st.decision);
            FinalizeOf(st) == owed && ExpectedResult(st) == owed.result
  {
  }

  /** A classification, from whichever queue, reaches the thread and dispatches the draft. */
  lemma {:induction false} StepClassifies(
    t: Contents, id: Id, worker: string, clock: Clock, key: Key, c: Classification)
    requires IsClaimable(t.runs, clock(0), id) && Awaits(t, id, AwaitClassify, key)
    requires DoneRow(t.tasks, key, TaskResult.Classified(c))
    ensures Classifies(t, StepOn(t, id, worker, clock).tables, id, clock, c)
  {
    var cp := t.threads[id];
    var v := ClaimOn(t, id, worker, clock(0));
    FindsDone(t, id, key, t.runs[id].wakeupAt, TaskResult.Classified(c));
    var own, draft := Key(id, Classify, false), Key(id, Draft, false);
    var u := Retried(v, clock(1), own, ClassifyPayload(cp.st.ticket), cp.resumes);
    RetriedElsewhere(t, id, v, clock(1), own, ClassifyPayload(cp.st.ticket));
    ClassifiedInvoke(v, id, cp.st, cp.resumes, cp.envelope, c, clock);
    EnqueueQueues(t.tasks, u.tasks, clock(2), draft, AgentQueue, DraftPayload(cp.st.ticket, c), Revisited(t, id));
    var to := DraftingState(cp.st, c, clock(2) + 30);
    var next := Checkpoint(AwaitDraft, to, [], Some(TaskEnvelope(draft, to.wakeupAt)));
    StepSaves(t, id, worker, clock, ResumeValue(Value(TaskResult.Classified(c)), None),
              Progress.Moved(u, id, next).(tasks := Enqueue(u.tasks, clock(2), draft, AgentQueue,
                                                            DraftPayload(cp.st.ticket, c))), next, 3);
  }

  lemma {:induction false} StepAsks(t: Contents, id: Id, worker: string, clock: Clock, key: Key, d: DraftReply)
    requires IsClaimable(t.runs, clock(0), id) && Awaits(t, id, AwaitDraft, key)
    requires DoneRow(t.tasks, key, TaskResult.Drafted(d)) && (d.action.Refund? || d.confidence < 0.75)
    ensures Asks(t, StepOn(t, id, worker, clock).tables, id, clock, d)
  {
    var cp := t.threads[id];
    var v := ClaimOn(t, id, worker, clock(0));
    FindsDone(t, id, key, t.runs[id].wakeupAt, TaskResult.Drafted(d));
    var payload := DraftPayload(cp.st.ticket, cp.st.classification.value);
    var u := Retried(v, clock(1), Key(id, Draft, false), payload, cp.resumes);
    RetriedElsewhere(t, id, v, clock(1), Key(id, Draft, false), payload);
    DraftedInvoke(v, id, cp.st, cp.resumes, cp.envelope, d, clock);
    var to := ApprovalState(cp.st, d, clock(3) + 24 * 60 * 60);
    var next := Checkpoint(AwaitApproval, to, [], Some(ApprovalEnvelope(id, to.wakeupAt, d)));
    StepSaves(t, id, worker, clock, ResumeValue(Value(TaskResult.Drafted(d)), None), Progress.Moved(u, id, next), next,
              4);
  }

  // A step whose invocation parks on the finalize task it dispatched.
  lemma {:induction false} StepFinalizes(
    t: Contents, id: Id, worker: string, clock: Clock, resume: ResumeValue, u: Contents, st: State, n: nat)
    requires IsClaimable(t.runs, clock(0), id) && id in t.threads && st.ticket.id == id
    requires ResumeAt(t, id, t.runs[id].wakeupAt) == Some(resume)
    requires st.classification.Some? && st.draft.Some? && n > 0
    requires var v := ClaimOn(t, id, worker, clock(0)); u == v.(tasks := u.tasks)
    requires OnlyRows(t.tasks, u.tasks, Revisited(t, id))
    requires var owed := Owed(st.ticket, st.classification.value, st.draft.value, st.decision);
             FinalizeOf(st) == owed && ExpectedResult(st) == owed.result
    requires var key := Key(id, Finalize, false);
             var cp := Checkpoint(Execute, st, [], Some(TerminalEnvelope(key, ExpectedResult(st))));
             Invoke(ClaimOn(t, id, worker, clock(0)), id, Some(resume.payload), clock, 0)
             == Invoked(Progress.Moved(u, id, cp).(tasks := Enqueue(u.tasks, clock(n), key, SideEffectQueue,
                                                                    FinalizeOf(st))), Some(cp), n)
    ensures var w := StepOn(t, id, worker, clock).tables;
            && Finalizes(t, w, id, clock(n), clock(n + 1), st)
            && w.signals == if resume.consumes.Some? then Consume(t.signals, clock(n + 1), resume.consumes.value)
                            else t.signals
  {
    var key := Key(id, Finalize, false);
    var cp := Checkpoint(Execute, st, [], Some(TerminalEnvelope(key, ExpectedResult(st))));
    var q := Enqueue(u.tasks, clock(n), key, SideEffectQueue, FinalizeOf(st));
    EnqueueQueues(t.tasks, u.tasks, clock(n), key, SideEffectQueue, FinalizeOf(st), Revisited(t, id));
    StepSaves(t, id, worker, clock, resume, Progress.Moved(u, id, cp).(tasks := q), cp, n);
  }

  lemma {:induction false} StepGoesUnasked(t: Contents, id: Id, worker: string, clock: Clock, key: Key, d: DraftReply)
    requires IsClaimable(t.runs, clock(0), id) && Awaits(t, id, AwaitDraft, key)
    requires DoneRow(t.tasks, key, TaskResult.Drafted(d)) && !(d.action.Refund? || d.confidence < 0.75)
    ensures Drafts(t, StepOn(t, id, worker, clock).tables, id, clock, d)
  {
    var cp := t.threads[id];
    var v := ClaimOn(t, id, worker, clock(0));
    FindsDone(t, id, key, t.runs[id].wakeupAt, TaskResult.Drafted(d));
    var payload := DraftPayload(cp.st.ticket, cp.st.classification.value);
    var u := Retried(v, clock(1), Key(id, Draft, false), payload, cp.resumes);
    RetriedElsewhere(t, id, v, clock(1), Key(id, Draft, false), payload);
    UnaskedInvoke(v, id, cp.st, cp.resumes, cp.envelope, d, clock);
    var to := cp.st.(draft := Some(d), needsApproval := false, status := Drafting, wakeupAt := None);
    assert to == Progress.Drafted(cp.st, d).(needsApproval := false);
    ExecutesAsOwed(to);
    StepFinalizes(t, id, worker, clock, ResumeValue(Value(TaskResult.Drafted(d)), None), u, to, 3);
  }

  /** A draft, from whichever queue, goes to the approver exactly when it refunds or its confidence is
      below 0.75, and to finalization otherwise. */
  lemma {:induction false} StepDrafts(t: Contents, id: Id, worker: string, clock: Clock, key: Key, d: DraftReply)
    requires IsClaimable(t.runs, clock(0), id) && Awaits(t, id, AwaitDraft, key)
    requires DoneRow(t.tasks, key, TaskResult.Drafted(d))
    ensures Drafts(t, StepOn(t, id, worker, clock).tables, id, clock, d)
  {
    if d.action.Refund? || d.confidence < 0.75 {
      StepAsks(t, id, worker, clock, key, d);
    } else {
      StepGoesUnasked(t, id, worker, clock, key, d);
    }
  }

  /** A task that failed for good, with or without a timer, escalates the ticket. */
  lemma {:induction false} StepEscalates(t: Contents, id: Id, worker: string, clock: Clock, node: Node, key: Key)
    requires IsClaimable(t.runs, clock(0), id) && Awaits(t, id, node, key) && FailedRow(t.tasks, key)
    ensures Escalates(t, StepOn(t, id, worker, clock).tables, id, clock)
  {
    var cp := t.threads[id];
    var v := ClaimOn(t, id, worker, clock(0));
    var failure := TaskFailed(t.tasks.rows[key].error, t.tasks.rows[key].permanent);
    FindsFailed(t, id, key, t.runs[id].wakeupAt);
    var own, payload := StageKey(id, node), StagePayload(node, cp.st);
    var u := Retried(v, clock(1), own, payload, cp.resumes);
    RetriedElsewhere(t, id, v, clock(1), own, payload);
    if node.AwaitClassify? {
      FailedClassifyInvoke(v, id, cp.st, cp.resumes, cp.envelope, failure, clock);
    } else {
      FailedDraftInvoke(v, id, cp.st, cp.resumes, cp.envelope, failure, clock);
    }
    ExecutesAsOwed(Failing(cp.st, node));
    StepFinalizes(t, id, worker, clock, ResumeValue(failure, None), u, Failing(cp.st, node), 2);
  }

  /** The first timer turns a pending task over to the fallback queue. */
  lemma {:induction false} StepTurnsOver(t: Contents, id: Id, worker: string, clock: Clock, node: Node)
    requires IsClaimable(t.runs, clock(0), id) && t.runs[id].wakeupAt.Some?
    requires Awaits(t, id, node, StageKey(id, node)) && t.threads[id].resumes == []
    requires NothingStored(t.tasks, StageKey(id, node))
    ensures TurnsOver(t, StepOn(t, id, worker, clock).tables, id, clock, StageKey(id, node))
  {
    var cp, key := t.threads[id], StageKey(id, node);
    var v := ClaimOn(t, id, worker, clock(0));
    FindsTimer(t, id, key, t.runs[id].wakeupAt);
    TimedOutInvoke(v, id, node, cp.st, cp.envelope, clock);
    var active := if IsPending(t.tasks, key) then key.(fallback := true) else key;
    var next := Checkpoint(node, cp.st, [Timeout], Some(TaskEnvelope(active, None)));
    var q := ApplyTxn(t.tasks, clock(1), Redispatch(key, StagePayload(node, cp.st)));
    StepSaves(t, id, worker, clock, ResumeValue(Timeout, None), Progress.Moved(v, id, next).(tasks := q), next, 1);
    TurnedOver(t, StepOn(t, id, worker, clock).tables, id, clock, node);
  }

  lemma {:induction false} TurnedOver(t: Contents, u: Contents, id: Id, clock: Clock, node: Node)
    requires id in t.runs && Awaits(t, id, node, StageKey(id, node))
    requires Saves(t, u, id, clock(2), t.threads[id].st.status, None) && u.signals == t.signals
    requires var cp, key := t.threads[id], StageKey(id, node);
             var active := if IsPending(t.tasks, key) then key.(fallback := true) else key;
             && u.threads == t.threads[id := Checkpoint(node, cp.st, [Timeout], Some(TaskEnvelope(active, None)))]
             && u.tasks == ApplyTxn(t.tasks, clock(1), Redispatch(key, StagePayload(node, cp.st)))
    ensures TurnsOver(t, u, id, clock, StageKey(id, node))
  {
    RedispatchRows(t.tasks, clock(1), StageKey(id, node), StagePayload(node, t.threads[id].st));
  }

  lemma {:induction false} RedispatchRows(q: Table, now: Time, key: Key, payload: Payload)
    requires !key.fallback
    ensures var r := ApplyTxn(q, now, Redispatch(key, payload));
            if key in q.rows && q.rows[key].status.Pending? then
              && key in r.rows
              && r.rows[key] == q.rows[key].(status := Failed, error := Some("redispatched to fallback"),
                                             permanent := true)
              && Queues(q, r, now, Key(key.ticket, key.stage, true), FallbackQueue, payload)
              && OnlyRows(q, r, {key, Key(key.ticket, key.stage, true)})
            else r == q
  {
    RedispatchElsewhere(q, now, key, payload);
  }

  /** A redispatch whose checkpoint was lost in a crash is lost: the next step finds the cancelled task
      and escalates, though its fallback is queued. */
  lemma {:induction false} StepAfterLostRedispatch(
    t: Contents, id: Id, worker: string, clock: Clock, node: Node, payload: Payload, redispatched: Time, v: Contents)
    requires Awaits(t, id, node, StageKey(id, node)) && IsPending(t.tasks, StageKey(id, node))
    requires Key(id, StageKey(id, node).stage, true) !in t.tasks.rows
    requires v.threads == t.threads
    requires v.tasks == ApplyTxn(t.tasks, redispatched, Redispatch(StageKey(id, node), payload))
    requires IsClaimable(v.runs, clock(0), id)
    ensures Escalates(v, StepOn(v, id, worker, clock).tables, id, clock)
    ensures IsDue(v.tasks, redispatched, FallbackQueue, Key(id, StageKey(id, node).stage, true))
  {
    RedispatchRows(t.tasks, redispatched, StageKey(id, node), payload);
    StepEscalates(v, id, worker, clock, node, StageKey(id, node));
  }

  /** A second timer raises. */
  lemma {:induction false} StepRaisesOnTimer(t: Contents, id: Id, worker: string, clock: Clock, node: Node, key: Key)
    requires IsClaimable(t.runs, clock(0), id) && t.runs[id].wakeupAt.Some?
    requires Awaits(t, id, node, key) && t.threads[id].resumes == [Timeout] && NothingStored(t.tasks, key)
    ensures Raised(t, StepOn(t, id, worker, clock).tables, id, worker, clock(0))
  {
    var cp := t.threads[id];
    var v := ClaimOn(t, id, worker, clock(0));
    FindsTimer(t, id, key, t.runs[id].wakeupAt);
    TwiceTimedOutInvoke(v, id, node, cp.st, cp.envelope, clock);
    StepRaises(t, id, worker, clock, ResumeValue(Timeout, None),
               Retried(v, clock(1), StageKey(id, node), StagePayload(node, cp.st), [Timeout]), 1);
  }

  /** The oldest decision is applied and consumed. */
  lemma {:induction false} StepDecides(t: Contents, id: Id, worker: string, clock: Clock, i: nat, d: Decision)
    requires IsClaimable(t.runs, clock(0), id) && AwaitsApprover(t, id) && OldestDecision(t, id, i, d)
    ensures Decides(t, StepOn(t, id, worker, clock).tables, id, clock, i, d)
  {
    var cp := t.threads[id];
    var v := ClaimOn(t, id, worker, clock(0));
    FindsDecision(t, id, t.runs[id].wakeupAt, i, d);
    DecidedInvoke(v, id, cp.st, cp.envelope, Human(d), clock);
    ExecutesAsOwed(AfterDecision(cp.st, d));
    StepFinalizes(t, id, worker, clock, ResumeValue(Human(d), Some(i)), v, AfterDecision(cp.st, d), 2);
  }

  /** An approver who lets the timer run out escalates the ticket. */
  lemma {:induction false} StepGivesUp(t: Contents, id: Id, worker: string, clock: Clock)
    requires IsClaimable(t.runs, clock(0), id) && t.runs[id].wakeupAt.Some?
    requires AwaitsApprover(t, id) && NoDecision(t, id)
    ensures GivesUp(t, StepOn(t, id, worker, clock).tables, id, clock)
  {
    var cp := t.threads[id];
    var v := ClaimOn(t, id, worker, clock(0));
    FindsNoDecision(t, id, t.runs[id].wakeupAt);
    DecidedInvoke(v, id, cp.st, cp.envelope, Timeout, clock);
    ExecutesAsOwed(cp.st.(status := Escalated));
    StepFinalizes(t, id, worker, clock, ResumeValue(Timeout, None), v, cp.st.(status := Escalated), 2);
  }

  /** The finalize task's result ends the ticket. */
  lemma {:induction false} StepEnds(t: Contents, id: Id, worker: string, clock: Clock, key: Key, r: TicketResult)
    requires IsClaimable(t.runs, clock(0), id) && AwaitsResult(t, id, key)
    requires DoneRow(t.tasks, key, Finalized(r)) && r.ticketId == id
    ensures Ends(t, StepOn(t, id, worker, clock).tables, id, clock, r)
  {
    var cp := t.threads[id];
    var v := ClaimOn(t, id, worker, clock(0));
    FindsDone(t, id, key, t.runs[id].wakeupAt, Finalized(r));
    FinishedInvoke(v, id, cp.st, cp.envelope, Value(Finalized(r)), clock);
    var next := Reaching(End, AfterResult(cp.st, r));
    var q := Enqueue(t.tasks, clock(1), Key(id, Finalize, false), SideEffectQueue, FinalizeOf(cp.st));
    StepSaves(t, id, worker, clock, ResumeValue(Value(Finalized(r)), None),
              Progress.Moved(v, id, next).(tasks := q), next, 1);
  }

  // What `execute` cannot take for its result.
  ghost predicate Unusable(t: Contents, id: Id, key: Key)
    requires id in t.runs
  {
    || FailedRow(t.tasks, key)
    || (NothingStored(t.tasks, key) && t.runs[id].wakeupAt.Some?)
    || exists r :: DoneRow(t.tasks, key, r) && !(r.Finalized? && r.result.ticketId == id)
  }

  lemma {:induction false} FindsUnusable(t: Contents, id: Id, key: Key) returns (resume: Resume)
    requires id in t.runs && OnKey(t, id, key) && Unusable(t, id, key)
    ensures ResumeAt(t, id, t.runs[id].wakeupAt) == Some(ResumeValue(resume, None))
    ensures !(resume.Value? && resume.result.Finalized? && resume.result.result.ticketId == id)
  {
    if FailedRow(t.tasks, key) {
      FindsFailed(t, id, key, t.runs[id].wakeupAt);
      resume := TaskFailed(t.tasks.rows[key].error, t.tasks.rows[key].permanent);
    } else if NothingStored(t.tasks, key) {
      FindsTimer(t, id, key, t.runs[id].wakeupAt);
      resume := Timeout;
    } else {
      var r :| DoneRow(t.tasks, key, r) && !(r.Finalized? && r.result.ticketId == id);
      FindsDone(t, id, key, t.runs[id].wakeupAt, r);
      resume := Value(r);
    }
  }

  /** A finalize task that failed for good, a timer, or the result of another ticket raises. */
  lemma {:induction false} StepRaisesOnResult(t: Contents, id: Id, worker: string, clock: Clock, key: Key)
    requires IsClaimable(t.runs, clock(0), id) && AwaitsResult(t, id, key) && Unusable(t, id, key)
    ensures Raised(t, StepOn(t, id, worker, clock).tables, id, worker, clock(0))
  {
    var cp := t.threads[id];
    var v := ClaimOn(t, id, worker, clock(0));
    var resume := FindsUnusable(t, id, key);
    FinishedInvoke(v, id, cp.st, cp.envelope, resume, clock);
    StepRaises(t, id, worker, clock, ResumeValue(resume, None),
               v.(tasks := Enqueue(t.tasks, clock(1), Key(id, Finalize, false), SideEffectQueue, FinalizeOf(cp.st))),
               1);
  }

  // Nothing to resume with: no envelope, or nothing stored for it and no timer.
  ghost predicate NothingToDo(t: Contents, id: Id)
    requires id in t.runs
  {
    || id !in t.threads || t.threads[id].envelope.None?
    || (t.runs[id].wakeupAt.None?
        && ((AwaitsApprover(t, id) && NoDecision(t, id))
            || exists key :: OnKey(t, id, key) && NothingStored(t.tasks, key)))
  }

  /** With nothing to resume with a step only gives the lease back. */
  lemma {:induction false} StepWaits(t: Contents, id: Id, worker: string, clock: Clock)
    requires IsClaimable(t.runs, clock(0), id) && NothingToDo(t, id)
    ensures Waits(t, StepOn(t, id, worker, clock).tables, id, clock) && !StepOn(t, id, worker, clock).advanced
  {
    FindsNothing(t, id);
    var v := ClaimOn(t, id, worker, clock(0));
    assert ResumeAt(v, id, v.runs[id].wakeupAt) == ResumeAt(t, id, t.runs[id].wakeupAt);
  }

  lemma {:induction false} FindsNothing(t: Contents, id: Id)
    requires id in t.runs && NothingToDo(t, id)
    ensures ResumeAt(t, id, t.runs[id].wakeupAt).None?
  {
    if id in t.threads && t.threads[id].envelope.Some? {
      if AwaitsApprover(t, id) {
        FindsNoDecision(t, id, None);
      } else {
        var key :| OnKey(t, id, key) && NothingStored(t.tasks, key);
        FindsTimer(t, id, key, None);
      }
    }
  }

  // ----- all of it

  // The ledgers, the results, the archive and the serial of signals are no business of a step's.
  predicate Touches(t: Contents, u: Contents) {
    u == t.(tasks := u.tasks, runs := u.runs, signals := u.signals, threads := u.threads)
  }

  lemma {:induction false} StepTouches(t: Contents, id: Id, worker: string, clock: Clock)
    requires id in t.runs
    ensures Touches(t, StepOn(t, id, worker, clock).tables)
  {
    var v := ClaimOn(t, id, worker, clock(0));
    var resume := ResumeAt(v, id, v.runs[id].wakeupAt);
    if resume.Some? {
      InvokeTouches(v, id, Some(resume.value.payload), clock, 0);
    }
  }

  // What a step on this run makes of the tables, by what it finds stored for the envelope the thread is parked on.
  ghost predicate StepMeans(t: Contents, u: Contents, id: Id, worker: string, clock: Clock)
    requires id in t.runs
  {
    && Touches(t, u)
    && (forall key, c :: Awaits(t, id, AwaitClassify, key) && DoneRow(t.tasks, key, TaskResult.Classified(c)) ==>
          Classifies(t, u, id, clock, c))
    && (forall key, d :: Awaits(t, id, AwaitDraft, key) && DoneRow(t.tasks, key, TaskResult.Drafted(d)) ==>
          Drafts(t, u, id, clock, d))
    && (forall node, key :: Awaits(t, id, node, key) && FailedRow(t.tasks, key) ==> Escalates(t, u, id, clock))
    && (forall node, key :: Awaits(t, id, node, key) && NothingStored(t.tasks, key) && t.runs[id].wakeupAt.Some? ==>
          if t.threads[id].resumes != [] then Raised(t, u, id, worker, clock(0))
          else key == StageKey(id, node) ==> TurnsOver(t, u, id, clock, key))
    && (forall i, d :: AwaitsApprover(t, id) && OldestDecision(t, id, i, d) ==> Decides(t, u, id, clock, i, d))
    && (AwaitsApprover(t, id) && NoDecision(t, id) && t.runs[id].wakeupAt.Some? ==> GivesUp(t, u, id, clock))
    && (forall key, r :: AwaitsResult(t, id, key) && DoneRow(t.tasks, key, Finalized(r)) && r.ticketId == id ==>
          Ends(t, u, id, clock, r))
    && (forall key :: AwaitsResult(t, id, key) && Unusable(t, id, key) ==> Raised(t, u, id, worker, clock(0)))
    && (NothingToDo(t, id) ==> Waits(t, u, id, clock))
  }

  /** What a step does, whatever it finds. */
  lemma {:induction false} StepDoes(t: Contents, id: Id, worker: string, clock: Clock)
    requires IsClaimable(t.runs, clock(0), id)
    ensures StepMeans(t, StepOn(t, id, worker, clock).tables, id, worker, clock)
  {
    var u := StepOn(t, id, worker, clock).tables;
    forall key, c | Awaits(t, id, AwaitClassify, key) && DoneRow(t.tasks, key, TaskResult.Classified(c))
      ensures Classifies(t, u, id, clock, c)
    {
      StepClassifies(t, id, worker, clock, key, c);
    }
    forall key, d | Awaits(t, id, AwaitDraft, key) && DoneRow(t.tasks, key, TaskResult.Drafted(d))
      ensures Drafts(t, u, id, clock, d)
    {
      StepDrafts(t, id, worker, clock, key, d);
    }
    StepTouches(t, id, worker, clock);
    StepDoesAwaiting(t, id, worker, clock);
    StepDoesLater(t, id, worker, clock);
    if NothingToDo(t, id) {
      StepWaits(t, id, worker, clock);
    }
  }

  lemma {:induction false} StepDoesAwaiting(t: Contents, id: Id, worker: string, clock: Clock)
    requires IsClaimable(t.runs, clock(0), id)
    ensures var u := StepOn(t, id, worker, clock).tables;
            && (forall node, key :: Awaits(t, id, node, key) && FailedRow(t.tasks, key) ==> Escalates(t, u, id, clock))
            && (forall node, key ::
                  Awaits(t, id, node, key) && NothingStored(t.tasks, key) && t.runs[id].wakeupAt.Some? ==>
                    if t.threads[id].resumes != [] then Raised(t, u, id, worker, clock(0))
                    else key == StageKey(id, node) ==> TurnsOver(t, u, id, clock, key))
  {
    var u := StepOn(t, id, worker, clock).tables;
    forall node, key | Awaits(t, id, node, key) && FailedRow(t.tasks, key) ensures Escalates(t, u, id, clock) {
      StepEscalates(t, id, worker, clock, node, key);
    }
    forall node, key | Awaits(t, id, node, key) && NothingStored(t.tasks, key) && t.runs[id].wakeupAt.Some?
      ensures if t.threads[id].resumes != [] then Raised(t, u, id, worker, clock(0))
              else key == StageKey(id, node) ==> TurnsOver(t, u, id, clock, key)
    {
      if t.threads[id].resumes != [] {
        StepRaisesOnTimer(t, id, worker, clock, node, key);
      } else if key == StageKey(id, node) {
        StepTurnsOver(t, id, worker, clock, node);
      }
    }
  }

  lemma {:induction false} StepDoesLater(t: Contents, id: Id, worker: string, clock: Clock)
    requires IsClaimable(t.runs, clock(0), id)
    ensures var u := StepOn(t, id, worker, clock).tables;
            && (forall i, d :: AwaitsApprover(t, id) && OldestDecision(t, id, i, d) ==> Decides(t, u, id, clock, i, d))
            && (AwaitsApprover(t, id) && NoDecision(t, id) && t.runs[id].wakeupAt.Some? ==> GivesUp(t, u, id, clock))
            && (forall key, r :: AwaitsResult(t, id, key) && DoneRow(t.tasks, key, Finalized(r)) && r.ticketId == id ==>
                  Ends(t, u, id, clock, r))
            && (forall key :: AwaitsResult(t, id, key) && Unusable(t, id, key) ==> Raised(t, u, id, worker, clock(0)))
  {
    var u := StepOn(t, id, worker, clock).tables;
    forall i, d | AwaitsApprover(t, id) && OldestDecision(t, id, i, d) ensures Decides(t, u, id, clock, i, d) {
      StepDecides(t, id, worker, clock, i, d);
    }
    if AwaitsApprover(t, id) && NoDecision(t, id) && t.runs[id].wakeupAt.Some? {
      StepGivesUp(t, id, worker, clock);
    }
    forall key, r | AwaitsResult(t, id, key) && DoneRow(t.tasks, key, Finalized(r)) && r.ticketId == id
      ensures Ends(t, u, id, clock, r)
    {
      StepEnds(t, id, worker, clock, key, r);
    }
    forall key | AwaitsResult(t, id, key) && Unusable(t, id, key) ensures Raised(t, u, id, worker, clock(0)) {
      StepRaisesOnResult(t, id, worker, clock, key);
    }
  }
}
