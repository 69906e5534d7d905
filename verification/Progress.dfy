/** The ordinary way through the graph: where each resume takes a thread, and how it gets there. */
module Progress {
  import opened Wrappers
  import opened Models
  import opened TaskQueue
  import opened Graph
  import opened Engine
  import opened Tables
  import opened Invocations

  function Moved(t: Contents, id: Id, cp: Checkpoint): Contents {
    t.(threads := t.threads[id := cp])
  }

  lemma {:induction false} MovedTwice(t: Contents, id: Id, cp1: Checkpoint, cp2: Checkpoint)
    ensures Moved(Moved(t, id, cp1), id, cp2) == Moved(t, id, cp2)
  {
    assert t.threads[id := cp1][id := cp2] == t.threads[id := cp2];
  }

  // The thread is at this node, with these resumes recorded.
  predicate ParkedWith(
    t: Contents, id: Id, node: Node, st: State, resumes: seq<Resume>, envelope: Option<Envelope>)
  {
    id in t.threads && t.threads[id] == Checkpoint(node, st, resumes, envelope) && st.ticket.id == id
  }

  predicate ParkedAt(t: Contents, id: Id, node: Node, st: State, envelope: Option<Envelope>) {
    ParkedWith(t, id, node, st, [], envelope)
  }

  function Reaching(node: Node, st: State): Checkpoint { Checkpoint(node, st, [], None) }

  // An await that has seen its timer tries its redispatch again.
  function Retried(t: Contents, now: Time, key: Key, payload: Payload, resumes: seq<Resume>): Contents {
    if resumes == [] then t else t.(tasks := ApplyTxn(t.tasks, now, Redispatch(key, payload)))
  }

  // At most the timer has been recorded.
  predicate Early(resumes: seq<Resume>) { resumes == [] || resumes == [Timeout] }

  lemma {:induction false} EarlyInputs(cp: Checkpoint, resume: Resume)
    requires Early(cp.resumes) && !resume.Timeout?
    ensures var inputs := InputsOf(cp, Some(resume));
            && inputs == (if cp.resumes == [] then [resume] else [Timeout, resume])
            && inputs[|inputs| - 1] == resume && (inputs[0].Timeout? <==> cp.resumes != [])
  {
  }

  // ----- one node each

  // What an await makes of its answer.
  lemma {:induction false} AwaitReturns(
    key: Key, timer: Option<Time>, cp: Checkpoint, resume: Resume, redispatched: bool)
    requires Early(cp.resumes) && !resume.Timeout?
    ensures AwaitAgent(key, timer, InputsOf(cp, Some(resume)), redispatched) == Return(resume)
  {
    EarlyInputs(cp, resume);
  }

  lemma {:induction false} AwaitRetries(
    t: Contents, now: Time, key: Key, payload: Payload, cp: Checkpoint, resume: Resume)
    requires Early(cp.resumes) && !resume.Timeout?
    ensures t.(tasks := ApplyTxn(t.tasks, now, AwaitTxn(key, payload, InputsOf(cp, Some(resume)))))
            == Retried(t, now, key, payload, cp.resumes)
  {
    EarlyInputs(cp, resume);
  }

  lemma {:induction false} ClassifyReturns(
    t: Contents, id: Id, st: State, resumes: seq<Resume>, envelope: Option<Envelope>, resume: Resume, now: Time)
    requires ParkedWith(t, id, AwaitClassify, st, resumes, envelope) && Early(resumes) && !resume.Timeout?
    ensures var key := Key(id, Classify, false);
            var outcome := ClassifyOutcome(st, resume);
            var u := Retried(t, now, key, ClassifyPayload(st.ticket), resumes);
            NodeRun(t, id, Some(resume), now) == (if outcome.Raise? then u else Moved(u, id, outcome.cp), outcome)
  {
    var cp := t.threads[id];
    var key := Key(id, Classify, false);
    AwaitRetries(t, now, key, ClassifyPayload(st.ticket), cp, resume);
    var txn := NodeTxn(cp, InputsOf(cp, Some(resume)));
    AwaitReturns(key, st.wakeupAt, cp, resume, Redispatches(t.tasks, txn));
  }

  lemma {:induction false} DraftReturns(
    t: Contents, id: Id, st: State, resumes: seq<Resume>, envelope: Option<Envelope>, resume: Resume, now: Time)
    requires ParkedWith(t, id, AwaitDraft, st, resumes, envelope) && Early(resumes) && !resume.Timeout?
    requires st.classification.Some?
    ensures var key := Key(id, Draft, false);
            var outcome := DraftOutcome(st, resume);
            var u := Retried(t, now, key, DraftPayload(st.ticket, st.classification.value), resumes);
            NodeRun(t, id, Some(resume), now) == (if outcome.Raise? then u else Moved(u, id, outcome.cp), outcome)
  {
    var cp := t.threads[id];
    var key := Key(id, Draft, false);
    AwaitRetries(t, now, key, DraftPayload(st.ticket, st.classification.value), cp, resume);
    var txn := NodeTxn(cp, InputsOf(cp, Some(resume)));
    AwaitReturns(key, st.wakeupAt, cp, resume, Redispatches(t.tasks, txn));
  }

  function DraftTimer(st: State, timer: Time): State {
    st.(status := Drafting, wakeupAt := Some(timer))
  }

  lemma {:induction false} DraftDispatched(t: Contents, id: Id, st: State, now: Time)
    requires ParkedAt(t, id, DispatchDraft, st, None) && st.classification.Some?
    ensures var cp := Reaching(AwaitDraft, DraftTimer(st, now + SCHEDULE_TO_START));
            NodeRun(t, id, None, now)
            == (Moved(t, id, cp).(tasks := Enqueue(t.tasks, now, Key(id, Draft, false), AgentQueue,
                                                   DraftPayload(st.ticket, st.classification.value))),
                Outcome.Advance(cp))
  {
  }

  lemma {:induction false} DraftAwaited(t: Contents, id: Id, st: State, now: Time)
    requires ParkedAt(t, id, AwaitDraft, st, None) && st.classification.Some?
    ensures var cp := Reaching(AwaitDraft, st).(envelope := Some(TaskEnvelope(Key(id, Draft, false), st.wakeupAt)));
            NodeRun(t, id, None, now) == (Moved(t, id, cp), Park(cp))
  {
  }

  lemma {:induction false} ApprovalNeeded(t: Contents, id: Id, st: State, now: Time)
    requires ParkedAt(t, id, DecideApproval, st, None) && st.draft.Some?
    ensures var needs := NeedsApproval(st.draft.value);
            var cp := Reaching(if needs then PrepareApproval else Execute, st.(needsApproval := needs));
            NodeRun(t, id, None, now) == (Moved(t, id, cp), Outcome.Advance(cp))
  {
  }

  lemma {:induction false} ApprovalPrepared(t: Contents, id: Id, st: State, now: Time)
    requires ParkedAt(t, id, PrepareApproval, st, None)
    ensures var cp := Reaching(AwaitApproval,
                               st.(status := AwaitingApproval, wakeupAt := Some(now + APPROVAL_TIMEOUT)));
            NodeRun(t, id, None, now) == (Moved(t, id, cp), Outcome.Advance(cp))
  {
  }

  lemma {:induction false} ApprovalAwaited(t: Contents, id: Id, st: State, now: Time)
    requires ParkedAt(t, id, AwaitApproval, st, None) && st.draft.Some? && st.wakeupAt.Some?
    ensures var cp := Reaching(AwaitApproval, st).(envelope := Some(ApprovalEnvelope(id, st.wakeupAt, st.draft.value)));
            NodeRun(t, id, None, now) == (Moved(t, id, cp), Park(cp))
  {
  }

  function AfterDecision(st: State, decision: Decision): State {
    if decision.approved then st.(decision := Some(decision)) else st.(decision := Some(decision), status := Rejected)
  }

  // A decision, or the approver's time running out.
  function AfterApproval(st: State, resume: Resume): State
    requires resume.Human? || resume.Timeout?
  {
    if resume.Human? then AfterDecision(st, resume.decision) else st.(status := Escalated)
  }

  lemma {:induction false} Decided(
    t: Contents, id: Id, st: State, envelope: Option<Envelope>, resume: Resume, now: Time)
    requires ParkedAt(t, id, AwaitApproval, st, envelope) && st.draft.Some? && st.wakeupAt.Some?
    requires resume.Human? || resume.Timeout?
    ensures var cp := Reaching(Execute, AfterApproval(st, resume));
            NodeRun(t, id, Some(resume), now) == (Moved(t, id, cp), Outcome.Advance(cp))
  {
  }

  lemma {:induction false} Dispatched(t: Contents, id: Id, st: State, now: Time)
    requires ParkedAt(t, id, Execute, st, None) && st.draft.Some? && st.classification.Some?
    ensures var cp := Reaching(Execute,
                               st).(envelope := Some(TerminalEnvelope(Key(id, Finalize, false), ExpectedResult(st))));
            NodeRun(t, id, None, now)
            == (Moved(t, id, cp).(tasks := Enqueue(t.tasks, now, Key(id, Finalize, false), SideEffectQueue,
                                                   FinalizeOf(st))),
                Park(cp))
  {
  }

  // `execute` dispatches again, then takes its resume or raises.
  lemma {:induction false} ExecuteReturns(
    t: Contents, id: Id, st: State, envelope: Option<Envelope>, resume: Resume, now: Time)
    requires ParkedAt(t, id, Execute, st, envelope) && st.draft.Some? && st.classification.Some?
    ensures var u := t.(tasks := Enqueue(t.tasks, now, Key(id, Finalize, false), SideEffectQueue, FinalizeOf(st)));
            NodeRun(t, id, Some(resume), now)
            == if resume.Value? && resume.result.Finalized? && resume.result.result.ticketId == id then
                 var cp := Reaching(End, AfterResult(st, resume.result.result)); (Moved(u, id, cp), Outcome.Advance(cp))
               else (u, Raise)
  {
  }

  function AfterResult(st: State, result: TicketResult): State {
    st.(result := Some(result), status := result.status, refundExecuted := result.refundExecuted, wakeupAt := None)
  }

  // ----- one invocation each

  lemma {:induction false} Goes(
    t: Contents, id: Id, resume: Option<Resume>, clock: Clock, n: nat, u: Contents, cp: Checkpoint)
    requires id in t.threads && !t.threads[id].node.End? && !cp.node.End?
    requires NodeRun(t, id, resume, clock(n + 1)) == (u, Outcome.Advance(cp))
    ensures id in u.threads && Invoke(t, id, resume, clock, n) == Invoke(u, id, None, clock, n + 1)
  {
  }

  lemma {:induction false} Stops(
    t: Contents, id: Id, resume: Option<Resume>, clock: Clock, n: nat, u: Contents, outcome: Outcome)
    requires id in t.threads && !t.threads[id].node.End?
    requires NodeRun(t, id, resume, clock(n + 1)) == (u, outcome)
    requires outcome.Advance? ==> outcome.cp.node.End?
    ensures Invoke(t, id, resume, clock, n) == Invoked(u, if outcome.Raise? then None else Some(outcome.cp), n + 1)
  {
  }

  // Dispatch the draft task and park on it.
  lemma {:induction false} DraftInvoke(t: Contents, id: Id, st: State, clock: Clock)
    requires ParkedAt(t, id, DispatchDraft, st, None) && st.classification.Some?
    ensures var to := DraftTimer(st, clock(2) + SCHEDULE_TO_START);
            var key := Key(id, Draft, false);
            var cp := Reaching(AwaitDraft, to).(envelope := Some(TaskEnvelope(key, to.wakeupAt)));
            Invoke(t, id, None, clock, 1)
            == Invoked(Moved(t, id, cp).(tasks := Enqueue(t.tasks, clock(2), key, AgentQueue,
                                                          DraftPayload(st.ticket, st.classification.value))),
                       Some(cp), 3)
  {
    var key := Key(id, Draft, false);
    var to := DraftTimer(st, clock(2) + SCHEDULE_TO_START);
    var q := Enqueue(t.tasks, clock(2), key, AgentQueue, DraftPayload(st.ticket, st.classification.value));
    var u := Moved(t, id, Reaching(AwaitDraft, to)).(tasks := q);
    var cp := Reaching(AwaitDraft, to).(envelope := Some(TaskEnvelope(key, to.wakeupAt)));
    DraftDispatched(t, id, st, clock(2));
    Goes(t, id, None, clock, 1, u, Reaching(AwaitDraft, to));
    DraftAwaited(u, id, to, clock(3));
    Stops(u, id, None, clock, 2, Moved(u, id, cp), Park(cp));
    assert Moved(u, id, cp).threads == t.threads[id := cp];
  }

  function Classified(st: State, c: Classification): State {
    st.(classification := Some(c), status := Classifying, wakeupAt := None)
  }

  lemma {:induction false} ClassifyGoes(
    t: Contents, id: Id, st: State, resumes: seq<Resume>, envelope: Option<Envelope>, c: Classification, clock: Clock)
    requires ParkedWith(t, id, AwaitClassify, st, resumes, envelope) && Early(resumes)
    ensures var u := Retried(t, clock(1), Key(id, Classify, false), ClassifyPayload(st.ticket), resumes);
            var v := Moved(u, id, Reaching(DispatchDraft, Classified(st, c)));
            Invoke(t, id, Some(Value(TaskResult.Classified(c))), clock, 0) == Invoke(v, id, None, clock, 1)
  {
    var u := Retried(t, clock(1), Key(id, Classify, false), ClassifyPayload(st.ticket), resumes);
    var cp := Reaching(DispatchDraft, Classified(st, c));
    ClassifyReturns(t, id, st, resumes, envelope, Value(TaskResult.Classified(c)), clock(1));
    Goes(t, id, Some(Value(TaskResult.Classified(c))), clock, 0, Moved(u, id, cp), cp);
  }

  // Where a classification leaves the thread: at a queued draft task, with its timer.
  function DraftingState(st: State, c: Classification, timer: Time): State {
    st.(classification := Some(c), status := Drafting, wakeupAt := Some(timer))
  }

  lemma {:induction false} ClassifiedInvoke(
    t: Contents, id: Id, st: State, resumes: seq<Resume>, envelope: Option<Envelope>, c: Classification, clock: Clock)
    requires ParkedWith(t, id, AwaitClassify, st, resumes, envelope) && Early(resumes)
    ensures var u := Retried(t, clock(1), Key(id, Classify, false), ClassifyPayload(st.ticket), resumes);
            var key := Key(id, Draft, false);
            var to := DraftingState(st, c, clock(2) + SCHEDULE_TO_START);
            var cp := Checkpoint(AwaitDraft, to, [], Some(TaskEnvelope(key, to.wakeupAt)));
            Invoke(t, id, Some(Value(TaskResult.Classified(c))), clock, 0)
            == Invoked(Moved(u, id, cp).(tasks := Enqueue(u.tasks, clock(2), key, AgentQueue,
                                                          DraftPayload(st.ticket, c))),
                       Some(cp), 3)
  {
    var u := Retried(t, clock(1), Key(id, Classify, false), ClassifyPayload(st.ticket), resumes);
    var st1 := Classified(st, c);
    var to := DraftTimer(st1, clock(2) + SCHEDULE_TO_START);
    ClassifyGoes(t, id, st, resumes, envelope, c, clock);
    DraftInvoke(Moved(u, id, Reaching(DispatchDraft, st1)), id, st1, clock);
    assert to == DraftingState(st, c, clock(2) + SCHEDULE_TO_START);
    MovedTwice(u, id, Reaching(DispatchDraft, st1),
               Reaching(AwaitDraft, to).(envelope := Some(TaskEnvelope(Key(id, Draft, false), to.wakeupAt))));
  }

  function ApprovalState(st: State, d: DraftReply, timer: Time): State {
    st.(draft := Some(d), needsApproval := true, status := AwaitingApproval, wakeupAt := Some(timer))
  }

  // From the approval decision to the approver.
  lemma {:induction false} ApprovalInvoke(t: Contents, id: Id, st: State, clock: Clock)
    requires ParkedAt(t, id, DecideApproval, st, None) && st.draft.Some? && NeedsApproval(st.draft.value)
    ensures var to := st.(needsApproval := true, status := AwaitingApproval,
                          wakeupAt := Some(clock(3) + APPROVAL_TIMEOUT));
            var cp := Reaching(AwaitApproval, to).(
                        envelope := Some(ApprovalEnvelope(id, to.wakeupAt, st.draft.value)));
            Invoke(t, id, None, clock, 1) == Invoked(Moved(t, id, cp), Some(cp), 4)
  {
    var st2 := st.(needsApproval := true);
    var st3 := st2.(status := AwaitingApproval, wakeupAt := Some(clock(3) + APPROVAL_TIMEOUT));
    var t2 := Moved(t, id, Reaching(PrepareApproval, st2));
    var t3 := Moved(t2, id, Reaching(AwaitApproval, st3));
    var cp := Reaching(AwaitApproval, st3).(envelope := Some(ApprovalEnvelope(id, st3.wakeupAt, st.draft.value)));
    ApprovalNeeded(t, id, st, clock(2));
    Goes(t, id, None, clock, 1, t2, Reaching(PrepareApproval, st2));
    ApprovalPrepared(t2, id, st2, clock(3));
    Goes(t2, id, None, clock, 2, t3, Reaching(AwaitApproval, st3));
    ApprovalAwaited(t3, id, st3, clock(4));
    Stops(t3, id, None, clock, 3, Moved(t3, id, cp), Park(cp));
    assert Moved(t3, id, cp).threads == t.threads[id := cp];
  }

  function Drafted(st: State, d: DraftReply): State {
    st.(draft := Some(d), status := Drafting, wakeupAt := None)
  }

  lemma {:induction false} DraftGoes(
    t: Contents, id: Id, st: State, resumes: seq<Resume>, envelope: Option<Envelope>, d: DraftReply, clock: Clock)
    requires ParkedWith(t, id, AwaitDraft, st, resumes, envelope) && Early(resumes) && st.classification.Some?
    ensures var payload := DraftPayload(st.ticket, st.classification.value);
            var u := Retried(t, clock(1), Key(id, Draft, false), payload, resumes);
            var v := Moved(u, id, Reaching(DecideApproval, Drafted(st, d)));
            Invoke(t, id, Some(Value(TaskResult.Drafted(d))), clock, 0) == Invoke(v, id, None, clock, 1)
  {
    var payload := DraftPayload(st.ticket, st.classification.value);
    var u := Retried(t, clock(1), Key(id, Draft, false), payload, resumes);
    var cp := Reaching(DecideApproval, Drafted(st, d));
    DraftReturns(t, id, st, resumes, envelope, Value(TaskResult.Drafted(d)), clock(1));
    Goes(t, id, Some(Value(TaskResult.Drafted(d))), clock, 0, Moved(u, id, cp), cp);
  }

  // A draft that needs approval takes it to the approver, with the approval timer.
  lemma {:induction false} DraftedInvoke(
    t: Contents, id: Id, st: State, resumes: seq<Resume>, envelope: Option<Envelope>, d: DraftReply, clock: Clock)
    requires ParkedWith(t, id, AwaitDraft, st, resumes, envelope) && Early(resumes) && st.classification.Some?
    requires NeedsApproval(d)
    ensures var payload := DraftPayload(st.ticket, st.classification.value);
            var u := Retried(t, clock(1), Key(id, Draft, false), payload, resumes);
            var to := ApprovalState(st, d, clock(3) + APPROVAL_TIMEOUT);
            var cp := Checkpoint(AwaitApproval, to, [], Some(ApprovalEnvelope(id, to.wakeupAt, d)));
            Invoke(t, id, Some(Value(TaskResult.Drafted(d))), clock, 0) == Invoked(Moved(u, id, cp), Some(cp), 4)
  {
    var payload := DraftPayload(st.ticket, st.classification.value);
    var u := Retried(t, clock(1), Key(id, Draft, false), payload, resumes);
    var st1 := Drafted(st, d);
    var t1 := Moved(u, id, Reaching(DecideApproval, st1));
    var to := ApprovalState(st, d, clock(3) + APPROVAL_TIMEOUT);
    var cp := Reaching(AwaitApproval, to).(envelope := Some(ApprovalEnvelope(id, to.wakeupAt, d)));
    DraftGoes(t, id, st, resumes, envelope, d, clock);
    ApprovalInvoke(t1, id, st1, clock);
    assert to == st1.(needsApproval := true, status := AwaitingApproval, wakeupAt := to.wakeupAt);
    MovedTwice(u, id, t1.threads[id], cp);
  }

  // Dispatch the finalize task and park on it.
  lemma {:induction false} ExecuteInvoke(t: Contents, id: Id, st: State, clock: Clock, n: nat)
    requires ParkedAt(t, id, Execute, st, None) && st.draft.Some? && st.classification.Some?
    ensures var key := Key(id, Finalize, false);
            var cp := Checkpoint(Execute, st, [], Some(TerminalEnvelope(key, ExpectedResult(st))));
            Invoke(t, id, None, clock, n)
            == Invoked(Moved(t, id, cp).(tasks := Enqueue(t.tasks, clock(n + 1), key, SideEffectQueue, FinalizeOf(st))),
                       Some(cp), n + 1)
  {
    var key := Key(id, Finalize, false);
    var cp := Reaching(Execute, st).(envelope := Some(TerminalEnvelope(key, ExpectedResult(st))));
    var q := Enqueue(t.tasks, clock(n + 1), key, SideEffectQueue, FinalizeOf(st));
    Dispatched(t, id, st, clock(n + 1));
    Stops(t, id, None, clock, n, Moved(t, id, cp).(tasks := q), Park(cp));
  }

  // From any node run that leads to `execute`, to the queued finalize task.
  lemma {:induction false} ThenExecute(
    t: Contents, id: Id, resume: Option<Resume>, clock: Clock, n: nat, u: Contents, st: State)
    requires id in t.threads && !t.threads[id].node.End? && st.ticket.id == id
    requires NodeRun(t, id, resume, clock(n + 1))
             == (Moved(u, id, Reaching(Execute, st)), Outcome.Advance(Reaching(Execute, st)))
    requires st.draft.Some? && st.classification.Some?
    ensures var key := Key(id, Finalize, false);
            var cp := Checkpoint(Execute, st, [], Some(TerminalEnvelope(key, ExpectedResult(st))));
            Invoke(t, id, resume, clock, n)
            == Invoked(Moved(u, id, cp).(tasks := Enqueue(u.tasks, clock(n + 2), key, SideEffectQueue, FinalizeOf(st))),
                       Some(cp), n + 2)
  {
    var v := Moved(u, id, Reaching(Execute, st));
    Goes(t, id, resume, clock, n, v, Reaching(Execute, st));
    ExecuteInvoke(v, id, st, clock, n + 1);
    MovedTwice(u, id, Reaching(Execute, st),
               Checkpoint(Execute, st, [], Some(TerminalEnvelope(Key(id, Finalize, false), ExpectedResult(st)))));
  }

  // From the approval decision to the queued finalize task.
  lemma {:induction false} GoesUnaskedInvoke(t: Contents, id: Id, st: State, clock: Clock)
    requires ParkedAt(t, id, DecideApproval, st, None) && st.classification.Some?
    requires st.draft.Some? && !NeedsApproval(st.draft.value)
    ensures var to := st.(needsApproval := false);
            var key := Key(id, Finalize, false);
            var cp := Checkpoint(Execute, to, [], Some(TerminalEnvelope(key, ExpectedResult(to))));
            Invoke(t, id, None, clock, 1)
            == Invoked(Moved(t, id, cp).(tasks := Enqueue(t.tasks, clock(3), key, SideEffectQueue, FinalizeOf(to))),
                       Some(cp), 3)
  {
    ApprovalNeeded(t, id, st, clock(2));
    ThenExecute(t, id, None, clock, 1, t, st.(needsApproval := false));
  }

  // A draft that may go out unseen takes it to a queued finalize task.
  lemma {:induction false} UnaskedInvoke(
    t: Contents, id: Id, st: State, resumes: seq<Resume>, envelope: Option<Envelope>, d: DraftReply, clock: Clock)
    requires ParkedWith(t, id, AwaitDraft, st, resumes, envelope) && Early(resumes) && st.classification.Some?
    requires !NeedsApproval(d)
    ensures var payload := DraftPayload(st.ticket, st.classification.value);
            var u := Retried(t, clock(1), Key(id, Draft, false), payload, resumes);
            var to := Drafted(st, d).(needsApproval := false);
            var key := Key(id, Finalize, false);
            var cp := Checkpoint(Execute, to, [], Some(TerminalEnvelope(key, ExpectedResult(to))));
            Invoke(t, id, Some(Value(TaskResult.Drafted(d))), clock, 0)
            == Invoked(Moved(u, id, cp).(tasks := Enqueue(u.tasks, clock(3), key, SideEffectQueue, FinalizeOf(to))),
                       Some(cp), 3)
  {
    var payload := DraftPayload(st.ticket, st.classification.value);
    var u := Retried(t, clock(1), Key(id, Draft, false), payload, resumes);
    var st1 := Drafted(st, d);
    var to := st1.(needsApproval := false);
    var t1 := Moved(u, id, Reaching(DecideApproval, st1));
    DraftGoes(t, id, st, resumes, envelope, d, clock);
    GoesUnaskedInvoke(t1, id, st1, clock);
    MovedTwice(u, id, Reaching(DecideApproval, st1),
               Checkpoint(Execute, to, [], Some(TerminalEnvelope(Key(id, Finalize, false), ExpectedResult(to)))));
  }

  // A decision, or none in time, takes it to a queued finalize task; an approval leaves the status as it was.
  lemma {:induction false} DecidedInvoke(
    t: Contents, id: Id, st: State, envelope: Option<Envelope>, resume: Resume, clock: Clock)
    requires ParkedAt(t, id, AwaitApproval, st, envelope) && st.draft.Some? && st.classification.Some?
    requires st.wakeupAt.Some? && (resume.Human? || resume.Timeout?)
    ensures var to := AfterApproval(st, resume);
            var key := Key(id, Finalize, false);
            var cp := Checkpoint(Execute, to, [], Some(TerminalEnvelope(key, ExpectedResult(to))));
            Invoke(t, id, Some(resume), clock, 0)
            == Invoked(Moved(t, id, cp).(tasks := Enqueue(t.tasks, clock(2), key, SideEffectQueue, FinalizeOf(to))),
                       Some(cp), 2)
  {
    Decided(t, id, st, envelope, resume, clock(1));
    ThenExecute(t, id, Some(resume), clock, 0, t, AfterApproval(st, resume));
  }

  // What a failed agent task leaves.
  function Failing(st: State, node: Node): State {
    st.(classification := if node.AwaitClassify? then Some(FailureClassification()) else st.classification,
        draft := Some(FailureDraft()), needsApproval := false, status := Escalated, wakeupAt := None)
  }

  lemma {:induction false} FailedClassifyInvoke(
    t: Contents, id: Id, st: State, resumes: seq<Resume>, envelope: Option<Envelope>, failure: Resume, clock: Clock)
    requires ParkedWith(t, id, AwaitClassify, st, resumes, envelope) && Early(resumes) && failure.TaskFailed?
    ensures var u := Retried(t, clock(1), Key(id, Classify, false), ClassifyPayload(st.ticket), resumes);
            var to := Failing(st, AwaitClassify);
            var key := Key(id, Finalize, false);
            var cp := Checkpoint(Execute, to, [], Some(TerminalEnvelope(key, ExpectedResult(to))));
            Invoke(t, id, Some(failure), clock, 0)
            == Invoked(Moved(u, id, cp).(tasks := Enqueue(u.tasks, clock(2), key, SideEffectQueue, FinalizeOf(to))),
                       Some(cp), 2)
  {
    var u := Retried(t, clock(1), Key(id, Classify, false), ClassifyPayload(st.ticket), resumes);
    ClassifyReturns(t, id, st, resumes, envelope, failure, clock(1));
    ThenExecute(t, id, Some(failure), clock, 0, u, Failing(st, AwaitClassify));
  }

  lemma {:induction false} FailedDraftInvoke(
    t: Contents, id: Id, st: State, resumes: seq<Resume>, envelope: Option<Envelope>, failure: Resume, clock: Clock)
    requires ParkedWith(t, id, AwaitDraft, st, resumes, envelope) && Early(resumes) && failure.TaskFailed?
    requires st.classification.Some?
    ensures var payload := DraftPayload(st.ticket, st.classification.value);
            var u := Retried(t, clock(1), Key(id, Draft, false), payload, resumes);
            var to := Failing(st, AwaitDraft);
            var key := Key(id, Finalize, false);
            var cp := Checkpoint(Execute, to, [], Some(TerminalEnvelope(key, ExpectedResult(to))));
            Invoke(t, id, Some(failure), clock, 0)
            == Invoked(Moved(u, id, cp).(tasks := Enqueue(u.tasks, clock(2), key, SideEffectQueue, FinalizeOf(to))),
                       Some(cp), 2)
  {
    var payload := DraftPayload(st.ticket, st.classification.value);
    var u := Retried(t, clock(1), Key(id, Draft, false), payload, resumes);
    DraftReturns(t, id, st, resumes, envelope, failure, clock(1));
    ThenExecute(t, id, Some(failure), clock, 0, u, Failing(st, AwaitDraft));
  }

  // The key and payload of the task a state waits for at this node.
  function StageKey(id: Id, node: Node): Key { Key(id, if node.AwaitClassify? then Classify else Draft, false) }

  function StagePayload(node: Node, st: State): Payload
    requires node.AwaitClassify? || st.classification.Some?
  {
    if node.AwaitClassify? then ClassifyPayload(st.ticket) else DraftPayload(st.ticket, st.classification.value)
  }

  // The timer takes an await to its second wait, on the fallback if the redispatch went through.
  lemma {:induction false} TimedOutInvoke(
    t: Contents, id: Id, node: Node, st: State, envelope: Option<Envelope>, clock: Clock)
    requires ParkedAt(t, id, node, st, envelope)
    requires node.AwaitClassify? || (node.AwaitDraft? && st.classification.Some?)
    ensures var key := StageKey(id, node);
            var active := if IsPending(t.tasks, key) then key.(fallback := true) else key;
            var cp := Checkpoint(node, st, [Timeout], Some(TaskEnvelope(active, None)));
            Invoke(t, id, Some(Timeout), clock, 0)
            == Invoked(Moved(t, id, cp).(tasks := ApplyTxn(t.tasks, clock(1), Redispatch(key, StagePayload(node, st)))),
                       Some(cp), 1)
  {
    var key := StageKey(id, node);
    var active := if IsPending(t.tasks, key) then key.(fallback := true) else key;
    var cp := Checkpoint(node, st, [Timeout], Some(TaskEnvelope(active, None)));
    assert InputsOf(t.threads[id], Some(Timeout)) == [Timeout];
    Stops(t, id, Some(Timeout), clock, 0,
          Moved(t, id, cp).(tasks := ApplyTxn(t.tasks, clock(1), Redispatch(key, StagePayload(node, st)))), Park(cp));
  }

  // A second timer raises, its redispatch made or not.
  lemma {:induction false} TwiceTimedOutInvoke(
    t: Contents, id: Id, node: Node, st: State, envelope: Option<Envelope>, clock: Clock)
    requires ParkedWith(t, id, node, st, [Timeout], envelope)
    requires node.AwaitClassify? || (node.AwaitDraft? && st.classification.Some?)
    ensures Invoke(t, id, Some(Timeout), clock, 0)
            == Invoked(Retried(t, clock(1), StageKey(id, node), StagePayload(node, st), [Timeout]), None, 1)
  {
    assert InputsOf(t.threads[id], Some(Timeout)) == [Timeout, Timeout];
    Stops(t, id, Some(Timeout), clock, 0,
          Retried(t, clock(1), StageKey(id, node), StagePayload(node, st), [Timeout]), Raise);
  }

  // A finalize result ends it; anything else raises.
  lemma {:induction false} FinishedInvoke(
    t: Contents, id: Id, st: State, envelope: Option<Envelope>, resume: Resume, clock: Clock)
    requires ParkedAt(t, id, Execute, st, envelope) && st.draft.Some? && st.classification.Some?
    ensures var u := t.(tasks := Enqueue(t.tasks, clock(1), Key(id, Finalize, false), SideEffectQueue, FinalizeOf(st)));
            Invoke(t, id, Some(resume), clock, 0)
            == if resume.Value? && resume.result.Finalized? && resume.result.result.ticketId == id then
                 var cp := Reaching(End, AfterResult(st, resume.result.result)); Invoked(Moved(u, id, cp), Some(cp), 1)
               else Invoked(u, None, 1)
  {
    ExecuteReturns(t, id, st, envelope, resume, clock(1));
  }
}
