/** An approved refund is carried out: a schedule of the programs that does it, for every ticket,
    classification, refunding draft and approval. */
module CarriedOut {
  import opened Wrappers
  import opened Models
  import opened TaskQueue
  import opened WorkflowRuns
  import opened Graph
  import opened SideEffects
  import opened Engine
  import opened Tables
  import opened Store
  import opened Invocations
  import opened Steps
  import opened Worker
  import opened Api
  import opened Programs
  import opened Progress

  function Tick(now: Time): Clock { (n: nat) => now }

  function ClassifyKeyOf(id: Id): Key { Key(id, Classify, false) }
  function DraftKeyOf(id: Id): Key { Key(id, Draft, false) }
  function FinalizeKeyOf(id: Id): Key { Key(id, Finalize, false) }

  // An agent that gives these two answers.
  function Agent(c: Classification, d: DraftReply): Payload -> Answer {
    (p: Payload) =>
      match p
      case ClassifyPayload(_) => Reply(Classified(c))
      case DraftPayload(_, _) => Reply(Drafted(d))
      case FinalizePayload(_, _, _) => Transient("")
  }

  // A queued task, due now and not due before.
  predicate Queued(t: Contents, key: Key, now: Time, queue: Queue, p: Payload) {
    IsDue(t.tasks, now, queue, key) && t.tasks.rows[key].payload == p
  }

  lemma {:induction false} EnqueuedIsQueued(q: Table, now: Time, key: Key, queue: Queue, p: Payload, later: Time)
    requires key !in q.rows && now <= later
    ensures var r := Enqueue(q, now, key, queue, p);
            IsDue(r, later, queue, key) && r.rows[key].payload == p && r.rows.Keys == q.rows.Keys + {key}
  {
  }

  // Ready for the next program: the thread, the run row and the decisions.
  predicate Stands(t: Contents, id: Id, node: Node, st: State, envelope: Envelope, wakeupAt: Option<Time>) {
    && ParkedAt(t, id, node, st, Some(envelope)) && RunShows(t, id, st.status, wakeupAt)
  }

  predicate NothingOpen(t: Contents, id: Id) { !HasUnconsumed(t.signals, id) }

  lemma {:induction false} AnsweredTask(q: Table, now: Time, key: Key, worker: string, r: TaskResult)
    requires key in q.rows
    ensures var leased := Lease(q, now, key, worker);
            var done := TaskQueue.Complete(leased, q.rows[key].id, r);
            && LeasedId(leased, q.rows[key].id)
            && DoneRow(done, key, r) && done.rows.Keys == q.rows.Keys
  {
    assert Lease(q, now, key, worker).rows[key].status.Leased?;
  }

  // A leased task is answered, the answer stored and the run woken.
  lemma {:induction false} Answered(
    t: Contents, key: Key, queue: Queue, worker: string, agent: Payload -> Answer, clock: Clock, r: TaskResult)
    requires IsDue(t.tasks, clock(0), queue, key) && AnswerOf(queue, t.tasks.rows[key].payload, agent) == Reply(r)
    requires key.ticket in t.runs
    ensures var u := WorkOn(t, key, queue, worker, agent, clock);
            && DoneRow(u.tasks, key, r)
            && u.tasks.rows.Keys == t.tasks.rows.Keys
            && u.runs == t.runs[key.ticket := WakeRow(t.runs[key.ticket], clock(2))]
            && u.threads == t.threads && u.signals == t.signals && u.nextSignal == t.nextSignal
                && u.archive == t.archive
            && u.refunds == RefundsAfter(t.refunds, queue, t.tasks.rows[key].payload)
  {
    var u := LeaseOn(t, key, worker, clock(0));
    var row := u.tasks.rows[key];
    AnsweredTask(t.tasks, clock(0), key, worker, r);
    ActLeaves(u, queue, row.payload, row.attempts);
    StoresAndWakes(ActOn(u, queue, row.payload, row.attempts), key.ticket, row.id, r, clock);
  }

  lemma {:induction false} StoresAndWakes(t: Contents, id: Id, taskId: nat, r: TaskResult, clock: Clock)
    requires LeasedId(t.tasks, taskId) && id in t.runs
    ensures SettleOn(t, id, taskId, Reply(r), clock)
            == t.(tasks := TaskQueue.Complete(t.tasks, taskId, r), runs := t.runs[id := WakeRow(t.runs[id], clock(2))])
  {
  }

  // A task a step has just dispatched is queued.
  lemma {:induction false} NowQueued(
    t: Contents, u: Contents, now: Time, key: Key, queue: Queue, p: Payload, later: Time)
    requires Queues(t.tasks, u.tasks, now, key, queue, p) && OnlyRows(t.tasks, u.tasks, {key} + {})
    requires key !in t.tasks.rows && now <= later
    ensures Queued(u, key, later, queue, p) && u.tasks.rows.Keys == t.tasks.rows.Keys + {key}
  {
    assert forall k :: k in u.tasks.rows <==> k in t.tasks.rows || k == key;
  }

  lemma {:induction false} ClassifyStep(
    t: Contents, id: Id, st: State, timer: Option<Time>, c: Classification, worker: string, now: Time)
    requires Stands(t, id, AwaitClassify, st, TaskEnvelope(ClassifyKeyOf(id), timer), Some(now - 1))
    requires DoneRow(t.tasks, ClassifyKeyOf(id), Classified(c)) && st.status.Classifying? && st.decision.None?
    requires t.tasks.rows.Keys == {ClassifyKeyOf(id)}
    ensures IsClaimable(t.runs, now, id)
    ensures var u := StepOn(t, id, worker, Tick(now)).tables;
            var to := st.(classification := Some(c), status := Drafting, wakeupAt := Some(now + SCHEDULE_TO_START));
            && Stands(u, id, AwaitDraft, to, TaskEnvelope(DraftKeyOf(id), to.wakeupAt), to.wakeupAt)
            && Queued(u, DraftKeyOf(id), now + 1, AgentQueue, DraftPayload(st.ticket, c))
            && u.tasks.rows.Keys == {ClassifyKeyOf(id), DraftKeyOf(id)} && u.signals == t.signals
                && u.refunds == t.refunds && u.archive == t.archive
  {
    StepClassifies(t, id, worker, Tick(now), ClassifyKeyOf(id), c);
    StepTouches(t, id, worker, Tick(now));
    NowQueued(t, StepOn(t, id, worker, Tick(now)).tables, now, DraftKeyOf(id), AgentQueue, DraftPayload(st.ticket, c),
              now + 1);
  }

  lemma {:induction false} DraftStep(
    t: Contents, id: Id, st: State, timer: Option<Time>, d: DraftReply, worker: string, now: Time)
    requires Stands(t, id, AwaitDraft, st, TaskEnvelope(DraftKeyOf(id), timer), Some(now - 1))
    requires DoneRow(t.tasks, DraftKeyOf(id), Drafted(d)) && st.status.Drafting? && st.decision.None?
    requires st.classification.Some? && NeedsApproval(d)
    ensures IsClaimable(t.runs, now, id)
    ensures var u := StepOn(t, id, worker, Tick(now)).tables;
            var to := ApprovalState(st, d, now + APPROVAL_TIMEOUT);
            && Stands(u, id, AwaitApproval, to, ApprovalEnvelope(id, to.wakeupAt, d), to.wakeupAt)
            && u.tasks.rows.Keys == t.tasks.rows.Keys && u.signals == t.signals && u.refunds == t.refunds
            && u.archive == t.archive
  {
    StepAsks(t, id, worker, Tick(now), DraftKeyOf(id), d);
    StepTouches(t, id, worker, Tick(now));
  }

  // A decision is stored and will be what the next step resumes with.
  lemma {:induction false} DecideStep(
    t: Contents, id: Id, st: State, d: DraftReply, wakeupAt: Option<Time>, decision: Decision, now: Time)
    requires Stands(t, id, AwaitApproval, st, ApprovalEnvelope(id, st.wakeupAt, d), wakeupAt)
            && st.status.AwaitingApproval?
    requires NothingOpen(t, id)
    ensures Open(t, id)
    ensures var u := SubmitOn(t, id, decision, now);
            && Stands(u, id, AwaitApproval, st, ApprovalEnvelope(id, st.wakeupAt, d), Some(now))
            && u.tasks == t.tasks && u.refunds == t.refunds && u.archive == t.archive
            && (forall i :: Unconsumed(u.signals, i, id) ==> i == t.nextSignal)
            && OldestDecision(u, id, t.nextSignal, decision)
  {
    var u := SubmitOn(t, id, decision, now);
    assert forall i :: Unconsumed(u.signals, i, id) ==> i == t.nextSignal;
  }

  lemma {:induction false} DecidedStep(
    t: Contents, id: Id, st: State, d: DraftReply, decision: Decision, signal: nat, worker: string, now: Time)
    requires Stands(t, id, AwaitApproval, st, ApprovalEnvelope(id, st.wakeupAt, d), Some(now - 1))
            && st.status.AwaitingApproval?
    requires st.draft == Some(d) && st.classification.Some? && st.wakeupAt.Some?
    requires st.decision.None? && NeedsApproval(d)
    requires OldestDecision(t, id, signal, decision)
    requires forall i :: Unconsumed(t.signals, i, id) ==> i == signal
    requires FinalizeKeyOf(id) !in t.tasks.rows
    ensures IsClaimable(t.runs, now, id)
    ensures var u := StepOn(t, id, worker, Tick(now)).tables;
            var to := AfterDecision(st, decision);
            && Stands(u, id, Execute, to, TerminalEnvelope(FinalizeKeyOf(id), ExpectedResult(to)), None)
                && NothingOpen(u, id)
            && Queued(u, FinalizeKeyOf(id), now + 1, SideEffectQueue, FinalizeOf(to))
            && u.refunds == t.refunds && u.archive == t.archive
  {
    var u := StepOn(t, id, worker, Tick(now)).tables;
    StepDecides(t, id, worker, Tick(now), signal, decision);
    StepTouches(t, id, worker, Tick(now));
    DecidedStands(t, u, id, st, d, decision, signal, now);
  }

  lemma {:induction false} DecidedStands(
    t: Contents, u: Contents, id: Id, st: State, d: DraftReply, decision: Decision, signal: nat, now: Time)
    requires id in t.runs && AwaitsApprover(t, id) && t.threads[id].st == st && signal in t.signals
    requires Decides(t, u, id, Tick(now), signal, decision)
    requires forall i :: Unconsumed(t.signals, i, id) ==> i == signal
    requires st.draft == Some(d) && FinalizeKeyOf(id) !in t.tasks.rows
    ensures var to := AfterDecision(st, decision);
            && Stands(u, id, Execute, to, TerminalEnvelope(FinalizeKeyOf(id), ExpectedResult(to)), None)
            && NothingOpen(u, id) && Queued(u, FinalizeKeyOf(id), now + 1, SideEffectQueue, FinalizeOf(to))
  {
    var to := AfterDecision(st, decision);
    ExecutesAsOwed(to);
    NowQueued(t, u, now, FinalizeKeyOf(id), SideEffectQueue, FinalizeOf(to), now + 1);
    assert forall i :: Unconsumed(u.signals, i, id) ==> Unconsumed(t.signals, i, id);
  }

  // The finalize result ends the ticket.
  lemma {:induction false} FinishStep(t: Contents, id: Id, st: State, result: TicketResult, worker: string, now: Time)
    requires st.draft.Some? && st.classification.Some?
    requires Stands(t, id, Execute, st, TerminalEnvelope(FinalizeKeyOf(id), ExpectedResult(st)), Some(now - 1))
    requires DoneRow(t.tasks, FinalizeKeyOf(id), Finalized(result)) && result.ticketId == id
    ensures IsClaimable(t.runs, now, id)
    ensures var u := StepOn(t, id, worker, Tick(now)).tables;
            && ParkedAt(u, id, End, AfterResult(st, result), None)
            && RunShows(u, id, result.status, None) && u.runs[id].updatedAt == now
            && u.signals == t.signals && u.archive == t.archive
  {
    StepEnds(t, id, worker, Tick(now), FinalizeKeyOf(id), result);
    StepTouches(t, id, worker, Tick(now));
  }

  // ----- the schedule

  lemma {:induction false} Next(programs: seq<Program>, p: Program)
    ensures PerformAll(programs + [p]) == Perform(PerformAll(programs), p)
  {
    assert (programs + [p])[..|programs|] == programs;
  }

  lemma {:induction false} NextTwo(programs: seq<Program>, p: Program, q: Program)
    ensures PerformAll(programs + [p] + [q]) == Perform(Perform(PerformAll(programs), p), q)
  {
    Next(programs, p);
    Next(programs + [p], q);
  }

  // What a worker with these answers, and a runner, make of the tables.
  function Worked(t: Contents, key: Key, queue: Queue, c: Classification, d: DraftReply, now: Time): Contents
    requires key in t.tasks.rows
  {
    WorkOn(t, key, queue, "", Agent(c, d), Tick(now))
  }

  function Advanced(t: Contents, id: Id, now: Time): Contents
    requires id in t.runs
  {
    StepOn(t, id, "", Tick(now)).tables
  }

  function WorkAt(key: Key, queue: Queue, c: Classification, d: DraftReply, now: Time): Program {
    WorkTask(key, queue, "", Agent(c, d), Tick(now))
  }

  function StepAt(id: Id, now: Time): Program { StepRun(id, "", Tick(now)) }

  lemma {:induction false} WorkApplies(
    t: Contents, key: Key, queue: Queue, c: Classification, d: DraftReply, now: Time)
    requires IsDue(t.tasks, now, queue, key)
    ensures Perform(t, WorkAt(key, queue, c, d, now)) == Worked(t, key, queue, c, d, now)
  {
    assert forall q: Payload :: Agent(c, d)(q).Reply? ==> Answers(Agent(c, d)(q).result, q);
  }

  lemma {:induction false} StepApplies(t: Contents, id: Id, now: Time)
    requires IsClaimable(t.runs, now, id)
    ensures Perform(t, StepAt(id, now)) == Advanced(t, id, now)
  {
  }

  lemma {:induction false} DecideApplies(t: Contents, id: Id, decision: Decision, now: Time)
    requires Open(t, id)
    ensures Perform(t, Decide(id, decision, now)) == SubmitOn(t, id, decision, now)
  {
  }

  lemma {:induction false} WorkThenStep(
    programs: seq<Program>, t: Contents, key: Key, queue: Queue, c: Classification, d: DraftReply, id: Id, now: Time)
    requires t == PerformAll(programs) && IsDue(t.tasks, now, queue, key)
    requires IsClaimable(Worked(t, key, queue, c, d, now).runs, now + 1, id)
    ensures PerformAll(programs + [WorkAt(key, queue, c, d, now)] + [StepAt(id, now + 1)])
            == Advanced(Worked(t, key, queue, c, d, now), id, now + 1)
  {
    NextTwo(programs, WorkAt(key, queue, c, d, now), StepAt(id, now + 1));
    WorkApplies(t, key, queue, c, d, now);
    StepApplies(Worked(t, key, queue, c, d, now), id, now + 1);
  }

  lemma {:induction false} DecideThenStep(
    programs: seq<Program>, t: Contents, id: Id, decision: Decision, now: Time)
    requires t == PerformAll(programs) && Open(t, id)
    requires IsClaimable(SubmitOn(t, id, decision, now).runs, now + 1, id)
    ensures PerformAll(programs + [Decide(id, decision, now)] + [StepAt(id, now + 1)])
            == Advanced(SubmitOn(t, id, decision, now), id, now + 1)
  {
    NextTwo(programs, Decide(id, decision, now), StepAt(id, now + 1));
    DecideApplies(t, id, decision, now);
    StepApplies(SubmitOn(t, id, decision, now), id, now + 1);
  }

  lemma {:induction false} DecideThenWork(
    programs: seq<Program>, t: Contents, id: Id, decision: Decision, key: Key, queue: Queue, c: Classification,
    d: DraftReply, now: Time)
    requires t == PerformAll(programs) && Open(t, id)
    requires IsDue(SubmitOn(t, id, decision, now).tasks, now + 1, queue, key)
    ensures PerformAll(programs + [Decide(id, decision, now)] + [WorkAt(key, queue, c, d, now + 1)])
            == Worked(SubmitOn(t, id, decision, now), key, queue, c, d, now + 1)
  {
    NextTwo(programs, Decide(id, decision, now), WorkAt(key, queue, c, d, now + 1));
    DecideApplies(t, id, decision, now);
    WorkApplies(SubmitOn(t, id, decision, now), key, queue, c, d, now + 1);
  }

  // A worker answers a queued task; the run is woken.
  lemma {:induction false} WorkStep(
    t: Contents, key: Key, queue: Queue, p: Payload, c: Classification, d: DraftReply, r: TaskResult, now: Time)
    requires Queued(t, key, now, queue, p) && AnswerOf(queue, p, Agent(c, d)) == Reply(r)
    requires key.ticket in t.runs && t.runs[key.ticket].leaseExpiresAt.None?
    ensures var u := Worked(t, key, queue, c, d, now);
            && DoneRow(u.tasks, key, r) && u.tasks.rows.Keys == t.tasks.rows.Keys
            && u.threads == t.threads && u.signals == t.signals && u.refunds == RefundsAfter(t.refunds, queue, p)
                && u.archive == t.archive
            && RunShows(u, key.ticket, t.runs[key.ticket].status, Some(now))
  {
    Answered(t, key, queue, "", Agent(c, d), Tick(now), r);
  }

  // The ticket is created first and nothing is created after it.
  ghost predicate CreatesFirst(programs: seq<Program>, ticket: Ticket) {
    && programs != [] && programs[..1] == [Create(ticket, Tick(0))]
    && forall i :: 0 < i < |programs| ==> !programs[i].Create?
  }

  lemma {:induction false} StillFirst(programs: seq<Program>, p: Program, q: Program, ticket: Ticket)
    requires CreatesFirst(programs, ticket) && !p.Create? && !q.Create?
    ensures CreatesFirst(programs + [p] + [q], ticket)
    ensures forall k :: 0 <= k <= |programs| ==> (programs + [p] + [q])[..k] == programs[..k]
  {
    var more := programs + [p] + [q];
    assert more[..1] == programs[..1];
    assert forall i :: 0 <= i < |programs| ==> more[i] == programs[i];
  }

  // The classify task is answered and the run takes its step.
  lemma {:induction false} DraftsAfter(t: Contents, ticket: Ticket, c: Classification, d: DraftReply)
    requires var id := ticket.id;
             && Stands(t, id, AwaitClassify, Opening(ticket, SCHEDULE_TO_START),
                       TaskEnvelope(ClassifyKeyOf(id), Some(SCHEDULE_TO_START)), Some(SCHEDULE_TO_START))
             && Queued(t, ClassifyKeyOf(id), 1, AgentQueue, ClassifyPayload(ticket))
             && t.tasks.rows.Keys == {ClassifyKeyOf(id)}
             && t.signals == map[] && t.refunds == map[] && t.archive == map[]
    ensures var id := ticket.id;
            var st := Opening(ticket, SCHEDULE_TO_START).(
                        classification := Some(c), status := Drafting, wakeupAt := Some(2 + SCHEDULE_TO_START));
            var u := Worked(t, ClassifyKeyOf(id), AgentQueue, c, d, 1);
            IsClaimable(u.runs, 2, id)
            && var v := Advanced(u, id, 2);
            && Stands(v, id, AwaitDraft, st, TaskEnvelope(DraftKeyOf(id), st.wakeupAt), st.wakeupAt)
            && Queued(v, DraftKeyOf(id), 3, AgentQueue, DraftPayload(ticket, c))
            && v.tasks.rows.Keys == {ClassifyKeyOf(id), DraftKeyOf(id)}
            && v.signals == map[] && v.refunds == map[] && v.archive == map[]
  {
    var id := ticket.id;
    var opening := Opening(ticket, SCHEDULE_TO_START);
    WorkStep(t, ClassifyKeyOf(id), AgentQueue, ClassifyPayload(ticket), c, d, Classified(c), 1);
    var u := Worked(t, ClassifyKeyOf(id), AgentQueue, c, d, 1);
    ClassifyStep(u, id, opening, Some(SCHEDULE_TO_START), c, "", 2);
  }

  // From nothing to a queued draft task.
  lemma {:induction false} ToDraft(
    ticket: Ticket, c: Classification, d: DraftReply) returns (programs: seq<Program>, st: State)
    ensures CreatesFirst(programs, ticket)
    ensures |programs| == 3 && st.status.Drafting? && st.ticket == ticket && st.classification == Some(c)
    ensures st.decision.None?
    ensures var t := PerformAll(programs);
            var id := ticket.id;
            && Stands(t, id, AwaitDraft, st, TaskEnvelope(DraftKeyOf(id), st.wakeupAt), st.wakeupAt)
            && Queued(t, DraftKeyOf(id), 3, AgentQueue, DraftPayload(ticket, c))
            && t.tasks.rows.Keys == {ClassifyKeyOf(id), DraftKeyOf(id)} && t.signals == map[] && t.refunds == map[]
            && t.archive == map[]
  {
    var id := ticket.id;
    var first, t := Created(ticket);
    var p1, p2 := WorkAt(ClassifyKeyOf(id), AgentQueue, c, d, 1), StepAt(id, 2);
    DraftsAfter(t, ticket, c, d);
    WorkThenStep(first, t, ClassifyKeyOf(id), AgentQueue, c, d, id, 1);
    StillFirst(first, p1, p2, ticket);
    programs := first + [p1] + [p2];
    st := Opening(ticket, SCHEDULE_TO_START).(
            classification := Some(c), status := Drafting, wakeupAt := Some(2 + SCHEDULE_TO_START));
  }

  // The ticket just created.
  lemma {:induction false} Created(ticket: Ticket) returns (programs: seq<Program>, t: Contents)
    ensures CreatesFirst(programs, ticket) && |programs| == 1 && t == PerformAll(programs)
    ensures var id := ticket.id;
            && Stands(t, id, AwaitClassify, Opening(ticket, SCHEDULE_TO_START),
                      TaskEnvelope(ClassifyKeyOf(id), Some(SCHEDULE_TO_START)), Some(SCHEDULE_TO_START))
            && Queued(t, ClassifyKeyOf(id), 1, AgentQueue, ClassifyPayload(ticket))
            && t.tasks.rows.Keys == {ClassifyKeyOf(id)}
            && t.signals == map[] && t.refunds == map[] && t.archive == map[]
  {
    programs := [Create(ticket, Tick(0))];
    t := CreateOn(Empty, ticket, Tick(0));
    FirstProgram(ticket);
    assert programs[..1] == programs;
    CreatedTicket(Empty, ticket, Tick(0));
    EnqueuedIsQueued(EmptyTable, 0, ClassifyKeyOf(ticket.id), AgentQueue, ClassifyPayload(ticket), 1);
  }

  lemma {:induction false} FirstProgram(ticket: Ticket)
    ensures PerformAll([Create(ticket, Tick(0))]) == CreateOn(Empty, ticket, Tick(0))
  {
    var p := Create(ticket, Tick(0));
    assert [p][..0] == [];
    assert RowsOf(Empty, ticket.id) == Fresh(ticket.id);
    assert InStep(Empty, ticket.id, DoSerials(Fresh(ticket.id), 0, 0), None);
  }

  // The draft task is answered and the run takes its step.
  lemma {:induction false} AsksAfter(t: Contents, ticket: Ticket, st: State, c: Classification, d: DraftReply)
    returns (u: Contents, v: Contents)
    requires Stands(t, ticket.id, AwaitDraft, st, TaskEnvelope(DraftKeyOf(ticket.id), st.wakeupAt), st.wakeupAt)
    requires Queued(t, DraftKeyOf(ticket.id), 3, AgentQueue, DraftPayload(ticket, c))
    requires st.status.Drafting? && st.classification.Some? && st.decision.None? && NeedsApproval(d)
    ensures u == Worked(t, DraftKeyOf(ticket.id), AgentQueue, c, d, 3) && IsClaimable(u.runs, 4, ticket.id)
    ensures v == Advanced(u, ticket.id, 4)
    ensures var to := ApprovalState(st, d, 4 + APPROVAL_TIMEOUT);
            && Stands(v, ticket.id, AwaitApproval, to, ApprovalEnvelope(ticket.id, to.wakeupAt, d), to.wakeupAt)
            && v.tasks.rows.Keys == t.tasks.rows.Keys && v.signals == t.signals && v.refunds == t.refunds
            && v.archive == t.archive
  {
    var id := ticket.id;
    WorkStep(t, DraftKeyOf(id), AgentQueue, DraftPayload(ticket, c), c, d, Drafted(d), 3);
    u := Worked(t, DraftKeyOf(id), AgentQueue, c, d, 3);
    DraftStep(u, id, st, st.wakeupAt, d, "", 4);
    v := Advanced(u, id, 4);
  }

  // On to the approver.
  lemma {:induction false} ToApproval(
    ticket: Ticket, c: Classification, d: DraftReply) returns (programs: seq<Program>, st: State)
    requires NeedsApproval(d)
    ensures CreatesFirst(programs, ticket)
    ensures |programs| == 5 && st.status.AwaitingApproval? && st.ticket == ticket && st.classification == Some(c)
            && st.decision.None?
            && st.draft == Some(d)
            && st.wakeupAt.Some?
    ensures var t := PerformAll(programs);
            var id := ticket.id;
            && Stands(t, id, AwaitApproval, st, ApprovalEnvelope(id, st.wakeupAt, d), st.wakeupAt)
            && t.tasks.rows.Keys == {ClassifyKeyOf(id), DraftKeyOf(id)} && t.signals == map[] && t.refunds == map[]
            && t.archive == map[]
  {
    var before, drafting := ToDraft(ticket, c, d);
    var p3, p4 := WorkAt(DraftKeyOf(ticket.id), AgentQueue, c, d, 3), StepAt(ticket.id, 4);
    AsksFrom(before, ticket, drafting, c, d);
    StillFirst(before, p3, p4, ticket);
    programs := before + [p3] + [p4];
    st := ApprovalState(drafting, d, 4 + APPROVAL_TIMEOUT);
  }

  lemma {:induction false} AsksFrom(
    before: seq<Program>, ticket: Ticket, st: State, c: Classification, d: DraftReply)
    requires var t := PerformAll(before);
             && Stands(t, ticket.id, AwaitDraft, st, TaskEnvelope(DraftKeyOf(ticket.id), st.wakeupAt), st.wakeupAt)
             && Queued(t, DraftKeyOf(ticket.id), 3, AgentQueue, DraftPayload(ticket, c))
    requires st.status.Drafting? && st.classification.Some? && st.decision.None? && NeedsApproval(d)
    ensures var t, id := PerformAll(before), ticket.id;
            var to := ApprovalState(st, d, 4 + APPROVAL_TIMEOUT);
            var v := PerformAll(before + [WorkAt(DraftKeyOf(id), AgentQueue, c, d, 3)] + [StepAt(id, 4)]);
            && Stands(v, id, AwaitApproval, to, ApprovalEnvelope(id, to.wakeupAt, d), to.wakeupAt)
            && v.tasks.rows.Keys == t.tasks.rows.Keys && v.signals == t.signals && v.refunds == t.refunds
            && v.archive == t.archive
  {
    var t := PerformAll(before);
    var u, v := AsksAfter(t, ticket, st, c, d);
    WorkThenStep(before, t, DraftKeyOf(ticket.id), AgentQueue, c, d, ticket.id, 3);
  }

  predicate AsksApproval(t: Contents, id: Id) {
    id in t.threads && t.threads[id].node.AwaitApproval? && t.threads[id].st.status.AwaitingApproval?
  }

  // Decided, and on its way to the side-effect worker.
  lemma {:induction false} ToFinalize(ticket: Ticket, c: Classification, d: DraftReply, decision: Decision)
    returns (programs: seq<Program>, st: State)
    requires NeedsApproval(d)
    ensures |programs| == 7 && DecidedAt(programs, 5, ticket.id, decision)
    ensures CreatesFirst(programs, ticket)
    ensures AsksApproval(PerformAll(programs[..5]), ticket.id)
    ensures st.ticket == ticket && st.draft == Some(d) && st.classification.Some? && st.decision == Some(decision)
            && st.status == (if decision.approved then AwaitingApproval else Rejected)
    ensures var t := PerformAll(programs);
            var id := ticket.id;
            && Stands(t, id, Execute, st, TerminalEnvelope(FinalizeKeyOf(id), ExpectedResult(st)), None)
                && NothingOpen(t, id)
            && Queued(t, FinalizeKeyOf(id), 7, SideEffectQueue, FinalizeOf(st)) && t.refunds == map[]
            && t.archive == map[]
  {
    var id := ticket.id;
    var before, waiting := ToApproval(ticket, c, d);
    var t5 := PerformAll(before);
    var p5, p6 := Decide(id, decision, 5), StepAt(id, 6);
    DecideStep(t5, id, waiting, d, waiting.wakeupAt, decision, 5);
    DecidedStep(SubmitOn(t5, id, decision, 5), id, waiting, d, decision, t5.nextSignal, "", 6);
    DecideThenStep(before, t5, id, decision, 5);
    programs := before + [p5] + [p6];
    StillFirst(before, p5, p6, ticket);
    assert before[..5] == before && programs[..5] == before;
    st := AfterDecision(waiting, decision);
  }

  /** Whatever the ticket, classification and refunding draft: some schedule of the programs
      approves it and pays the amount. On the way the API accepts a second decision, of any kind,
      after the approval has been applied. */
  lemma {:induction false} RefundIsCarriedOut(
    ticket: Ticket, c: Classification, d: DraftReply, first: Decision, second: Decision)
    requires d.action.Refund? && first.approved
    ensures exists programs: seq<Program> ::
              && DecidedAt(programs, 5, ticket.id, first) && DecidedAt(programs, 7, ticket.id, second)
              && PerformAll(programs).refunds == map[ticket.id := d.action.amount]
  {
    var before, st := ToFinalize(ticket, c, d, first);
    var programs := PaidAnyway(before, ticket, st, c, d, first, second);
  }

  // From the queued finalize task to the refund, past a second decision.
  lemma {:induction false} PaidAnyway(
    before: seq<Program>, ticket: Ticket, st: State, c: Classification, d: DraftReply, first: Decision,
    second: Decision)
    returns (programs: seq<Program>)
    requires |before| == 7 && DecidedAt(before, 5, ticket.id, first) && d.action.Refund?
    requires st.draft == Some(d) && st.classification.Some? && st.ticket == ticket && st.status.AwaitingApproval?
    requires var t := PerformAll(before);
             && RunShows(t, ticket.id, AwaitingApproval, None) && NothingOpen(t, ticket.id)
             && Queued(t, FinalizeKeyOf(ticket.id), 7, SideEffectQueue, FinalizeOf(st)) && t.refunds == map[]
    ensures DecidedAt(programs, 5, ticket.id, first) && DecidedAt(programs, 7, ticket.id, second)
    ensures PerformAll(programs).refunds == map[ticket.id := d.action.amount]
  {
    var id := ticket.id;
    var t := PerformAll(before);
    var p7, p8 := Decide(id, second, 7), WorkAt(FinalizeKeyOf(id), SideEffectQueue, c, d, 8);
    programs := before + [p7] + [p8];
    AskedAgain(t, id, st, second);
    PaidAfter(SubmitOn(t, id, second, 7), id, st, c, d);
    DecideThenWork(before, t, id, second, FinalizeKeyOf(id), SideEffectQueue, c, d, 7);
    BothDecided(before, p8, id, first, second);
  }

  lemma {:induction false} BothDecided(before: seq<Program>, p: Program, id: Id, first: Decision, second: Decision)
    requires |before| == 7 && DecidedAt(before, 5, id, first) && Open(PerformAll(before), id)
    ensures var programs := before + [Decide(id, second, 7)] + [p];
            DecidedAt(programs, 5, id, first) && DecidedAt(programs, 7, id, second)
  {
    var programs := before + [Decide(id, second, 7)] + [p];
    assert programs[..5] == before[..5] && programs[..7] == before;
  }

  lemma {:induction false} AskedAgain(t: Contents, id: Id, st: State, second: Decision)
    requires st.draft.Some? && st.classification.Some?
    requires RunShows(t, id, AwaitingApproval, None) && NothingOpen(t, id)
    requires Queued(t, FinalizeKeyOf(id), 7, SideEffectQueue, FinalizeOf(st)) && t.refunds == map[]
    ensures Open(t, id)
    ensures var u := SubmitOn(t, id, second, 7);
            && Queued(u, FinalizeKeyOf(id), 8, SideEffectQueue, FinalizeOf(st)) && u.refunds == map[]
            && RunShows(u, id, AwaitingApproval, Some(7))
  {
  }

  lemma {:induction false} PaidAfter(t: Contents, id: Id, st: State, c: Classification, d: DraftReply)
    requires st.draft == Some(d) && st.classification.Some? && st.ticket.id == id && st.status.AwaitingApproval?
    requires d.action.Refund? && t.refunds == map[] && RunShows(t, id, AwaitingApproval, Some(7))
    requires Queued(t, FinalizeKeyOf(id), 8, SideEffectQueue, FinalizeOf(st))
    ensures Worked(t, FinalizeKeyOf(id), SideEffectQueue, c, d, 8).refunds == map[id := d.action.amount]
  {
    WorkStep(t, FinalizeKeyOf(id), SideEffectQueue, FinalizeOf(st), c, d, Finalized(FinalResult(FinalizeOf(st))), 8);
  }

  // Finished after a decision, with nothing archived.
  lemma {:induction false} ToEnd(ticket: Ticket, c: Classification, d: DraftReply, decision: Decision)
    returns (programs: seq<Program>, st: State)
    requires NeedsApproval(d)
    ensures |programs| == 9 && CreatesFirst(programs, ticket)
    ensures AsksApproval(PerformAll(programs[..5]), ticket.id)
    ensures st.decision == Some(decision)
    ensures var t := PerformAll(programs);
            var id := ticket.id;
            && ParkedAt(t, id, End, st, None) && st.status.Terminal() && NothingOpen(t, id)
            && RunShows(t, id, st.status, None) && t.runs[id].updatedAt == 8 && t.archive == map[]
  {
    var id := ticket.id;
    var before, parked := ToFinalize(ticket, c, d, decision);
    var p7, p8 := WorkAt(FinalizeKeyOf(id), SideEffectQueue, c, d, 7), StepAt(id, 8);
    EndsFrom(before, id, parked, c, d);
    programs := before + [p7] + [p8];
    StillFirst(before, p7, p8, ticket);
    st := AfterResult(parked, FinalResult(FinalizeOf(parked)));
    assert programs[..5] == before[..5];
  }

  lemma {:induction false} EndsFrom(before: seq<Program>, id: Id, st: State, c: Classification, d: DraftReply)
    requires st.draft == Some(d) && st.classification.Some? && st.ticket.id == id
    requires var t := PerformAll(before);
             && Stands(t, id, Execute, st, TerminalEnvelope(FinalizeKeyOf(id), ExpectedResult(st)), None)
             && NothingOpen(t, id) && t.archive == map[]
             && Queued(t, FinalizeKeyOf(id), 7, SideEffectQueue, FinalizeOf(st))
    ensures var v := PerformAll(before + [WorkAt(FinalizeKeyOf(id), SideEffectQueue, c, d, 7)] + [StepAt(id, 8)]);
            && ParkedAt(v, id, End, AfterResult(st, FinalResult(FinalizeOf(st))), None) && NothingOpen(v, id)
            && RunShows(v, id, TerminalStatus(st.status), None) && v.runs[id].updatedAt == 8 && v.archive == map[]
  {
    var t := PerformAll(before);
    var u, v := EndsAfter(t, id, st, c, d);
    WorkThenStep(before, t, FinalizeKeyOf(id), SideEffectQueue, c, d, id, 7);
  }

  // The side-effect worker delivers; the run is woken.
  lemma {:induction false} Delivers(t: Contents, id: Id, st: State, c: Classification, d: DraftReply)
    returns (u: Contents)
    requires st.draft == Some(d) && st.classification.Some? && st.ticket.id == id
    requires Stands(t, id, Execute, st, TerminalEnvelope(FinalizeKeyOf(id), ExpectedResult(st)), None)
            && NothingOpen(t, id)
    requires Queued(t, FinalizeKeyOf(id), 7, SideEffectQueue, FinalizeOf(st)) && t.archive == map[]
    ensures u == Worked(t, FinalizeKeyOf(id), SideEffectQueue, c, d, 7)
    ensures Stands(u, id, Execute, st, TerminalEnvelope(FinalizeKeyOf(id), ExpectedResult(st)), Some(7))
            && NothingOpen(u, id) && u.archive == map[]
    ensures DoneRow(u.tasks, FinalizeKeyOf(id), Finalized(FinalResult(FinalizeOf(st))))
  {
    u := Worked(t, FinalizeKeyOf(id), SideEffectQueue, c, d, 7);
    WorkStep(t, FinalizeKeyOf(id), SideEffectQueue, FinalizeOf(st), c, d, Finalized(FinalResult(FinalizeOf(st))), 7);
  }

  lemma {:induction false} EndsAfter(t: Contents, id: Id, st: State, c: Classification, d: DraftReply)
    returns (u: Contents, v: Contents)
    requires st.draft == Some(d) && st.classification.Some? && st.ticket.id == id
    requires Stands(t, id, Execute, st, TerminalEnvelope(FinalizeKeyOf(id), ExpectedResult(st)), None)
            && NothingOpen(t, id)
    requires Queued(t, FinalizeKeyOf(id), 7, SideEffectQueue, FinalizeOf(st)) && t.archive == map[]
    ensures u == Worked(t, FinalizeKeyOf(id), SideEffectQueue, c, d, 7) && IsClaimable(u.runs, 8, id)
    ensures v == Advanced(u, id, 8)
    ensures && ParkedAt(v, id, End, AfterResult(st, FinalResult(FinalizeOf(st))), None) && NothingOpen(v, id)
            && RunShows(v, id, TerminalStatus(st.status), None) && v.runs[id].updatedAt == 8 && v.archive == map[]
  {
    u := Delivers(t, id, st, c, d);
    FinishStep(u, id, st, FinalResult(FinalizeOf(st)), "", 8);
    v := Advanced(u, id, 8);
  }

  // ----- through the fallback

  // The timer of a task nobody has taken is due, and its fallback's key is free.
  ghost predicate Overdue(t: Contents, id: Id, node: Node, st: State, now: Time) {
    && Stands(t, id, node, st, TaskEnvelope(StageKey(id, node), st.wakeupAt), Some(now))
    && (node.AwaitClassify? || (node.AwaitDraft? && st.classification.Some?)) && st.decision.None?
    && (st.status.Classifying? || st.status.Drafting?)
    && NothingStored(t.tasks, StageKey(id, node)) && IsPending(t.tasks, StageKey(id, node))
    && FallbackKeyOf(id, node) !in t.tasks.rows
  }

  function FallbackKeyOf(id: Id, node: Node): Key { Key(id, StageKey(id, node).stage, true) }

  // The runner turns the task over, a fallback worker answers it, and the run is woken.
  lemma {:induction false} FallbackAnswers(
    t: Contents, id: Id, node: Node, st: State, c: Classification, d: DraftReply, now: Time)
    returns (u: Contents, w: Contents)
    requires id in t.runs && Overdue(t, id, node, st, now)
    ensures IsClaimable(t.runs, now, id) && u == Advanced(t, id, now)
    ensures CancelledFor(u, id, node)
    ensures w == Worked(u, FallbackKeyOf(id, node), FallbackQueue, c, d, now + 1)
    ensures id in w.runs && IsClaimable(w.runs, now + 2, id)
    ensures Awaits(w, id, node, FallbackKeyOf(id, node)) && w.threads[id].st == st
    ensures DoneRow(w.tasks, FallbackKeyOf(id, node), if node.AwaitClassify? then Classified(c) else Drafted(d))
  {
    StepTurnsOver(t, id, "", Tick(now), node);
    u := Advanced(t, id, now);
    w := Worked(u, FallbackKeyOf(id, node), FallbackQueue, c, d, now + 1);
    WorkStep(u, FallbackKeyOf(id, node), FallbackQueue, StagePayload(node, st), c, d,
             if node.AwaitClassify? then Classified(c) else Drafted(d), now + 1);
  }

  // The primary is failed for good and the fallback is there.
  predicate CancelledFor(t: Contents, id: Id, node: Node) {
    && FallbackKeyOf(id, node) in t.tasks.rows && StageKey(id, node) in t.tasks.rows
    && t.tasks.rows[StageKey(id, node)].status.Failed? && t.tasks.rows[StageKey(id, node)].permanent
  }

  /** A classify task that misses its schedule-to-start budget is cancelled, and the fallback worker's
      classification is the one the ticket goes on with. */
  lemma {:induction false} FallbackClassifies(
    t: Contents, id: Id, st: State, c: Classification, d: DraftReply, now: Time)
    returns (u: Contents, w: Contents)
    requires id in t.runs && Overdue(t, id, AwaitClassify, st, now)
    ensures IsClaimable(t.runs, now, id) && u == Advanced(t, id, now)
    ensures CancelledFor(u, id, AwaitClassify)
    ensures w == Worked(u, FallbackKeyOf(id, AwaitClassify), FallbackQueue, c, d, now + 1)
    ensures id in w.runs && id in w.threads && IsClaimable(w.runs, now + 2, id)
    ensures Classifies(w, Advanced(w, id, now + 2), id, Tick(now + 2), c)
  {
    u, w := FallbackAnswers(t, id, AwaitClassify, st, c, d, now);
    StepClassifies(w, id, "", Tick(now + 2), FallbackKeyOf(id, AwaitClassify), c);
  }

  /** And a draft task likewise. */
  lemma {:induction false} FallbackDrafts(
    t: Contents, id: Id, st: State, c: Classification, d: DraftReply, now: Time)
    returns (u: Contents, w: Contents)
    requires id in t.runs && Overdue(t, id, AwaitDraft, st, now)
    ensures IsClaimable(t.runs, now, id) && u == Advanced(t, id, now)
    ensures CancelledFor(u, id, AwaitDraft)
    ensures w == Worked(u, FallbackKeyOf(id, AwaitDraft), FallbackQueue, c, d, now + 1)
    ensures id in w.runs && id in w.threads && w.threads[id].st == st && IsClaimable(w.runs, now + 2, id)
    ensures st.classification.Some? && Drafts(w, Advanced(w, id, now + 2), id, Tick(now + 2), d)
  {
    u, w := FallbackAnswers(t, id, AwaitDraft, st, c, d, now);
    StepDrafts(w, id, "", Tick(now + 2), FallbackKeyOf(id, AwaitDraft), d);
  }
}
