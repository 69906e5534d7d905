/** Any sequence of the programs' passes over one database. */
module Programs {
  import opened Wrappers
  import opened Models
  import opened TaskQueue
  import opened WorkflowRuns
  import opened Graph
  import opened Engine
  import opened Safety
  import opened Guarantees
  import opened Tables
  import opened Store
  import opened Invocations
  import opened Steps
  import opened Worker
  import opened Api
  import opened Maintenance
  import opened Reachable
  import opened Progress

  datatype Program =
    | StepRun(id: Id, worker: string, clock: Clock)
    | WorkTask(key: Key, queue: Queue, worker: string, agent: Payload -> Answer, clock: Clock)
    | Create(ticket: Ticket, clock: Clock)
    | Decide(id: Id, decision: Decision, now: Time)
    | Janitor(tasksNow: Time, runsNow: Time)
    | Retain(clock: Clock, maxAge: Time)
    | Reconcile(runs: map<Id, Run>)

  const Empty := Contents(EmptyTable, map[], map[], map[], 0, map[], map[], map[], map[], [], [])

  // The program finds something to do, and its pass is one the source allows.
  ghost predicate Applies(t: Contents, p: Program) {
    match p
    case StepRun(id, _, clock) => IsClaimable(t.runs, clock(0), id)
    case WorkTask(key, queue, _, agent, clock) =>
      IsDue(t.tasks, clock(0), queue, key) && forall q: Payload :: agent(q).Reply? ==> Answers(agent(q).result, q)
    case Create(ticket, _) => Unused(t, ticket.id)
    case Decide(id, _, _) => Open(t, id)
    case Janitor(_, _) => true
    case Retain(clock, maxAge) => !ArchiveClash(t, clock(0), maxAge)
    case Reconcile(runs) => Rebuilt(t, runs, Stranded(t))
  }

  // The state a program leaves.
  ghost function Perform(t: Contents, p: Program): Contents {
    if !Applies(t, p) then t
    else
      match p
      case StepRun(id, worker, clock) => StepOn(t, id, worker, clock).tables
      case WorkTask(key, queue, worker, agent, clock) => WorkOn(t, key, queue, worker, agent, clock)
      case Create(ticket, clock) => CreateOn(t, ticket, clock)
      case Decide(id, decision, now) => SubmitOn(t, id, decision, now)
      case Janitor(tasksNow, runsNow) => Reclaimed(t, tasksNow, runsNow)
      case Retain(clock, maxAge) => Retained(t, clock, maxAge)
      case Reconcile(runs) => t.(runs := runs)
  }

  ghost function PerformAll(programs: seq<Program>): Contents {
    if programs == [] then Empty else Perform(PerformAll(programs[..|programs| - 1]), programs[|programs| - 1])
  }

  // ----- serials are fresh and rows are about their own tickets

  ghost predicate Serial(q: Table) {
    UniqueIds(q) && forall key :: key in q.rows ==> q.rows[key].id < q.nextId
  }

  ghost predicate Sound(t: Contents) {
    Keyed(t) && Serial(t.tasks) && forall i :: i in t.signals ==> i < t.nextSignal
  }

  lemma {:induction false} EnqueueSerial(q: Table, now: Time, key: Key, queue: Queue, payload: Payload)
    requires Serial(q)
    ensures Serial(Enqueue(q, now, key, queue, payload))
  {
  }

  lemma {:induction false} TxnSerial(q: Table, now: Time, txn: Txn)
    requires Serial(q)
    ensures Serial(ApplyTxn(q, now, txn))
  {
    match txn
    case NoTxn =>
    case Dispatch(key, queue, payload) => EnqueueSerial(q, now, key, queue, payload);
    case Redispatch(key, payload) =>
      if IsPending(q, key) {
        EnqueueSerial(CancelPending(q, key, "redispatched to fallback"), now, FallbackOf(key), FallbackQueue, payload);
      }
  }

  lemma {:induction false} InvokeSerial(t: Contents, id: Id, resume: Option<Resume>, clock: Clock, n: nat)
    requires id in t.threads && Serial(t.tasks)
    ensures Serial(Invoke(t, id, resume, clock, n).tables.tasks)
    ensures Invoke(t, id, resume, clock, n).tables.nextSignal == t.nextSignal
    decreases t.threads[id].node.Ahead()
  {
    if !t.threads[id].node.End? {
      var (u, outcome) := NodeRun(t, id, resume, clock(n + 1));
      TxnSerial(t.tasks, clock(n + 1), NodeTxn(t.threads[id], InputsOf(t.threads[id], resume)));
      if outcome.Advance? && !outcome.cp.node.End? {
        InvokeSerial(u, id, None, clock, n + 1);
      }
    }
  }

  lemma {:induction false} InvokeSound(t: Contents, id: Id, resume: Option<Resume>, clock: Clock)
    requires id in t.threads && Sound(t)
    ensures Sound(Invoke(t, id, resume, clock, 0).tables)
  {
    InvokeSerial(t, id, resume, clock, 0);
    var _ := InvokeElsewhere(t, id, resume, clock, 0);
    InvokeTouches(t, id, resume, clock, 0);
  }

  lemma {:induction false} StepSound(t: Contents, id: Id, worker: string, clock: Clock)
    requires Sound(t) && id in t.runs
    ensures Sound(StepOn(t, id, worker, clock).tables)
  {
    var u := ClaimOn(t, id, worker, clock(0));
    var resume := ResumeAt(u, id, t.runs[id].wakeupAt);
    if resume.Some? {
      InvokeSound(u, id, Some(resume.value.payload), clock);
    }
  }

  // Every row is one there was, with its id and payload.
  ghost predicate SameTasks(q: Table, r: Table) {
    r.nextId == q.nextId
    && forall key :: key in r.rows ==>
        key in q.rows && r.rows[key].id == q.rows[key].id && r.rows[key].payload == q.rows[key].payload
  }

  lemma {:induction false} SameTasksSound(t: Contents, u: Contents)
    requires Sound(t) && SameTasks(t.tasks, u.tasks)
    requires u.signals.Keys <= t.signals.Keys && t.nextSignal <= u.nextSignal
    requires forall id :: id in u.threads ==> id in t.threads && u.threads[id] == t.threads[id]
    ensures Sound(u)
  {
  }

  lemma {:induction false} StoreSame(t: Contents, taskId: nat, answer: Answer, now: Time)
    ensures SameTasks(t.tasks, StoreOn(t, taskId, answer, now).tasks)
  {
  }

  lemma {:induction false} LeaseSame(q: Table, key: Key, worker: string, now: Time)
    requires key in q.rows
    ensures SameTasks(q, Lease(q, now, key, worker))
  {
  }

  lemma {:induction false} SettleSound(t: Contents, id: Id, taskId: nat, answer: Answer, clock: Clock)
    requires Sound(t)
    ensures Sound(SettleOn(t, id, taskId, answer, clock))
  {
    StoreSame(t, taskId, answer, clock(1));
    SettleKeeps(t, id, taskId, answer, clock);
    SameTasksSound(t, SettleOn(t, id, taskId, answer, clock));
  }

  lemma {:induction false} SettleKeeps(t: Contents, id: Id, taskId: nat, answer: Answer, clock: Clock)
    ensures var v := SettleOn(t, id, taskId, answer, clock);
            && v.tasks == StoreOn(t, taskId, answer, clock(1)).tasks
            && v.threads == t.threads && v.signals == t.signals && v.nextSignal == t.nextSignal
  {
  }

  lemma {:induction false} ActKeeps(t: Contents, queue: Queue, p: Payload, attempt: nat)
    ensures var u := ActOn(t, queue, p, attempt);
            u.tasks == t.tasks && u.threads == t.threads && u.signals == t.signals && u.nextSignal == t.nextSignal
  {
  }

  lemma {:induction false} ActSound(t: Contents, key: Key, queue: Queue, worker: string, now: Time)
    requires Sound(t) && key in t.tasks.rows
    ensures var u := LeaseOn(t, key, worker, now);
            Sound(ActOn(u, queue, u.tasks.rows[key].payload, u.tasks.rows[key].attempts))
  {
    LeaseSame(t.tasks, key, worker, now);
    var u := LeaseOn(t, key, worker, now);
    ActKeeps(u, queue, u.tasks.rows[key].payload, u.tasks.rows[key].attempts);
    SameTasksSound(t, ActOn(u, queue, u.tasks.rows[key].payload, u.tasks.rows[key].attempts));
  }

  lemma {:induction false} WorkSound(
    t: Contents, key: Key, queue: Queue, worker: string, agent: Payload -> Answer, clock: Clock)
    requires Sound(t) && key in t.tasks.rows
    ensures Sound(WorkOn(t, key, queue, worker, agent, clock))
  {
    var u := LeaseOn(t, key, worker, clock(0));
    var row := u.tasks.rows[key];
    ActSound(t, key, queue, worker, clock(0));
    SettleSound(ActOn(u, queue, row.payload, row.attempts), key.ticket, row.id, AnswerOf(queue, row.payload, agent),
                clock);
  }

  lemma {:induction false} CreateSound(t: Contents, ticket: Ticket, clock: Clock)
    requires Sound(t)
    ensures Sound(CreateOn(t, ticket, clock))
  {
    InvokeSound(t.(threads := t.threads[ticket.id := Seed(ticket)]), ticket.id, None, clock);
  }

  lemma {:induction false} SubmitSound(t: Contents, id: Id, decision: Decision, now: Time)
    requires Sound(t) && Open(t, id)
    ensures Sound(SubmitOn(t, id, decision, now))
  {
  }

  lemma {:induction false} RetainedSound(t: Contents, clock: Clock, maxAge: Time)
    requires Sound(t)
    ensures Sound(Retained(t, clock, maxAge))
  {
    SameTasksSound(t, Retained(t, clock, maxAge));
  }

  lemma {:induction false} ReclaimedSound(t: Contents, tasksNow: Time, runsNow: Time)
    requires Sound(t)
    ensures Sound(Reclaimed(t, tasksNow, runsNow))
  {
    SameTasksSound(t, Reclaimed(t, tasksNow, runsNow));
  }

  lemma {:induction false} ProgramSound(t: Contents, p: Program)
    requires Sound(t)
    ensures Sound(Perform(t, p))
  {
    if Applies(t, p) {
      match p
      case StepRun(id, worker, clock) => StepSound(t, id, worker, clock);
      case WorkTask(key, queue, worker, agent, clock) => WorkSound(t, key, queue, worker, agent, clock);
      case Create(ticket, clock) => CreateSound(t, ticket, clock);
      case Decide(id, decision, now) => SubmitSound(t, id, decision, now);
      case Janitor(tasksNow, runsNow) => ReclaimedSound(t, tasksNow, runsNow);
      case Retain(clock, maxAge) => RetainedSound(t, clock, maxAge);
      case Reconcile(runs) => SameTasksSound(t, t.(runs := runs));
    }
  }

  // ----- every ticket, after every program

  // The decisions the API has accepted for the ticket since it was created.
  ghost function Recorded(t: Contents, p: Program, id: Id, before: History): History {
    match p
    case Decide(i, decision, _) => if i == id && Open(t, i) then Accepting(t, id, before, decision) else before
    case Create(ticket, _) => if ticket.id == id && Unused(t, id) then History([], []) else before
    case _ => before
  }

  ghost function HistoryAfter(programs: seq<Program>, id: Id): History {
    if programs == [] then History([], [])
    else
      var n := |programs| - 1;
      Recorded(PerformAll(programs[..n]), programs[n], id, HistoryAfter(programs[..n], id))
  }

  lemma {:induction false} ProgramReaches(t: Contents, p: Program, id: Id, h: History, idle: map<nat, Actor>)
    requires Sound(t) && Reached(t, id, h, idle)
    requires p.Create? ==> idle == map[]
    ensures Reached(Perform(t, p), id, Recorded(t, p, id, h), idle)
  {
    if Applies(t, p) {
      if p.Create? || p.Decide? {
        RequestReaches(t, p, id, h, idle);
      } else {
        PassReaches(t, p, id, h, idle);
      }
    }
  }

  lemma {:induction false} RequestReaches(t: Contents, p: Program, id: Id, h: History, idle: map<nat, Actor>)
    requires Sound(t) && Applies(t, p) && Reached(t, id, h, idle) && (p.Create? || p.Decide?)
    requires p.Create? ==> idle == map[]
    ensures Reached(Perform(t, p), id, Recorded(t, p, id, h), idle)
  {
    match p
    case Create(ticket, clock) => CreateReachesAll(t, ticket, clock, id, h);
    case Decide(i, decision, now) => SubmitReaches(t, i, decision, now, id, h, idle);
  }

  lemma {:induction false} PassReaches(t: Contents, p: Program, id: Id, h: History, idle: map<nat, Actor>)
    requires Sound(t) && Applies(t, p) && Reached(t, id, h, idle) && !p.Create? && !p.Decide?
    ensures Reached(Perform(t, p), id, h, idle)
  {
    match p
    case StepRun(i, worker, clock) => StepReaches(t, i, worker, clock, id, h, idle);
    case WorkTask(key, queue, worker, agent, clock) => WorkReaches(t, key, queue, worker, agent, clock, id, h, idle);
    case Janitor(tasksNow, runsNow) => JanitorReaches(t, tasksNow, runsNow, id, h, idle);
    case Retain(clock, maxAge) => RetentionReaches(t, clock, maxAge, id, h, idle);
    case Reconcile(runs) => ReconcileReaches(t, runs, id, h, idle);
  }

  lemma {:induction false} CreateReachesAll(t: Contents, ticket: Ticket, clock: Clock, id: Id, h: History)
    requires Sound(t) && Unused(t, ticket.id) && Reached(t, id, h, map[])
    ensures Reached(CreateOn(t, ticket, clock), id, if ticket.id == id then History([], []) else h, map[])
  {
    if id == ticket.id {
      CreateReaches(t, ticket, clock);
    } else {
      CreateElsewhere(t, ticket, clock);
      OthersReach(t, CreateOn(t, ticket, clock), ticket.id, id, h, map[]);
    }
  }

  lemma {:induction false} SeedElsewhere(t: Contents, ticket: Ticket)
    ensures Elsewhere(t, t.(threads := t.threads[ticket.id := Seed(ticket)]), ticket.id)
  {
    var u := t.(threads := t.threads[ticket.id := Seed(ticket)]);
    assert forall j: Id :: EffectsOf(t, j) == EffectsOf(u, j);
  }

  lemma {:induction false} InsertElsewhere(r: Invoked, id: Id, clock: Clock)
    ensures Elsewhere(r.tables, InsertOn(r, id, clock), id)
  {
    RunsMove(r.tables, InsertOn(r, id, clock).runs, id);
  }

  lemma {:induction false} CreateElsewhere(t: Contents, ticket: Ticket, clock: Clock)
    requires Keyed(t)
    ensures Elsewhere(t, CreateOn(t, ticket, clock), ticket.id)
  {
    var id := ticket.id;
    var u := t.(threads := t.threads[id := Seed(ticket)]);
    SeedElsewhere(t, ticket);
    var r := InvokeElsewhere(u, id, None, clock, 0);
    ElsewhereTransitive(t, u, r.tables, id);
    InsertElsewhere(r, id, clock);
    ElsewhereTransitive(t, r.tables, InsertOn(r, id, clock), id);
  }

  lemma {:induction false} EmptyReached(id: Id)
    ensures Reached(Empty, id, History([], []), map[])
  {
    assert After(Fresh(id), []) == Beside(Fresh(id), map[]);
    assert RowsOf(Empty, id) == Fresh(id);
    assert ReachedBy(Empty, id, History([], []), map[], Fresh(id));
  }

  /** After any sequence of programs, each ticket's part of the tables is what some run of the engine
      leaves, in which the API accepted the same decisions: whatever holds after every run of the
      engine holds of the database. */
  lemma {:induction false} AllReached(programs: seq<Program>, id: Id)
    ensures Sound(PerformAll(programs)) && Reached(PerformAll(programs), id, HistoryAfter(programs, id), map[])
  {
    if programs == [] {
      EmptyReached(id);
    } else {
      var n := |programs| - 1;
      AllReached(programs[..n], id);
      ProgramSound(PerformAll(programs[..n]), programs[n]);
      ProgramReaches(PerformAll(programs[..n]), programs[n], id, HistoryAfter(programs[..n], id), map[]);
    }
  }

  /** After any sequence of steps, deliveries, creations, decisions and maintenance passes, a
      stored result has its reply sent and says truly whether a refund was made, a refund is only
      of a resolved ticket, no run row is ahead of its checkpoint, and at most one decision waits. */
  lemma {:induction false} TablesAlwaysAgree(programs: seq<Program>, id: Id)
    ensures var t := PerformAll(programs);
            && (id in t.results ==>
                  && id in t.sentReplies && t.sentReplies[id].replyText == t.results[id].replyText
                  && (t.results[id].refundExecuted <==> id in t.refunds)
                  && (id in t.refunds ==> t.results[id].status.Resolved?))
            && (id in t.runs && id in t.threads ==> AtLeast(t.threads[id].st.status, t.runs[id].status))
            && (forall i, j :: Unconsumed(t.signals, i, id) && Unconsumed(t.signals, j, id) ==> i == j)
  {
    AllReached(programs, id);
    TablesAgree(PerformAll(programs), id, HistoryAfter(programs, id), map[]);
  }

  // What a parked thread waits for: a task of its stage, its fallback only once the timer is recorded; an
  // approver; or its finalize task.
  ghost predicate WaitsProperly(t: Contents, id: Id) {
    || (exists node, key :: Awaits(t, id, node, key) && key in {StageKey(id, node), FallbackOf(StageKey(id, node))}
                            && (t.threads[id].resumes == [] ==> key == StageKey(id, node)))
    || AwaitsApprover(t, id)
    || AwaitsResult(t, id, Key(id, Finalize, false))
  }

  /** After any sequence of programs a thread that is parked is parked in one of the ways a step
      knows what to do with. */
  lemma {:induction false} AlwaysWaitsProperly(programs: seq<Program>, id: Id)
    requires var t := PerformAll(programs); id in t.threads && t.threads[id].envelope.Some?
    ensures WaitsProperly(PerformAll(programs), id)
  {
    AllReached(programs, id);
    var s := ReachedInv(PerformAll(programs), id, HistoryAfter(programs, id), map[]);
    ParkedProperly(PerformAll(programs), id);
  }

  lemma {:induction false} ParkedProperly(t: Contents, id: Id)
    requires id in t.threads && WellFormed(id, t.threads[id]) && t.threads[id].envelope.Some?
    ensures WaitsProperly(t, id)
  {
    var cp := t.threads[id];
    if cp.envelope.value.TaskEnvelope? {
      assert Awaits(t, id, cp.node, cp.envelope.value.key);
    }
  }

  // The n-th program was a submission of this decision, and the API accepted it.
  ghost predicate DecidedAt(programs: seq<Program>, n: nat, id: Id, d: Decision) {
    n < |programs| && programs[n].Decide? && programs[n].id == id && programs[n].decision == d
    && Open(PerformAll(programs[..n]), id)
  }

  // The draft the ticket's thread holds when the n-th program starts.
  ghost function DraftBefore(programs: seq<Program>, n: nat, id: Id): Option<DraftReply>
    requires n <= |programs|
  {
    DraftInThread(Lookup(PerformAll(programs[..n]).threads, id))
  }

  lemma {:induction false} DecisionWasMade(programs: seq<Program>, id: Id, k: nat) returns (n: nat)
    requires var h := HistoryAfter(programs, id); k < |h.accepted| && |h.shown| == |h.accepted|
    ensures var h := HistoryAfter(programs, id);
            DecidedAt(programs, n, id, h.accepted[k]) && DraftBefore(programs, n, id) == h.shown[k]
  {
    n := |programs| - 1;
    var before := HistoryAfter(programs[..n], id);
    if k < |before.accepted| {
      var m := DecisionWasMade(programs[..n], id, k);
      assert programs[..n][..m] == programs[..m];
      n := m;
    }
  }

  /** A row in the refund ledger means that some submission approved that ticket and was accepted
      while the ticket's thread held a draft proposing a refund of that amount. */
  lemma {:induction false} RefundWasDecided(programs: seq<Program>, id: Id)
    requires id in PerformAll(programs).refunds
    ensures exists n: nat, d ::
              && DecidedAt(programs, n, id, d) && d.approved
              && DraftBefore(programs, n, id).Some?
              && DraftBefore(programs, n, id).value.action == Refund(PerformAll(programs).refunds[id])
  {
    AllReached(programs, id);
    RefundRestsOnFirst(PerformAll(programs), id, HistoryAfter(programs, id), map[]);
    var n := DecisionWasMade(programs, id, 0);
    assert DecidedAt(programs, n, id, HistoryAfter(programs, id).accepted[0]);
  }
}
