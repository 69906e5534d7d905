/** From the database back to the engine: whatever the programs leave in the tables is, ticket by
    ticket, what some run of the engine leaves. */
module Reachable {
  import opened Wrappers
  import opened Models
  import opened TaskQueue
  import opened WorkflowRuns
  import opened Engine
  import opened Frames
  import opened Safety
  import opened SafetySteps
  import opened Guarantees
  import opened Tables
  import opened Store
  import opened Invocations
  import opened Steps
  import opened Runner
  import opened Worker
  import opened Api
  import opened Maintenance

  // No process but process 0 moves.
  predicate ByZero(e: Event) {
    match e
    case Submit(_) => true
    case ReclaimTasks => true
    case ReclaimRuns => true
    case PruneSignals(_) => true
    case PruneTasks(_) => true
    case Serials(_, _) => true
    case _ => e.a == 0
  }

  predicate Plain(steps: seq<Step>) {
    forall i :: 0 <= i < |steps| ==> !steps[i].event.Submit? && ByZero(steps[i].event)
  }

  // Some committed steps of process 0 lead from s to v, none of them a submission.
  ghost predicate Leads(s: Rows, v: Rows) {
    exists steps: seq<Step> :: Plain(steps) && After(s, steps) == v
  }

  // The decisions the API has accepted, and the draft in the thread at each acceptance.
  datatype History = History(accepted: seq<Decision>, shown: seq<Option<DraftReply>>)

  function HistoryOf(s: Rows): History { History(s.log.accepted, s.log.shown) }

  lemma {:induction false} NoneAcceptedBy(s: Rows, now: Time, e: Event)
    requires !e.Submit?
    ensures HistoryOf(Apply(s, now, e)) == HistoryOf(s)
  {
    LogFrame(s, now, e);
    if InsertEvent(e) {
      InsertFrame(s, now, e);
    }
  }

  lemma {:induction false} NoneAccepted(s: Rows, steps: seq<Step>)
    requires Plain(steps)
    ensures HistoryOf(After(s, steps)) == HistoryOf(s)
  {
    if steps != [] {
      var n := |steps| - 1;
      NoneAccepted(s, steps[..n]);
      NoneAcceptedBy(After(s, steps[..n]), steps[n].now, steps[n].event);
    }
  }

  lemma {:induction false} AfterSplit(s: Rows, a: seq<Step>, b: seq<Step>)
    ensures After(s, a + b) == After(After(s, a), b)
    decreases |b|
  {
    if b == [] {
      assert a + b == a;
    } else {
      var front := b[..|b| - 1];
      AfterSplit(s, a, front);
      assert (a + b)[..|a + b| - 1] == a + front;
    }
  }

  lemma {:induction false} LeadsOn(s: Rows, u: Rows, v: Rows)
    requires Leads(s, u) && Leads(u, v)
    ensures Leads(s, v)
  {
    var a: seq<Step> :| Plain(a) && After(s, a) == u;
    var b: seq<Step> :| Plain(b) && After(u, b) == v;
    AfterSplit(s, a, b);
    assert Plain(a + b);
  }

  lemma {:induction false} LeadsBy(s: Rows, now: Time, e: Event) returns (v: Rows)
    requires !e.Submit? && ByZero(e)
    ensures v == Apply(s, now, e) && Leads(s, v)
  {
    var steps := [Step(now, e)];
    assert steps[..0] == [];
    v := Apply(s, now, e);
    assert Plain(steps) && After(s, steps) == v;
  }

  lemma {:induction false} Then(s: Rows, u: Rows, now: Time, e: Event, v: Rows)
    requires Leads(s, u) && !e.Submit? && ByZero(e) && v == Apply(u, now, e)
    ensures Leads(s, v)
  {
    var w := LeadsBy(u, now, e);
    LeadsOn(s, u, v);
  }

  lemma {:induction false} LeadsNowhere(s: Rows)
    ensures Leads(s, s)
  {
    assert Plain([]) && After(s, []) == s;
  }

  lemma {:induction false} ThenNode(s: Rows, u: Rows, now: Time)
    requires Leads(s, u)
    ensures Leads(s, DoCommit(DoRunNode(u, now, 0), 0))
  {
    var m := DoRunNode(u, now, 0);
    Then(s, u, now, RunNode(0), m);
    ThenCommit(s, m, now);
  }

  lemma {:induction false} ThenCommit(s: Rows, u: Rows, now: Time)
    requires Leads(s, u)
    ensures Leads(s, DoCommit(u, 0))
  {
    Then(s, u, now, Commit(0), DoCommit(u, 0));
  }

  lemma {:induction false} NodeRunsLead(s: Rows, u: Rows, n: nat, m: nat, clock: Clock)
    requires Leads(s, u)
    ensures Leads(s, NodeRuns(u, n, m, clock))
    decreases m - n
  {
    if n < m {
      ThenNode(s, u, clock(n + 1));
      NodeRunsLead(s, DoCommit(DoRunNode(u, clock(n + 1), 0), 0), n + 1, m, clock);
    }
  }

  lemma {:induction false} ThenChoose(s: Rows, now: Time, worker: string) returns (u: Rows)
    ensures u == DoChoose(DoLook(DoClaim(s, now, 0, worker), 0), 0) && Leads(s, u)
  {
    LeadsNowhere(s);
    var a := DoClaim(s, now, 0, worker);
    Then(s, s, now, Claim(0, worker), a);
    var b := ThenLook(s, a, now);
    u := DoChoose(b, 0);
    Then(s, b, now, Choose(0), u);
  }

  lemma {:induction false} ThenLook(s: Rows, u: Rows, now: Time) returns (v: Rows)
    requires Leads(s, u)
    ensures v == DoLook(u, 0) && Leads(s, v)
  {
    v := DoLook(u, 0);
    Then(s, u, now, Look(0), v);
  }

  lemma {:induction false} ThenSave(s: Rows, u: Rows, now: Time)
    requires Leads(s, u)
    ensures Leads(s, DoSave(u, now, 0))
  {
    Then(s, u, now, Save(0), DoSave(u, now, 0));
  }

  /** The runner's step as the engine takes it is a run of committed steps. */
  lemma {:induction false} EngineStepLeads(s: Rows, worker: string, nodes: nat, clock: Clock)
    ensures Leads(s, EngineStep(s, worker, nodes, clock))
  {
    var u := ThenChoose(s, clock(0), worker);
    NodeRunsLead(s, u, 0, nodes, clock);
    ThenSave(s, NodeRuns(u, 0, nodes, clock), clock(nodes + 1));
  }

  lemma {:induction false} ThenSideEffect(s: Rows, u: Rows)
    requires Leads(s, u)
    ensures Leads(s, DoSideEffect(u, 0))
  {
    Then(s, u, 0, SideEffect(0), DoSideEffect(u, 0));
  }

  lemma {:induction false} DeliveredLeads(s: Rows, u: Rows, n: nat)
    requires Leads(s, u)
    ensures Leads(s, Delivered(u, n))
    decreases n
  {
    if n > 0 {
      ThenSideEffect(s, u);
      DeliveredLeads(s, DoSideEffect(u, 0), n - 1);
    }
  }

  lemma {:induction false} ThenAnswer(s: Rows, u: Rows, answer: Answer, now: Time)
    requires Leads(s, u)
    ensures answer.Reply? ==> Leads(s, DoAgentReply(u, 0, answer.result))
    ensures !answer.Reply? ==> Leads(s, DoTaskError(u, now, 0, answer.error, answer.Permanent?))
  {
    if answer.Reply? {
      Then(s, u, now, AgentReply(0, answer.result), DoAgentReply(u, 0, answer.result));
    } else {
      Then(s, u, now, TaskError(0, answer.error, answer.Permanent?),
           DoTaskError(u, now, 0, answer.error, answer.Permanent?));
    }
  }

  lemma {:induction false} EngineActsLead(s: Rows, u: Rows, queue: Queue, p: Payload, answer: Answer, now: Time)
    requires Leads(s, u)
    ensures Leads(s, EngineActs(u, queue, p, answer, now))
  {
    if queue.SideEffectQueue? && p.FinalizePayload? {
      DeliveredLeads(s, u, Commits(p));
      ThenSideEffect(s, Delivered(u, Commits(p)));
    } else {
      ThenAnswer(s, u, answer, now);
    }
  }

  lemma {:induction false} ThenDequeue(s: Rows, now: Time, key: Key, queue: Queue, worker: string) returns (u: Rows)
    ensures u == DoDequeue(s, now, 0, key, queue, worker) && Leads(s, u)
  {
    LeadsNowhere(s);
    u := DoDequeue(s, now, 0, key, queue, worker);
    Then(s, s, now, Dequeue(0, key, queue, worker), u);
  }

  lemma {:induction false} ThenWake(s: Rows, u: Rows, now: Time)
    requires Leads(s, u)
    ensures Leads(s, DoWake(u, now, 0))
  {
    Then(s, u, now, Wake(0), DoWake(u, now, 0));
  }

  /** So is a worker's handling of a task. */
  lemma {:induction false} EngineWorkLeads(
    s: Rows, key: Key, queue: Queue, worker: string, p: Payload, answer: Answer, clock: Clock)
    ensures Leads(s, EngineWork(s, key, queue, worker, p, answer, clock))
  {
    var a := ThenDequeue(s, clock(0), key, queue, worker);
    EngineActsLead(s, a, queue, p, answer, clock(1));
    ThenWake(s, EngineActs(a, queue, p, answer, clock(1)), clock(2));
  }

  lemma {:induction false} ThenSeed(s: Rows, ticket: Ticket) returns (u: Rows)
    ensures u == DoSeed(s, 0, ticket) && Leads(s, u)
  {
    LeadsNowhere(s);
    u := DoSeed(s, 0, ticket);
    Then(s, s, 0, SeedTicket(0, ticket), u);
  }

  lemma {:induction false} ThenInsert(s: Rows, u: Rows, now: Time)
    requires Leads(s, u)
    ensures Leads(s, DoInsertRun(u, now, 0))
  {
    Then(s, u, now, InsertRun(0), DoInsertRun(u, now, 0));
  }

  /** So is creating a ticket. */
  lemma {:induction false} CreatingLeads(s: Rows, ticket: Ticket, nodes: nat, clock: Clock)
    ensures Leads(s, DoInsertRun(NodeRuns(DoSeed(s, 0, ticket), 0, nodes, clock), clock(nodes + 1), 0))
  {
    var a := ThenSeed(s, ticket);
    NodeRunsLead(s, a, 0, nodes, clock);
    ThenInsert(s, NodeRuns(a, 0, nodes, clock), clock(nodes + 1));
  }

  // ----- processes that stand idle

  // The same rows with other processes beside process 0.
  function Beside(s: Rows, idle: map<nat, Actor>): Rows {
    s.(actors := s.actors + idle)
  }

  // Process 0 of `before` becomes what it is in `after`, or goes.
  lemma {:induction false} BesideMoves(before: map<nat, Actor>, after: map<nat, Actor>, idle: map<nat, Actor>)
    requires 0 !in idle
    ensures 0 in after ==> (before + idle)[0 := after[0]] == before[0 := after[0]] + idle
    ensures (before + idle) - {0} == before - {0} + idle
    ensures 0 in before + idle <==> 0 in before
    ensures 0 in before ==> (before + idle)[0] == before[0]
  {
  }

  lemma {:induction false} SeedBeside(s: Rows, ticket: Ticket, idle: map<nat, Actor>)
    requires 0 !in idle
    ensures DoSeed(Beside(s, idle), 0, ticket) == Beside(DoSeed(s, 0, ticket), idle)
  {
    BesideMoves(s.actors, DoSeed(s, 0, ticket).actors, idle);
  }

  lemma {:induction false} NodeBeside(s: Rows, now: Time, idle: map<nat, Actor>)
    requires 0 !in idle
    ensures DoRunNode(Beside(s, idle), now, 0) == Beside(DoRunNode(s, now, 0), idle)
  {
    BesideMoves(s.actors, DoRunNode(s, now, 0).actors, idle);
  }

  lemma {:induction false} CommitBeside(s: Rows, idle: map<nat, Actor>)
    requires 0 !in idle
    ensures DoCommit(Beside(s, idle), 0) == Beside(DoCommit(s, 0), idle)
  {
    BesideMoves(s.actors, DoCommit(s, 0).actors, idle);
  }

  lemma {:induction false} GraphBeside(s: Rows, now: Time, e: Event, idle: map<nat, Actor>)
    requires ByZero(e) && 0 !in idle && GraphEvent(e)
    ensures ApplyGraph(Beside(s, idle), now, e) == Beside(ApplyGraph(s, now, e), idle)
  {
    match e
    case SeedTicket(_, ticket) => SeedBeside(s, ticket, idle);
    case RunNode(_) => NodeBeside(s, now, idle);
    case Commit(_) => CommitBeside(s, idle);
  }

  lemma {:induction false} InsertBeside(s: Rows, now: Time, e: Event, idle: map<nat, Actor>)
    requires ByZero(e) && 0 !in idle && InsertEvent(e)
    ensures ApplyInsert(Beside(s, idle), now, e) == Beside(ApplyInsert(s, now, e), idle)
  {
    if !e.Submit? {
      BesideMoves(s.actors, ApplyInsert(s, now, e).actors, idle);
    }
  }

  lemma {:induction false} ChooseBeside(s: Rows, idle: map<nat, Actor>)
    requires 0 !in idle
    ensures DoChoose(Beside(s, idle), 0) == Beside(DoChoose(s, 0), idle)
  {
    BesideMoves(s.actors, DoChoose(s, 0).actors, idle);
  }

  lemma {:induction false} RunnerBeside(s: Rows, now: Time, e: Event, idle: map<nat, Actor>)
    requires ByZero(e) && 0 !in idle && RunnerEvent(e)
    ensures ApplyRunner(Beside(s, idle), now, e) == Beside(ApplyRunner(s, now, e), idle)
  {
    if e.Choose? {
      ChooseBeside(s, idle);
    } else {
      BesideMoves(s.actors, ApplyRunner(s, now, e).actors, idle);
    }
  }

  lemma {:induction false} SideEffectBeside(s: Rows, idle: map<nat, Actor>)
    requires 0 !in idle
    ensures DoSideEffect(Beside(s, idle), 0) == Beside(DoSideEffect(s, 0), idle)
  {
    BesideMoves(s.actors, DoSideEffect(s, 0).actors, idle);
  }

  lemma {:induction false} ErrorBeside(
    s: Rows, now: Time, error: string, permanent: bool, idle: map<nat, Actor>)
    requires 0 !in idle
    ensures DoTaskError(Beside(s, idle), now, 0, error, permanent)
            == Beside(DoTaskError(s, now, 0, error, permanent), idle)
  {
    BesideMoves(s.actors, DoTaskError(s, now, 0, error, permanent).actors, idle);
  }

  lemma {:induction false} WorkBeside(s: Rows, now: Time, e: Event, idle: map<nat, Actor>)
    requires ByZero(e) && 0 !in idle && WorkEvent(e)
    ensures ApplyWork(Beside(s, idle), now, e) == Beside(ApplyWork(s, now, e), idle)
  {
    if e.SideEffect? {
      SideEffectBeside(s, idle);
    } else if e.TaskError? {
      ErrorBeside(s, now, e.error, e.permanent, idle);
    } else {
      BesideMoves(s.actors, ApplyWork(s, now, e).actors, idle);
    }
  }

  lemma {:induction false} LeaveBeside(s: Rows, now: Time, e: Event, idle: map<nat, Actor>)
    requires ByZero(e) && 0 !in idle && (e.Archive? || e.DeleteThread? || e.Crash?)
    ensures ApplyUpkeep(Beside(s, idle), now, e) == Beside(ApplyUpkeep(s, now, e), idle)
  {
    BesideMoves(s.actors, ApplyUpkeep(s, now, e).actors, idle);
  }

  lemma {:induction false} SweepBeside(s: Rows, now: Time, e: Event, idle: map<nat, Actor>)
    requires UpkeepEvent(e) && !(e.Archive? || e.DeleteThread? || e.Crash?)
    ensures ApplyUpkeep(Beside(s, idle), now, e) == Beside(ApplyUpkeep(s, now, e), idle)
  {
  }

  lemma {:induction false} StepBeside(s: Rows, now: Time, e: Event, idle: map<nat, Actor>)
    requires ByZero(e) && 0 !in idle
    ensures Apply(Beside(s, idle), now, e) == Beside(Apply(s, now, e), idle)
  {
    if GraphEvent(e) {
      GraphBeside(s, now, e, idle);
    } else if InsertEvent(e) {
      InsertBeside(s, now, e, idle);
    } else if RunnerEvent(e) {
      RunnerBeside(s, now, e, idle);
    } else if WorkEvent(e) {
      WorkBeside(s, now, e, idle);
    } else if e.Archive? || e.DeleteThread? || e.Crash? {
      LeaveBeside(s, now, e, idle);
    } else {
      SweepBeside(s, now, e, idle);
    }
  }

  /** Processes that do nothing change nothing for those that do. */
  lemma {:induction false} IdleBeside(s: Rows, steps: seq<Step>, idle: map<nat, Actor>)
    requires Plain(steps) && 0 !in idle
    ensures After(Beside(s, idle), steps) == Beside(After(s, steps), idle)
  {
    if steps != [] {
      var n := |steps| - 1;
      IdleBeside(s, steps[..n], idle);
      StepBeside(After(s, steps[..n]), steps[n].now, steps[n].event, idle);
    }
  }

  // ----- tables some run of the engine leads to

  // Some run leads to these rows, with these processes idle beside process 0.
  ghost predicate Comes(id: Id, s: Rows, idle: map<nat, Actor>) {
    exists steps: seq<Step> :: After(Fresh(id), steps) == Beside(s, idle)
  }

  ghost predicate ReachedBy(t: Contents, id: Id, h: History, idle: map<nat, Actor>, s: Rows) {
    InStep(t, id, s, None) && 0 !in idle && Comes(id, s, idle) && HistoryOf(s) == h
  }

  // The ticket's part of the tables is what some run with this history leaves.
  ghost predicate Reached(t: Contents, id: Id, h: History, idle: map<nat, Actor>) {
    exists s :: ReachedBy(t, id, h, idle, s)
  }

  lemma {:induction false} ReachesOn(t: Contents, id: Id, s: Rows, v: Rows, idle: map<nat, Actor>)
    requires Comes(id, s, idle) && 0 !in idle && Leads(s, v) && InStep(t, id, v, None)
    ensures Reached(t, id, HistoryOf(s), idle)
  {
    var a: seq<Step> :| After(Fresh(id), a) == Beside(s, idle);
    var b: seq<Step> :| Plain(b) && After(s, b) == v;
    AfterSplit(Fresh(id), a, b);
    NoneAccepted(s, b);
    IdleBeside(s, b, idle);
    assert After(Fresh(id), a + b) == Beside(v, idle);
    assert ReachedBy(t, id, HistoryOf(s), idle, v);
  }

  lemma {:induction false} OthersReach(t: Contents, u: Contents, id: Id, j: Id, h: History, idle: map<nat, Actor>)
    requires Elsewhere(t, u, id) && j != id && Reached(t, j, h, idle)
    ensures Reached(u, j, h, idle)
  {
    var s :| ReachedBy(t, j, h, idle, s);
    var taskIds, signalIds: nat := u.tasks.nextId - t.tasks.nextId, u.nextSignal - t.nextSignal;
    OthersSkipSerials(t, u, id, j);
    SkippedInStep(t, u, j, s, taskIds, signalIds);
    ThenSerials(s, taskIds, signalIds);
    ReachesOn(u, j, s, DoSerials(s, taskIds, signalIds), idle);
  }

  lemma {:induction false} SkippedInStep(t: Contents, u: Contents, j: Id, s: Rows, taskIds: nat, signalIds: nat)
    requires RowsOf(u, j) == DoSerials(RowsOf(t, j), taskIds, signalIds) && InStep(t, j, s, None)
    ensures InStep(u, j, DoSerials(s, taskIds, signalIds), None)
  {
  }

  lemma {:induction false} ThenSerials(s: Rows, taskIds: nat, signalIds: nat)
    ensures Leads(s, DoSerials(s, taskIds, signalIds))
  {
    LeadsNowhere(s);
    Then(s, s, 0, Serials(taskIds, signalIds), DoSerials(s, taskIds, signalIds));
  }

  /** A runner's step leaves every ticket where some run of the engine does. */
  lemma {:induction false} StepReaches(
    t: Contents, id: Id, worker: string, clock: Clock, j: Id, h: History, idle: map<nat, Actor>)
    requires Keyed(t) && IsClaimable(t.runs, clock(0), id) && Reached(t, j, h, idle)
    ensures Reached(StepOn(t, id, worker, clock).tables, j, h, idle)
  {
    var r := StepOn(t, id, worker, clock);
    if j == id {
      var s :| ReachedBy(t, id, h, idle, s);
      StepInStep(t, id, s, worker, clock);
      EngineStepLeads(s, worker, r.nodes, clock);
      ReachesOn(r.tables, id, s, EngineStep(s, worker, r.nodes, clock), idle);
    } else {
      StepElsewhere(t, id, worker, clock);
      OthersReach(t, r.tables, id, j, h, idle);
    }
  }

  /** So does a worker's handling of a task. */
  lemma {:induction false} WorkReaches(
    t: Contents, key: Key, queue: Queue, worker: string, agent: Payload -> Answer, clock: Clock, j: Id, h: History,
    idle: map<nat, Actor>)
    requires Keyed(t) && UniqueIds(t.tasks) && IsDue(t.tasks, clock(0), queue, key) && Reached(t, j, h, idle)
    requires forall p: Payload :: agent(p).Reply? ==> Answers(agent(p).result, p)
    ensures Reached(WorkOn(t, key, queue, worker, agent, clock), j, h, idle)
  {
    var u := WorkOn(t, key, queue, worker, agent, clock);
    if j == key.ticket {
      var s :| ReachedBy(t, j, h, idle, s);
      var p := t.tasks.rows[key].payload;
      WorkInStep(t, key, s, queue, worker, agent, clock);
      EngineWorkLeads(s, key, queue, worker, p, AnswerOf(queue, p, agent), clock);
      ReachesOn(u, j, s, EngineWork(s, key, queue, worker, p, AnswerOf(queue, p, agent), clock), idle);
    } else {
      WorkElsewhere(t, key, queue, worker, agent, clock);
      OthersReach(t, u, key.ticket, j, h, idle);
    }
  }

  lemma {:induction false} SubmitComes(id: Id, s: Rows, idle: map<nat, Actor>, decision: Decision, now: Time)
    requires Comes(id, s, idle) && 0 !in idle
    ensures Comes(id, DoSubmit(s, now, decision), idle)
  {
    var a: seq<Step> :| After(Fresh(id), a) == Beside(s, idle);
    var b := [Step(now, Submit(decision))];
    AfterSplit(Fresh(id), a, b);
    StepBeside(s, now, Submit(decision), idle);
    assert b[..0] == [];
    assert After(Beside(s, idle), b) == Beside(DoSubmit(s, now, decision), idle);
    assert After(Fresh(id), a + b) == Beside(DoSubmit(s, now, decision), idle);
  }

  function Accepting(t: Contents, id: Id, h: History, decision: Decision): History {
    History(h.accepted + [decision], h.shown + [DraftInThread(Lookup(t.threads, id))])
  }

  lemma {:induction false} SubmitJoins(t: Contents, id: Id, s: Rows, decision: Decision, now: Time)
    requires Open(t, id) && InStep(t, id, s, None)
    ensures HistoryOf(DoSubmit(s, now, decision)) == Accepting(t, id, HistoryOf(s), decision)
  {
    OpenIsAccepts(t, id, s);
  }

  lemma {:induction false} SubmitElsewhere(t: Contents, id: Id, decision: Decision, now: Time)
    requires Open(t, id)
    requires forall i :: i in t.signals ==> i < t.nextSignal
    ensures Elsewhere(t, SubmitOn(t, id, decision, now), id)
  {
    assert forall k: Id :: EffectsOf(t, k) == EffectsOf(SubmitOn(t, id, decision, now), k);
  }

  /** And an accepted decision, which joins the history. */
  lemma {:induction false} SubmitReaches(
    t: Contents, id: Id, decision: Decision, now: Time, j: Id, h: History, idle: map<nat, Actor>)
    requires Open(t, id) && Reached(t, j, h, idle)
    requires forall i :: i in t.signals ==> i < t.nextSignal
    ensures Reached(SubmitOn(t, id, decision, now), j, if j == id then Accepting(t, id, h, decision) else h, idle)
  {
    var u := SubmitOn(t, id, decision, now);
    if j == id {
      var s :| ReachedBy(t, j, h, idle, s);
      SubmitInStep(t, id, s, decision, now);
      SubmitJoins(t, id, s, decision, now);
      SubmitComes(id, s, idle, decision, now);
      assert ReachedBy(u, id, Accepting(t, id, h, decision), idle, DoSubmit(s, now, decision));
    } else {
      SubmitElsewhere(t, id, decision, now);
      OthersReach(t, u, id, j, h, idle);
    }
  }

  // Nothing in the tables is about this ticket.
  ghost predicate Unused(t: Contents, id: Id) {
    exists taskIds: nat, signalIds: nat ::
      InStep(t, id, DoSerials(Fresh(id), taskIds, signalIds), None)
  }

  /** And a new ticket, with an empty history. */
  lemma {:induction false} CreateReaches(t: Contents, ticket: Ticket, clock: Clock)
    requires Keyed(t) && Unused(t, ticket.id)
    ensures Reached(CreateOn(t, ticket, clock), ticket.id, History([], []), map[])
  {
    var id := ticket.id;
    var taskIds: nat, signalIds: nat :| InStep(t, id, DoSerials(Fresh(id), taskIds, signalIds), None);
    var s := SkippedComes(id, taskIds, signalIds);
    CreateInStep(t, s, ticket, clock);
    CreatingLeads(s, ticket, 3, clock);
    var v := DoInsertRun(NodeRuns(DoSeed(s, 0, ticket), 0, 3, clock), clock(4), 0);
    ReachesOn(CreateOn(t, ticket, clock), id, s, v, map[]);
  }

  // A ticket that is not there yet, some serial numbers on.
  lemma {:induction false} SkippedComes(id: Id, taskIds: nat, signalIds: nat) returns (s: Rows)
    ensures s == DoSerials(Fresh(id), taskIds, signalIds) && Comes(id, s, map[])
    ensures !s.log.born && HistoryOf(s) == History([], [])
  {
    s := DoSerials(Fresh(id), taskIds, signalIds);
    ThenSerials(Fresh(id), taskIds, signalIds);
    var steps: seq<Step> :| Plain(steps) && After(Fresh(id), steps) == s;
    assert Beside(s, map[]) == s;
  }

  // ----- passes over all tickets

  // One process archives the run and deletes the thread.
  lemma {:induction false} ArchiveMoves(s: Rows, now: Time, maxAge: Time)
    requires s.actors == map[]
    ensures DoDeleteThread(DoArchive(s, now, 0, maxAge, false), 0)
            == if s.run.Some? && Archivable(s.run.value, now, maxAge) && s.archived.None?
               then s.(run := None, archived := s.run, cp := None) else s
  {
    assert map[0 := Deleting] - {0} == s.actors;
  }

  lemma {:induction false} ArchiveInStep(t: Contents, id: Id, s: Rows, now: Time, maxAge: Time)
    requires InStep(t, id, s, None) && !ArchiveClash(t, now, maxAge)
    ensures InStep(ArchivedOn(t, now, maxAge), id, DoDeleteThread(DoArchive(s, now, 0, maxAge, false), 0), None)
  {
    ArchiveMoves(s, now, maxAge);
    ArchivedRows(t, id, now, maxAge);
  }

  lemma {:induction false} ArchivedRows(t: Contents, id: Id, now: Time, maxAge: Time)
    requires !ArchiveClash(t, now, maxAge)
    ensures var r := RowsOf(t, id);
            RowsOf(ArchivedOn(t, now, maxAge), id)
            == if r.run.Some? && Archivable(r.run.value, now, maxAge) && r.archived.None?
               then r.(run := None, archived := r.run, cp := None) else r
  {
    var due := DueForArchive(t.runs, now, maxAge);
    assert id in due && id in t.archive ==> id in due * t.archive.Keys;
    assert EffectsOf(ArchivedOn(t, now, maxAge), id) == EffectsOf(t, id);
  }

  function Pruned(s: Rows, signalsNow: Time, tasksNow: Time, maxAge: Time): Rows {
    s.(signals := PruneConsumed(s.signals, signalsNow, maxAge), tasks := PruneSettled(s.tasks, tasksNow, maxAge))
  }

  lemma {:induction false} PruneInStep(t: Contents, id: Id, s: Rows, signalsNow: Time, tasksNow: Time, maxAge: Time)
    requires InStep(t, id, s, None)
    ensures InStep(PrunedOn(t, signalsNow, tasksNow, maxAge), id, Pruned(s, signalsNow, tasksNow, maxAge), None)
  {
    SignalsLocal(t.signals, signalsNow, 0, maxAge, id);
    SweepsLocal(t.tasks, tasksNow, maxAge, id);
    assert EffectsOf(PrunedOn(t, signalsNow, tasksNow, maxAge), id) == EffectsOf(t, id);
  }

  lemma {:induction false} ThenPrune(s: Rows, u: Rows, signalsNow: Time, tasksNow: Time, maxAge: Time)
    requires Leads(s, u)
    ensures Leads(s, Pruned(u, signalsNow, tasksNow, maxAge))
  {
    var v := u.(signals := PruneConsumed(u.signals, signalsNow, maxAge));
    Then(s, u, signalsNow, PruneSignals(maxAge), v);
    Then(s, v, tasksNow, PruneTasks(maxAge), Pruned(u, signalsNow, tasksNow, maxAge));
  }

  lemma {:induction false} ThenArchive(s: Rows, now: Time, maxAge: Time)
    ensures Leads(s, DoDeleteThread(DoArchive(s, now, 0, maxAge, false), 0))
  {
    LeadsNowhere(s);
    var u := DoArchive(s, now, 0, maxAge, false);
    Then(s, s, now, Archive(0, maxAge, false), u);
    ThenDelete(s, u, now);
  }

  lemma {:induction false} ThenDelete(s: Rows, u: Rows, now: Time)
    requires Leads(s, u)
    ensures Leads(s, DoDeleteThread(u, 0))
  {
    Then(s, u, now, DeleteThread(0), DoDeleteThread(u, 0));
  }

  /** And a retention pass. */
  lemma {:induction false} RetentionReaches(
    t: Contents, clock: Clock, maxAge: Time, j: Id, h: History, idle: map<nat, Actor>)
    requires !ArchiveClash(t, clock(0), maxAge) && Reached(t, j, h, idle)
    ensures Reached(Retained(t, clock, maxAge), j, h, idle)
  {
    var s :| ReachedBy(t, j, h, idle, s);
    var u := ArchivedOn(t, clock(0), maxAge);
    var v := DoDeleteThread(DoArchive(s, clock(0), 0, maxAge, false), 0);
    ArchiveInStep(t, j, s, clock(0), maxAge);
    PruneInStep(u, j, v, clock(1), clock(2), maxAge);
    ThenArchive(s, clock(0), maxAge);
    ThenPrune(s, v, clock(1), clock(2), maxAge);
    ReachesOn(Retained(t, clock, maxAge), j, s, Pruned(v, clock(1), clock(2), maxAge), idle);
  }

  lemma {:induction false} JanitorInStep(t: Contents, id: Id, s: Rows, tasksNow: Time, runsNow: Time)
    requires InStep(t, id, s, None)
    ensures InStep(Reclaimed(t, tasksNow, runsNow), id,
                   DoReclaimRuns(s.(tasks := ReclaimExpired(s.tasks, tasksNow)), runsNow), None)
  {
    SweepsLocal(t.tasks, tasksNow, 0, id);
    assert EffectsOf(Reclaimed(t, tasksNow, runsNow), id) == EffectsOf(t, id);
  }

  lemma {:induction false} ThenReclaim(s: Rows, tasksNow: Time, runsNow: Time)
    ensures Leads(s, DoReclaimRuns(s.(tasks := ReclaimExpired(s.tasks, tasksNow)), runsNow))
  {
    LeadsNowhere(s);
    var u := s.(tasks := ReclaimExpired(s.tasks, tasksNow));
    Then(s, s, tasksNow, ReclaimTasks, u);
    Then(s, u, runsNow, ReclaimRuns, DoReclaimRuns(u, runsNow));
  }

  /** And a janitor pass. */
  lemma {:induction false} JanitorReaches(
    t: Contents, tasksNow: Time, runsNow: Time, j: Id, h: History, idle: map<nat, Actor>)
    requires Reached(t, j, h, idle)
    ensures Reached(Reclaimed(t, tasksNow, runsNow), j, h, idle)
  {
    var s :| ReachedBy(t, j, h, idle, s);
    JanitorInStep(t, j, s, tasksNow, runsNow);
    ThenReclaim(s, tasksNow, runsNow);
    ReachesOn(Reclaimed(t, tasksNow, runsNow), j, s,
              DoReclaimRuns(s.(tasks := ReclaimExpired(s.tasks, tasksNow)), runsNow), idle);
  }

  lemma {:induction false} RebuildInStep(t: Contents, runs: map<Id, Run>, id: Id, s: Rows)
    requires InStep(t, id, s, None) && Rebuilt(t, runs, Stranded(t)) && id in Stranded(t)
    ensures id in runs
            && InStep(t.(runs := runs), id, DoInsertRun(DoReadOrphan(DoListOrphan(s, 0), 0), runs[id].createdAt, 0),
                      None)
  {
    assert EffectsOf(t.(runs := runs), id) == EffectsOf(t, id);
    assert id in runs && Projects(runs[id], t.threads[id]);
  }

  lemma {:induction false} ThenRebuild(s: Rows, now: Time)
    ensures Leads(s, DoInsertRun(DoReadOrphan(DoListOrphan(s, 0), 0), now, 0))
  {
    LeadsNowhere(s);
    var a := DoListOrphan(s, 0);
    Then(s, s, now, ListOrphan(0), a);
    var b := DoReadOrphan(a, 0);
    Then(s, a, now, ReadOrphan(0), b);
    ThenInsert(s, b, now);
  }

  /** And a pass that rebuilds run rows. */
  lemma {:induction false} ReconcileReaches(t: Contents, runs: map<Id, Run>, j: Id, h: History, idle: map<nat, Actor>)
    requires Rebuilt(t, runs, Stranded(t)) && Reached(t, j, h, idle)
    ensures Reached(t.(runs := runs), j, h, idle)
  {
    var s :| ReachedBy(t, j, h, idle, s);
    if j in Stranded(t) {
      RebuildInStep(t, runs, j, s);
      ThenRebuild(s, runs[j].createdAt);
      ReachesOn(t.(runs := runs), j, s, DoInsertRun(DoReadOrphan(DoListOrphan(s, 0), 0), runs[j].createdAt, 0), idle);
    } else {
      assert Lookup(runs, j) == Lookup(t.runs, j);
      assert EffectsOf(t.(runs := runs), j) == EffectsOf(t, j);
      assert ReachedBy(t.(runs := runs), j, h, idle, s);
    }
  }

  // ----- so the tables themselves agree

  // The rows, with the idle processes, satisfy the engine's invariants.
  lemma {:induction false} ReachedInv(t: Contents, id: Id, h: History, idle: map<nat, Actor>) returns (s: Rows)
    requires Reached(t, id, h, idle)
    ensures SameTables(RowsOf(t, id), s) && Inv(s) && ShownOk(s) && s.id == id && HistoryOf(s) == h && s.actors == idle
  {
    var v :| ReachedBy(t, id, h, idle, v);
    s := ComesInv(id, v, idle);
  }

  lemma {:induction false} ComesInv(id: Id, v: Rows, idle: map<nat, Actor>) returns (s: Rows)
    requires Comes(id, v, idle)
    ensures s == Beside(v, idle) && Inv(s) && ShownOk(s)
  {
    s := Beside(v, idle);
    var steps: seq<Step> :| After(Fresh(id), steps) == s;
    AlwaysInv(id, steps);
    AlwaysShown(id, steps);
  }

  /** A refund rests on the first decision accepted: an approval, accepted while the thread held the
      draft whose action the refund is. The decision a checkpoint carries is the first accepted too. */
  lemma {:induction false} RefundRestsOnFirst(t: Contents, id: Id, h: History, idle: map<nat, Actor>)
    requires Reached(t, id, h, idle)
    ensures |h.accepted| == |h.shown|
    ensures id in t.refunds ==>
              && h.accepted != [] && h.accepted[0].approved
              && h.shown[0].Some? && h.shown[0].value.action == Refund(t.refunds[id])
    ensures id in t.threads && t.threads[id].st.decision.Some? ==>
              h.accepted != [] && t.threads[id].st.decision.value == h.accepted[0]
  {
    var s := ReachedInv(t, id, h, idle);
    if id in t.refunds {
      RefundRestsOnShown(s);
    }
    if id in t.threads && t.threads[id].st.decision.Some? {
      AppliedIsFirst(s, t.threads[id].st.decision.value);
    }
  }

  lemma {:induction false} LedgersAgree(s: Rows)
    requires TablesOk(s)
    ensures s.fx.result.Some? ==>
              && s.fx.reply.Some? && s.fx.reply.value.replyText == s.fx.result.value.replyText
              && (s.fx.result.value.refundExecuted <==> s.fx.refund.Some?)
              && s.fx.result.value.ticketId == s.id && s.fx.result.value.status.Terminal()
    ensures s.fx.refund.Some? && s.fx.result.Some? ==> s.fx.result.value.status.Resolved?
  {
  }

  /** A stored result comes with the reply it names, and says a refund was executed exactly when
      the ledger has one; a run row is never ahead of its checkpoint, and no ticket has two
      unconsumed decisions. */
  lemma {:induction false} TablesAgree(t: Contents, id: Id, h: History, idle: map<nat, Actor>)
    requires Reached(t, id, h, idle)
    ensures id in t.results ==>
              && id in t.sentReplies && t.sentReplies[id].replyText == t.results[id].replyText
              && (t.results[id].refundExecuted <==> id in t.refunds)
              && t.results[id].ticketId == id && t.results[id].status.Terminal()
    ensures id in t.refunds && id in t.results ==> t.results[id].status.Resolved?
    ensures id in t.runs && id in t.threads ==> AtLeast(t.threads[id].st.status, t.runs[id].status)
    ensures forall i, j :: Unconsumed(t.signals, i, id) && Unconsumed(t.signals, j, id) ==> i == j
  {
    var s := ReachedInv(t, id, h, idle);
    LedgersAgree(s);
    if id in t.runs && id in t.threads {
      HeldIsBelow(s, t.runs[id].status);
    }
    forall i, j | Unconsumed(t.signals, i, id) && Unconsumed(t.signals, j, id) ensures i == j {
      assert Unconsumed(s.signals, i, id) && Unconsumed(s.signals, j, id);
    }
  }
}
