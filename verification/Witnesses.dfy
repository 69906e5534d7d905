/** Runs that show where a promise of the documentation, or a guarantee without its premise, fails. */
module Witnesses {
  import opened Wrappers
  import opened Models
  import opened TaskQueue
  import opened WorkflowRuns
  import opened Graph
  import opened Engine
  import opened Guarantees
  import opened SafetySteps
  import opened Seeding
  import opened Stranded
  import opened Tables
  import opened Invocations
  import opened Steps
  import opened Api
  import opened Reachable
  import opened Programs
  import opened Progress
  import opened CarriedOut

  // Some run of the engine ends here.
  ghost predicate Arrives(id: Id, s: Rows) {
    exists steps: seq<Step> :: After(Fresh(id), steps) == s
  }

  lemma {:induction false} ArrivesBy(id: Id, s: Rows, now: Time, e: Event, v: Rows)
    requires Arrives(id, s) && v == Apply(s, now, e)
    ensures Arrives(id, v)
  {
    var steps: seq<Step> :| After(Fresh(id), steps) == s;
    var more := steps + [Step(now, e)];
    assert more[..|steps|] == steps;
    assert After(Fresh(id), more) == v;
  }

  // ----- the reconciler's early snapshot

  function EarlySteps(ticket: Ticket, now: Time): seq<Step> {
    [Step(now, SeedTicket(0, ticket)), Step(now, RunNode(0)), Step(now, Commit(0)),
     Step(now, ListOrphan(1)), Step(now, ReadOrphan(1)),
     Step(now, RunNode(0)), Step(now, Commit(0)), Step(now, RunNode(0)), Step(now, Commit(0))]
  }

  // One step more of a list, whose event leads to v.
  lemma {:induction false} OneMore(id: Id, steps: seq<Step>, k: nat, v: Rows)
    requires k < |steps| && v == Apply(After(Fresh(id), steps[..k]), steps[k].now, steps[k].event)
    ensures After(Fresh(id), steps[..k + 1]) == v
  {
    assert steps[..k + 1][..k] == steps[..k];
  }

  // A node run of process 0 and its commit.
  lemma {:induction false} NodeMore(id: Id, steps: seq<Step>, k: nat, s: Rows, now: Time)
    requires k + 2 <= |steps| && steps[k] == Step(now, RunNode(0)) && steps[k + 1] == Step(now, Commit(0))
    requires After(Fresh(id), steps[..k]) == s
    ensures After(Fresh(id), steps[..k + 2]) == DoCommit(DoRunNode(s, now, 0), 0)
  {
    OneMore(id, steps, k, DoRunNode(s, now, 0));
    CommitMore(id, steps, k + 1, DoRunNode(s, now, 0), now);
  }

  lemma {:induction false} CommitMore(id: Id, steps: seq<Step>, k: nat, s: Rows, now: Time)
    requires k < |steps| && steps[k] == Step(now, Commit(0)) && After(Fresh(id), steps[..k]) == s
    ensures After(Fresh(id), steps[..k + 1]) == DoCommit(s, 0)
  {
    OneMore(id, steps, k, DoCommit(s, 0));
  }

  lemma {:induction false} SeedMore(ticket: Ticket, now: Time)
    ensures After(Fresh(ticket.id), EarlySteps(ticket, now)[..1]) == DoSeed(Fresh(ticket.id), 0, ticket)
  {
    var steps := EarlySteps(ticket, now);
    assert steps[..0] == [];
    OneMore(ticket.id, steps, 0, DoSeed(Fresh(ticket.id), 0, ticket));
  }

  lemma {:induction false} StartNode(ticket: Ticket, now: Time) returns (s: Rows)
    ensures s == DoCommit(DoRunNode(DoSeed(Fresh(ticket.id), 0, ticket), now, 0), 0)
    ensures s == Fresh(ticket.id).(cp := Some(Checkpoint(DispatchClassify, Seed(ticket).st, [], None)),
                                   actors := map[0 := Invoking(Caller.Api, None)], log := s.log)
    ensures s.log.born && !s.log.everRun
  {
    s := DoCommit(DoRunNode(DoSeed(Fresh(ticket.id), 0, ticket), now, 0), 0);
  }

  lemma {:induction false} EarlySeed(ticket: Ticket, now: Time) returns (s: Rows)
    ensures s == After(Fresh(ticket.id), EarlySteps(ticket, now)[..3])
    ensures s == Fresh(ticket.id).(cp := Some(Checkpoint(DispatchClassify, Seed(ticket).st, [], None)),
                                   actors := map[0 := Invoking(Caller.Api, None)], log := s.log)
    ensures s.log.born && !s.log.everRun
  {
    SeedMore(ticket, now);
    NodeMore(ticket.id, EarlySteps(ticket, now), 1, DoSeed(Fresh(ticket.id), 0, ticket), now);
    s := StartNode(ticket, now);
  }

  lemma {:induction false} ListMore(id: Id, steps: seq<Step>, k: nat, s: Rows, now: Time)
    requires k < |steps| && steps[k] == Step(now, ListOrphan(1)) && After(Fresh(id), steps[..k]) == s
    ensures After(Fresh(id), steps[..k + 1]) == DoListOrphan(s, 1)
  {
    OneMore(id, steps, k, DoListOrphan(s, 1));
  }

  lemma {:induction false} ReadMore(id: Id, steps: seq<Step>, k: nat, s: Rows, now: Time)
    requires k < |steps| && steps[k] == Step(now, ReadOrphan(1)) && After(Fresh(id), steps[..k]) == s
    ensures After(Fresh(id), steps[..k + 1]) == DoReadOrphan(s, 1)
  {
    OneMore(id, steps, k, DoReadOrphan(s, 1));
  }

  // The reconciler lists the thread and reads its snapshot.
  lemma {:induction false} EarlyRead(ticket: Ticket, now: Time) returns (s: Rows)
    ensures s == After(Fresh(ticket.id), EarlySteps(ticket, now)[..5])
    ensures s == Fresh(ticket.id).(cp := Some(Checkpoint(DispatchClassify, Seed(ticket).st, [], None)), log := s.log,
                                   actors := map[0 := Invoking(Caller.Api, None), 1 := Creating(Received, None, false)])
    ensures s.log.born && !s.log.everRun
  {
    var s3 := EarlySeed(ticket, now);
    ListMore(ticket.id, EarlySteps(ticket, now), 3, s3, now);
    var m := DoListOrphan(s3, 1);
    ReadMore(ticket.id, EarlySteps(ticket, now), 4, m, now);
    s := SnapshotRows(s3);
  }

  lemma {:induction false} SnapshotRows(s: Rows) returns (t: Rows)
    requires s.actors == map[0 := Invoking(Caller.Api, None)] && s.run.None? && s.cp.Some?
    requires s.cp.value.node.DispatchClassify? && s.cp.value.st.status.Received? && s.cp.value.st.wakeupAt.None?
    ensures t == DoReadOrphan(DoListOrphan(s, 1), 1)
    ensures t == s.(actors := map[0 := Invoking(Caller.Api, None), 1 := Creating(Received, None, false)])
  {
    var m := DoListOrphan(s, 1);
    assert m == s.(actors := map[0 := Invoking(Caller.Api, None), 1 := Listed]);
    t := DoReadOrphan(m, 1);
  }

  // The rest of the API's invocation dispatches the classify task and parks on it.
  function Waiting(ticket: Ticket, now: Time): Checkpoint {
    var timer := now + SCHEDULE_TO_START;
    Checkpoint(AwaitClassify, Opening(ticket, timer), [], Some(TaskEnvelope(ClassifyKeyOf(ticket.id), Some(timer))))
  }

  lemma {:induction false} DispatchRows(ticket: Ticket, now: Time, s: Rows) returns (t: Rows)
    requires s == Fresh(ticket.id).(cp := Some(Checkpoint(DispatchClassify, Seed(ticket).st, [], None)), log := s.log,
                                    actors := s.actors)
    requires s.actors == map[0 := Invoking(Caller.Api, None), 1 := Creating(Received, None, false)]
    ensures t == DoCommit(DoRunNode(s, now, 0), 0)
    ensures t == s.(cp := Some(Waiting(ticket, now).(envelope := None)), log := t.log,
                    tasks := Enqueue(EmptyTable, now, ClassifyKeyOf(ticket.id), AgentQueue, ClassifyPayload(ticket)))
    ensures t.log.born == s.log.born && t.log.everRun == s.log.everRun
  {
    var m := DoRunNode(s, now, 0);
    assert InputsOf(s.cp.value, None) == [];
    assert m.actors == map[0 := Ran(Caller.Api, s.cp.value, [], false, now), 1 := Creating(Received, None, false)];
    t := DoCommit(m, 0);
    assert t.actors == s.actors;
  }

  lemma {:induction false} ParkRows(ticket: Ticket, now: Time, s: Rows) returns (t: Rows)
    requires s.cp == Some(Waiting(ticket, now).(envelope := None))
    requires s.actors == map[0 := Invoking(Caller.Api, None), 1 := Creating(Received, None, false)]
    ensures t == DoCommit(DoRunNode(s, now, 0), 0)
    ensures t == s.(cp := Some(Waiting(ticket, now)), log := t.log,
                    actors := map[0 := Creating(Classifying, Some(now + SCHEDULE_TO_START), true),
                                  1 := Creating(Received, None, false)])
    ensures t.log.born == s.log.born && t.log.everRun == s.log.everRun
  {
    var m := DoRunNode(s, now, 0);
    assert InputsOf(s.cp.value, None) == [];
    assert m.actors == map[0 := Ran(Caller.Api, s.cp.value, [], false, now), 1 := Creating(Received, None, false)];
    t := DoCommit(m, 0);
    assert t.actors == map[0 := Creating(Classifying, Some(now + SCHEDULE_TO_START), true),
                           1 := Creating(Received, None, false)];
  }

  /** The reconciler can hold a snapshot from before the first dispatch while the API holds the one
      after it. */
  lemma {:induction false} EarlySnapshotHappens(ticket: Ticket, now: Time)
    ensures var s := After(Fresh(ticket.id), EarlySteps(ticket, now));
            && NeverRun(s) && s.id == ticket.id && s.cp == Some(Waiting(ticket, now)) && s.run.None? && s.archived.None?
            && s.tasks == Enqueue(EmptyTable, now, ClassifyKeyOf(ticket.id), AgentQueue, ClassifyPayload(ticket))
            && s.actors == map[0 := Creating(Classifying, Some(now + SCHEDULE_TO_START), true),
                               1 := Creating(Received, None, false)]
  {
    var steps := EarlySteps(ticket, now);
    var s5 := EarlyRead(ticket, now);
    var s9 := EarlyParked(ticket, now, s5);
    assert steps[..9] == steps;
  }

  lemma {:induction false} EarlyParked(ticket: Ticket, now: Time, s: Rows) returns (t: Rows)
    requires s == After(Fresh(ticket.id), EarlySteps(ticket, now)[..5])
    requires s == Fresh(ticket.id).(cp := Some(Checkpoint(DispatchClassify, Seed(ticket).st, [], None)), log := s.log,
                                    actors := s.actors)
    requires s.actors == map[0 := Invoking(Caller.Api, None), 1 := Creating(Received, None, false)]
    ensures t == After(Fresh(ticket.id), EarlySteps(ticket, now)[..9])
    ensures t == s.(cp := Some(Waiting(ticket, now)), log := t.log,
                    tasks := Enqueue(EmptyTable, now, ClassifyKeyOf(ticket.id), AgentQueue, ClassifyPayload(ticket)),
                    actors := map[0 := Creating(Classifying, Some(now + SCHEDULE_TO_START), true),
                                  1 := Creating(Received, None, false)])
    ensures t.log.born == s.log.born && t.log.everRun == s.log.everRun
  {
    var steps := EarlySteps(ticket, now);
    NodeMore(ticket.id, steps, 5, s, now);
    var s7 := DispatchRows(ticket, now, s);
    NodeMore(ticket.id, steps, 7, s7, now);
    t := ParkRows(ticket, now, s7);
  }

  /** So the two inserts leave different rows, and an insert of the early snapshot leaves a ticket
      that no later run, of whatever length, takes off the primary queue while its task is unsettled. */
  lemma {:induction false} EarlySnapshotStrands(ticket: Ticket, now: Time, steps: seq<Step>)
    requires var s := DoInsertRun(After(Fresh(ticket.id), EarlySteps(ticket, now)), now, 1);
             forall i :: 0 <= i <= |steps| ==> Unsettled(After(s, steps[..i]))
    ensures var s := After(Fresh(ticket.id), EarlySteps(ticket, now));
            && Inserting(s, 0) && Inserting(s, 1) && DoInsertRun(s, now, 0).run != DoInsertRun(s, now, 1).run
    ensures var t := After(DoInsertRun(After(Fresh(ticket.id), EarlySteps(ticket, now)), now, 1), steps);
            && t.run.Some? && t.run.value.status.Received? && t.run.value.wakeupAt.None?
            && t.cp == Some(Waiting(ticket, now)) && t.tasks.rows.Keys == {ClassifyKeyOf(ticket.id)}
  {
    EarlySnapshotHappens(ticket, now);
    var s := DoInsertRun(After(Fresh(ticket.id), EarlySteps(ticket, now)), now, 1);
    assert Stuck(s, Waiting(ticket, now));
    StaysStuck(s, Waiting(ticket, now), steps);
  }

  // ----- a crash between two checkpoints

  // The API crashes after its first node's checkpoint.
  function CrashSteps(ticket: Ticket, now: Time): seq<Step> {
    EarlySteps(ticket, now)[..3] + [Step(now, Crash(0))]
  }

  /** So a crash while a ticket is created can leave it, row rebuilt or not, with no task queued and
      no step that ever queues one. */
  lemma {:induction false} CrashStrands(ticket: Ticket, now: Time, steps: seq<Step>)
    ensures var cp := Checkpoint(DispatchClassify, Seed(ticket).st, [], None);
            && Halted(After(Fresh(ticket.id), CrashSteps(ticket, now)), cp)
            && (var t := After(After(Fresh(ticket.id), CrashSteps(ticket, now)), steps);
                t.cp == Some(cp) || t.cp.None?)
  {
    var cp := Checkpoint(DispatchClassify, Seed(ticket).st, [], None);
    CrashedRows(ticket, now);
    HaltedForGood(After(Fresh(ticket.id), CrashSteps(ticket, now)), cp, steps);
  }

  lemma {:induction false} CrashedRows(ticket: Ticket, now: Time)
    ensures Halted(After(Fresh(ticket.id), CrashSteps(ticket, now)),
                   Checkpoint(DispatchClassify, Seed(ticket).st, [], None))
  {
    var steps := CrashSteps(ticket, now);
    CrashStepsAre(ticket, now);
    var s := EarlySeed(ticket, now);
    CrashMore(ticket.id, steps, 3, s, now);
    DropHalts(s);
  }

  lemma {:induction false} CrashStepsAre(ticket: Ticket, now: Time)
    ensures var steps := CrashSteps(ticket, now);
            && |steps| == 4 && steps[..3] == EarlySteps(ticket, now)[..3] && steps[3] == Step(now, Crash(0))
            && steps[..4] == steps
  {
  }

  lemma {:induction false} DropHalts(s: Rows)
    requires s.actors == map[0 := Invoking(Caller.Api, None)] && s.log.born
    requires s.cp.Some? && s.cp.value.envelope.None?
    ensures Halted(Drop(s, 0), s.cp.value)
  {
  }

  lemma {:induction false} CrashMore(id: Id, steps: seq<Step>, k: nat, s: Rows, now: Time)
    requires k < |steps| && steps[k] == Step(now, Crash(0)) && After(Fresh(id), steps[..k]) == s
    ensures After(Fresh(id), steps[..k + 1]) == Drop(s, 0)
  {
    OneMore(id, steps, k, Drop(s, 0));
  }

  // ----- a runner that outlives its lease

  // The ticket waits for an approver, a decision is in, and no process is about.
  ghost predicate DecisionIn(s: Rows, st: State, envelope: Envelope, d: Decision, signal: nat) {
    && s.actors == map[] && s.archived.None?
    && s.run.Some? && s.run.value.status.AwaitingApproval? && s.run.value.wakeupAt == Some(5)
        && s.run.value.leaseExpiresAt.None?
    && s.cp == Some(Checkpoint(AwaitApproval, st, [], Some(envelope)))
    && st.ticket.id == s.id && st.draft.Some? && st.classification.Some? && st.wakeupAt.Some?
    && ResumeForRun(s.tasks, s.signals, s.nextSignal, envelope, Some(5)) == Some(ResumeValue(Human(d), Some(signal)))
    && (forall i :: Unconsumed(s.signals, i, s.id) ==> i == signal)
  }

  // Runner 0 holds the decision when its lease runs out, and runner 1 claims the run.
  lemma {:induction false} BothClaim(s: Rows, st: State, envelope: Envelope, d: Decision, signal: nat) returns (t: Rows)
    requires Arrives(s.id, s) && DecisionIn(s, st, envelope, d, signal)
    ensures Arrives(s.id, t)
    ensures t == s.(run := t.run, actors := map[0 := Invoking(Caller.Runner(6, Some(signal)), Some(Human(d))),
                                                1 := Claimed(37, AwaitingApproval, Some(5))])
    ensures t.run.Some?
  {
    var a := ClaimRows(s, st, envelope, d, signal);
    var b := LookFirst(a, envelope);
    var c := ChooseRows(b, st, envelope, d, signal);
    t := DoClaim(c, 37, 1, "");
    ArrivesBy(s.id, c, 37, Claim(1, ""), t);
    assert t == s.(run := t.run, actors := c.actors[1 := Claimed(37, AwaitingApproval, Some(5))]);
  }

  lemma {:induction false} LookFirst(s: Rows, envelope: Envelope) returns (t: Rows)
    requires Arrives(s.id, s) && s.actors == map[0 := Claimed(6, AwaitingApproval, Some(5))]
    requires s.cp.Some? && s.cp.value.envelope == Some(envelope)
    ensures Arrives(s.id, t) && t == s.(actors := map[0 := Looked(6, AwaitingApproval, Some(5), Some(envelope))])
  {
    t := DoLook(s, 0);
    ArrivesBy(s.id, s, 6, Look(0), t);
  }

  lemma {:induction false} ClaimRows(s: Rows, st: State, envelope: Envelope, d: Decision, signal: nat) returns (t: Rows)
    requires Arrives(s.id, s) && DecisionIn(s, st, envelope, d, signal)
    ensures Arrives(s.id, t)
    ensures t == s.(run := Some(ClaimRow(s.run.value, 6, "")),
                    actors := map[0 := Claimed(6, AwaitingApproval, Some(5))])
  {
    t := DoClaim(s, 6, 0, "");
    ArrivesBy(s.id, s, 6, Claim(0, ""), t);
  }

  lemma {:induction false} ChooseRows(
    s: Rows, st: State, envelope: Envelope, d: Decision, signal: nat) returns (t: Rows)
    requires Arrives(s.id, s) && s.actors == map[0 := Looked(6, AwaitingApproval, Some(5), Some(envelope))]
    requires ResumeForRun(s.tasks, s.signals, s.nextSignal, envelope, Some(5))
            == Some(ResumeValue(Human(d), Some(signal)))
    ensures Arrives(s.id, t)
    ensures t == s.(actors := map[0 := Invoking(Caller.Runner(6, Some(signal)), Some(Human(d)))])
  {
    t := DoChoose(s, 0);
    ArrivesBy(s.id, s, 6, Choose(0), t);
  }

  // Process 0 runs the thread's node while process 1 stands by.
  lemma {:induction false} NodeRows(
    s: Rows, now: Time, caller: Caller, resume: Option<Resume>, x: Actor, cp: Checkpoint, inputs: seq<Resume>)
    returns (t: Rows)
    requires Arrives(s.id, s) && s.cp == Some(cp) && !cp.node.End? && inputs == InputsOf(cp, resume)
    requires s.actors == map[0 := Invoking(caller, resume), 1 := x]
    requires var txn := NodeTxn(cp, inputs);
             !txn.Redispatch? && !NodeOutcome(cp, inputs, false, now).Raise?
    ensures Arrives(s.id, t)
    ensures var outcome := NodeOutcome(cp, inputs, false, now);
            t == s.(cp := Some(outcome.cp), tasks := ApplyTxn(s.tasks, now, NodeTxn(cp, inputs)), log := t.log,
                    actors := map[0 := ActorAfter(caller, outcome).value, 1 := x])
  {
    var m := RanRows(s, now, caller, resume, x, cp, inputs);
    t := CommitRows(m, now, caller, x, cp, inputs, NodeOutcome(cp, inputs, false, now));
  }

  lemma {:induction false} CommitRows(
    s: Rows, now: Time, caller: Caller, x: Actor, cp: Checkpoint, inputs: seq<Resume>, outcome: Outcome)
    returns (t: Rows)
    requires Arrives(s.id, s) && s.cp == Some(cp) && s.actors == map[0 := Ran(caller, cp, inputs, false, now), 1 := x]
    requires outcome == NodeOutcome(cp, inputs, false, now) && !outcome.Raise?
    ensures Arrives(s.id, t)
    ensures t == s.(cp := Some(outcome.cp), log := t.log, actors := map[0 := ActorAfter(caller, outcome).value, 1 := x])
  {
    t := CommitBesideOne(s, now, caller, x, cp, inputs, outcome);
    ArrivesBy(s.id, s, now, Commit(0), t);
  }

  lemma {:induction false} CommitBesideOne(
    s: Rows, now: Time, caller: Caller, x: Actor, cp: Checkpoint, inputs: seq<Resume>, outcome: Outcome)
    returns (t: Rows)
    requires s.cp == Some(cp) && s.actors == map[0 := Ran(caller, cp, inputs, false, now), 1 := x]
    requires outcome == NodeOutcome(cp, inputs, false, now) && !outcome.Raise?
    ensures t == DoCommit(s, 0)
    ensures t == s.(cp := Some(outcome.cp), log := t.log, actors := map[0 := ActorAfter(caller, outcome).value, 1 := x])
  {
    t := DoCommit(s, 0);
    assert t.actors == s.actors[0 := ActorAfter(caller, outcome).value];
    assert s.actors[0 := ActorAfter(caller, outcome).value] == map[0 := ActorAfter(caller, outcome).value, 1 := x];
  }

  lemma {:induction false} RanRows(
    s: Rows, now: Time, caller: Caller, resume: Option<Resume>, x: Actor, cp: Checkpoint, inputs: seq<Resume>)
    returns (t: Rows)
    requires Arrives(s.id, s) && s.cp == Some(cp) && !cp.node.End? && inputs == InputsOf(cp, resume)
    requires s.actors == map[0 := Invoking(caller, resume), 1 := x]
    requires !NodeTxn(cp, inputs).Redispatch?
    ensures Arrives(s.id, t)
    ensures t == s.(tasks := ApplyTxn(s.tasks, now, NodeTxn(cp, inputs)), log := t.log,
                    actors := map[0 := Ran(caller, cp, inputs, false, now), 1 := x])
  {
    t := NodeBesideOne(s, now, caller, resume, x, cp, inputs);
    ArrivesBy(s.id, s, now, RunNode(0), t);
  }

  lemma {:induction false} NodeBesideOne(
    s: Rows, now: Time, caller: Caller, resume: Option<Resume>, x: Actor, cp: Checkpoint, inputs: seq<Resume>)
    returns (t: Rows)
    requires s.cp == Some(cp) && !cp.node.End? && inputs == InputsOf(cp, resume)
    requires s.actors == map[0 := Invoking(caller, resume), 1 := x]
    requires !NodeTxn(cp, inputs).Redispatch?
    ensures t == DoRunNode(s, now, 0)
    ensures t == s.(tasks := ApplyTxn(s.tasks, now, NodeTxn(cp, inputs)), log := t.log,
                    actors := map[0 := Ran(caller, cp, inputs, false, now), 1 := x])
  {
    t := DoRunNode(s, now, 0);
    assert s.actors[0 := Ran(caller, cp, inputs, false, now)] == map[0 := Ran(caller, cp, inputs, false, now), 1 := x];
  }

  lemma {:induction false} LookRows(s: Rows, x0: Actor) returns (t: Rows)
    requires Arrives(s.id, s) && s.cp.Some? && s.cp.value.envelope.None?
    requires s.actors == map[0 := x0, 1 := Claimed(37, AwaitingApproval, Some(5))]
    ensures Arrives(s.id, t)
    ensures t == s.(actors := map[0 := x0, 1 := Looked(37, AwaitingApproval, Some(5), None)])
  {
    t := DoLook(s, 1);
    ArrivesBy(s.id, s, 37, Look(1), t);
    assert t.actors == map[0 := x0, 1 := Looked(37, AwaitingApproval, Some(5), None)];
  }

  lemma {:induction false} SaveRows(s: Rows, signal: nat, x: Actor) returns (t: Rows)
    requires Arrives(s.id, s) && s.run.Some?
    requires s.actors == map[0 := Saving(6, Rejected, None, Some(signal)), 1 := x]
    ensures Arrives(s.id, t)
    ensures t == s.(run := Some(SaveRow(s.run.value, 38, Rejected, None)), signals := Consume(s.signals, 38, signal),
                    actors := map[1 := x])
  {
    t := DoSave(s, 38, 0);
    ArrivesBy(s.id, s, 38, Save(0), t);
    assert t.actors == map[1 := x];
  }

  // Runner 1 finds nothing to resume with and writes back what it claimed.
  lemma {:induction false} WriteBackRows(s: Rows) returns (t: Rows)
    requires Arrives(s.id, s) && s.run.Some? && s.actors == map[1 := Looked(37, AwaitingApproval, Some(5), None)]
    ensures Arrives(s.id, t)
    ensures t == s.(run := Some(SaveRow(s.run.value, 39, AwaitingApproval, Some(5))), actors := map[])
  {
    var m := DoChoose(s, 1);
    ArrivesBy(s.id, s, 39, Choose(1), m);
    assert m.actors == map[1 := Saving(37, AwaitingApproval, Some(5), None)];
    t := DoSave(m, 39, 1);
    ArrivesBy(s.id, m, 39, Save(1), t);
    assert t.actors == map[];
  }

  lemma {:induction false} LateRun(s: Rows, st: State, envelope: Envelope, d: Decision, signal: nat) returns (t: Rows)
    requires Arrives(s.id, s) && DecisionIn(s, st, envelope, d, signal) && !d.approved
    ensures Arrives(s.id, t) && t.id == s.id && t.archived.None?
    ensures t.run.Some? && t.run.value.status.AwaitingApproval? && t.signals == Consume(s.signals, 38, signal)
    ensures t.cp.Some? && t.cp.value.st.decision == Some(d)
  {
    var t3 := LateLook(s, st, envelope, d, signal);
    var t5 := LateSave(t3, AfterDecision(st, d), signal);
    t := WriteBackRows(t5);
  }

  // Runner 0 writes the rejection; runner 1 looks at the thread before `execute` has parked.
  lemma {:induction false} LateLook(s: Rows, st: State, envelope: Envelope, d: Decision, signal: nat) returns (t: Rows)
    requires Arrives(s.id, s) && DecisionIn(s, st, envelope, d, signal) && !d.approved
    ensures Arrives(s.id, t) && t.id == s.id && t.archived.None? && t.run.Some? && t.signals == s.signals
    ensures t.cp == Some(Reaching(Execute, AfterDecision(st, d)))
    ensures t.actors == map[0 := Invoking(Caller.Runner(6, Some(signal)), None),
                            1 := Looked(37, AwaitingApproval, Some(5), None)]
  {
    var caller := Caller.Runner(6, Some(signal));
    var t1 := BothClaim(s, st, envelope, d, signal);
    var cp1 := Checkpoint(AwaitApproval, st, [], Some(envelope));
    var t2 := NodeRows(t1, 37, caller, Some(Human(d)), Claimed(37, AwaitingApproval, Some(5)), cp1, [Human(d)]);
    assert t2.cp == Some(Reaching(Execute, AfterDecision(st, d)));
    t := LookRows(t2, Invoking(caller, None));
  }

  // Runner 0 runs `execute` and saves.
  lemma {:induction false} LateSave(s: Rows, st: State, signal: nat) returns (t: Rows)
    requires Arrives(s.id, s) && s.run.Some? && s.cp == Some(Reaching(Execute, st))
    requires st.draft.Some? && st.classification.Some? && st.status.Rejected?
    requires s.actors == map[0 := Invoking(Caller.Runner(6, Some(signal)), None),
                             1 := Looked(37, AwaitingApproval, Some(5), None)]
    ensures Arrives(s.id, t) && t.id == s.id && t.archived == s.archived && t.run.Some?
    ensures t.signals == Consume(s.signals, 38, signal) && t.cp.Some? && t.cp.value.st == st
    ensures t.actors == map[1 := Looked(37, AwaitingApproval, Some(5), None)]
  {
    var late := Looked(37, AwaitingApproval, Some(5), None);
    var t4 := NodeRows(s, 37, Caller.Runner(6, Some(signal)), None, late, Reaching(Execute, st), []);
    t := SaveRows(t4, signal, late);
  }

  /** Without `RejectionIsLast`'s premise on leases: the API accepts a decision after a rejection was
      applied. Runner 0 resumes with the rejection after its lease has run out; runner 1, having
      claimed meanwhile, reads the thread between two of runner 0's checkpoints, finds nothing to
      resume with and writes `awaiting_approval` back over runner 0's `rejected`. */
  lemma {:induction false} LateRunnerReopens(ticket: Ticket, c: Classification, d: DraftReply, rejection: Decision)
    requires NeedsApproval(d) && !rejection.approved
    ensures exists steps: seq<Step> ::
              var s := After(Fresh(ticket.id), steps);
              Accepts(s) && s.archived.None? && DecisionsApplied(ticket.id, steps) == [rejection]
  {
    var id := ticket.id;
    var s, st, envelope, signal := WithDecision(ticket, c, d, rejection);
    var t := LateRun(s, st, envelope, rejection, signal);
    Reopened(id, t, rejection, s.signals, signal);
  }

  lemma {:induction false} Reopened(id: Id, t: Rows, rejection: Decision, signals: map<nat, Signal>, signal: nat)
    requires Arrives(id, t) && t.id == id && t.archived.None?
    requires t.run.Some? && t.run.value.status.AwaitingApproval? && t.signals == Consume(signals, 38, signal)
    requires forall i :: Unconsumed(signals, i, id) ==> i == signal
    requires t.cp.Some? && t.cp.value.st.decision == Some(rejection)
    ensures exists steps: seq<Step> ::
              var s := After(Fresh(id), steps);
              Accepts(s) && s.archived.None? && DecisionsApplied(id, steps) == [rejection]
  {
    var steps: seq<Step> :| After(Fresh(id), steps) == t;
    AlwaysInv(id, steps);
    AppliedIsFirst(t, rejection);
    AppliedLogged(id, steps);
    assert forall i :: Unconsumed(t.signals, i, id) ==> Unconsumed(signals, i, id);
  }

  // A ticket that waits for an approver, with a decision in.
  lemma {:induction false} WithDecision(ticket: Ticket, c: Classification, d: DraftReply, decision: Decision)
    returns (s: Rows, st: State, envelope: Envelope, signal: nat)
    requires NeedsApproval(d)
    ensures Arrives(ticket.id, s) && s.id == ticket.id && DecisionIn(s, st, envelope, decision, signal)
  {
    var programs;
    programs, st, envelope, signal := DecisionMade(ticket, c, d, decision);
    s := ReachedRows(programs, ticket.id);
    DecisionRows(PerformAll(programs), ticket.id, s, st, envelope, decision, signal);
  }

  // The tables hold a ticket that waits for an approver, with a decision in.
  ghost predicate DecisionStored(t: Contents, id: Id, st: State, envelope: Envelope, d: Decision, signal: nat) {
    && Stands(t, id, AwaitApproval, st, envelope, Some(5)) && st.status.AwaitingApproval? && t.archive == map[]
    && st.draft.Some? && st.classification.Some? && st.wakeupAt.Some?
    && envelope == ApprovalEnvelope(id, st.wakeupAt, st.draft.value)
    && (forall i :: Unconsumed(t.signals, i, id) ==> i == signal)
    && AwaitsApprover(t, id) && OldestDecision(t, id, signal, d)
  }

  lemma {:induction false} DecisionMade(ticket: Ticket, c: Classification, d: DraftReply, decision: Decision)
    returns (programs: seq<Program>, st: State, envelope: Envelope, signal: nat)
    requires NeedsApproval(d)
    ensures DecisionStored(PerformAll(programs), ticket.id, st, envelope, decision, signal)
  {
    var id := ticket.id;
    var before, waiting := ToApproval(ticket, c, d);
    var t := PerformAll(before);
    st, envelope, signal := waiting, ApprovalEnvelope(id, waiting.wakeupAt, d), t.nextSignal;
    DecideStep(t, id, waiting, d, waiting.wakeupAt, decision, 5);
    Next(before, Decide(id, decision, 5));
    DecideApplies(t, id, decision, 5);
    programs := before + [Decide(id, decision, 5)];
  }

  lemma {:induction false} DecisionRows(
    t: Contents, id: Id, s: Rows, st: State, envelope: Envelope, d: Decision, signal: nat)
    requires DecisionStored(t, id, st, envelope, d, signal) && InStep(t, id, s, None) && s.id == id
    ensures DecisionIn(s, st, envelope, d, signal)
  {
    FindsDecision(t, id, Some(5), signal, d);
    ResumeLocal(t, id, envelope, Some(5));
    assert forall i :: Unconsumed(s.signals, i, s.id) ==> Unconsumed(t.signals, i, id);
  }

  // The engine's rows of a ticket after some programs.
  lemma {:induction false} ReachedRows(programs: seq<Program>, id: Id) returns (s: Rows)
    ensures InStep(PerformAll(programs), id, s, None) && Arrives(id, s) && s.id == id
  {
    AllReached(programs, id);
    s :| ReachedBy(PerformAll(programs), id, HistoryAfter(programs, id), map[], s);
    assert Beside(s, map[]) == s;
  }

  // ----- after archiving

  // Finished after this decision, nothing archived, process 0 free.
  ghost predicate Over(s: Rows, decision: Decision) {
    && s.cp.Some? && s.cp.value.node.End? && s.cp.value.st.decision == Some(decision) && s.cp.value.st.status.Terminal()
    && s.run.Some? && s.run.value.status == s.cp.value.st.status && s.run.value.updatedAt == 8
    && s.archived.None? && 0 !in s.actors && forall i :: !Unconsumed(s.signals, i, s.id)
  }

  lemma {:induction false} ArchiveRows(s: Rows, decision: Decision) returns (t: Rows)
    requires Arrives(s.id, s) && Over(s, decision)
    ensures Arrives(s.id, t) && t == s.(run := None, archived := s.run, actors := s.actors[0 := Deleting])
  {
    t := DoArchive(s, 100, 0, 60, false);
    ArrivesBy(s.id, s, 100, Archive(0, 60, false), t);
  }

  // Once it is older than any age retention is run with, the row is due for archiving.
  ghost predicate AgesIntoArchive(run: Run) {
    forall now, maxAge :: now > run.updatedAt + maxAge ==> Archivable(run, now, maxAge)
  }

  /** Retention that crashes between archiving a run and deleting its thread leaves a checkpoint the
      reconciler rebuilds the run from: the ticket then has a run and an archived run, and once the
      new one is old enough it is due for an archive pass that fails on it. */
  lemma {:induction false} ArchivedRunRebuilt(ticket: Ticket, c: Classification, d: DraftReply, decision: Decision)
    requires NeedsApproval(d)
    ensures exists steps: seq<Step> ::
              var s := After(Fresh(ticket.id), steps);
              s.run.Some? && s.archived.Some? && AgesIntoArchive(s.run.value)
  {
    var id := ticket.id;
    var programs, st := ToEnd(ticket, c, d, decision);
    var s := ReachedRows(programs, id);
    EndIsOver(programs, ticket, s, st, decision);
    var a := ArchiveRows(s, decision);
    var t := RebuildRows(a);
  }

  lemma {:induction false} RebuildRows(s: Rows) returns (t: Rows)
    requires Arrives(s.id, s) && s.actors == map[0 := Deleting] && s.run.None? && s.archived.Some?
    requires s.cp.Some? && s.cp.value.node.End? && s.cp.value.st.status.Terminal()
    ensures Arrives(s.id, t) && t.run.Some? && t.archived.Some?
            && t.run.value.status.Terminal() && t.run.value.updatedAt == 101
  {
    var b := DropRows(s);
    var c := ListRows(b);
    t := DoInsertRun(c, 101, 0);
    ArrivesBy(s.id, c, 101, InsertRun(0), t);
  }

  lemma {:induction false} DropRows(s: Rows) returns (t: Rows)
    requires Arrives(s.id, s) && s.actors == map[0 := Deleting]
    ensures Arrives(s.id, t) && t == s.(actors := map[])
  {
    t := Drop(s, 0);
    ArrivesBy(s.id, s, 100, Crash(0), t);
    assert t.actors == map[];
  }

  lemma {:induction false} ListRows(s: Rows) returns (t: Rows)
    requires Arrives(s.id, s) && s.actors == map[] && s.run.None? && s.cp.Some? && s.cp.value.node.End?
    ensures Arrives(s.id, t)
    ensures t == s.(actors := map[0 := Creating(s.cp.value.st.status, s.cp.value.st.wakeupAt, false)])
  {
    var m := DoListOrphan(s, 0);
    ArrivesBy(s.id, s, 101, ListOrphan(0), m);
    assert m.actors == map[0 := Listed];
    t := DoReadOrphan(m, 0);
    ArrivesBy(s.id, m, 101, ReadOrphan(0), t);
    assert t.actors == map[0 := Creating(s.cp.value.st.status, s.cp.value.st.wakeupAt, false)];
  }

  lemma {:induction false} EndIsOver(programs: seq<Program>, ticket: Ticket, s: Rows, st: State, decision: Decision)
    requires SameTables(RowsOf(PerformAll(programs), ticket.id), s) && s.id == ticket.id && 0 !in s.actors
    requires var t := PerformAll(programs);
             var id := ticket.id;
             && ParkedAt(t, id, End, st, None) && st.status.Terminal() && NothingOpen(t, id)
             && RunShows(t, id, st.status, None) && t.runs[id].updatedAt == 8 && t.archive == map[]
    requires st.decision == Some(decision)
    ensures Over(s, decision)
  {
    var t := PerformAll(programs);
    assert forall i :: Unconsumed(s.signals, i, s.id) ==> i in t.signals && Unconsumed(t.signals, i, s.id);
  }

  // ----- a reconciler slower than retention

  // Listed while the API was still creating the ticket, process 1 has yet to read its snapshot.
  lemma {:induction false} ListedWhileCreating(ticket: Ticket)
    ensures Reached(CreateOn(Empty, ticket, Tick(0)), ticket.id, History([], []), map[1 := Listed])
  {
    var id := ticket.id;
    var cp := Checkpoint(AwaitClassify, Opening(ticket, SCHEDULE_TO_START), [],
                         Some(TaskEnvelope(ClassifyKeyOf(id), Some(SCHEDULE_TO_START))));
    SeedInvoke(Empty, ticket, Tick(0));
    var t, m := AboutToInsert(ticket, cp);
    InsertBesideList(id, t, m, cp);
  }

  lemma {:induction false} AboutToInsert(ticket: Ticket, cp: Checkpoint) returns (t: Contents, m: Rows)
    requires var r := Invoke(Empty.(threads := Empty.threads[ticket.id := Seed(ticket)]), ticket.id, None, Tick(0), 0);
             r.out == Some(cp) && r.tables.threads == Empty.threads[ticket.id := cp] && r.tables.runs == map[]
    ensures t == Invoke(Empty.(threads := Empty.threads[ticket.id := Seed(ticket)]), ticket.id, None, Tick(0), 0).tables
    ensures Arrives(ticket.id, m) && m.id == ticket.id && m.log.accepted == [] && m.log.shown == []
    ensures InStep(t, ticket.id, m, Some(Creating(cp.st.status, cp.st.wakeupAt, true)))
  {
    var id := ticket.id;
    var u := Empty.(threads := Empty.threads[id := Seed(ticket)]);
    var a := ThenSeed(Fresh(id), ticket);
    EmptyInStep(id);
    SeedInStep(Empty, Fresh(id), ticket);
    InvokeInStep(u, id, a, Caller.Api, None, Tick(0), 0);
    var r := Invoke(u, id, None, Tick(0), 0);
    t, m := r.tables, NodeRuns(a, 0, r.nodes, Tick(0));
    NodeRunsLead(Fresh(id), a, 0, r.nodes, Tick(0));
    LeadsArrives(id, m);
  }

  lemma {:induction false} LeadsArrives(id: Id, m: Rows)
    requires Leads(Fresh(id), m)
    ensures Arrives(id, m) && m.id == id && m.log.accepted == [] && m.log.shown == []
  {
    var steps: seq<Step> :| Plain(steps) && After(Fresh(id), steps) == m;
    NoneAccepted(Fresh(id), steps);
    SameId(id, steps);
  }

  lemma {:induction false} EmptyInStep(id: Id)
    ensures InStep(Empty, id, Fresh(id), None)
  {
    assert RowsOf(Empty, id) == Fresh(id);
  }

  lemma {:induction false} InsertBesideList(id: Id, t: Contents, m: Rows, cp: Checkpoint)
    requires Arrives(id, m) && m.id == id && InStep(t, id, m, Some(Creating(cp.st.status, cp.st.wakeupAt, true)))
    requires id !in t.runs && id in t.threads && m.log.accepted == [] && m.log.shown == []
    ensures Reached(t.(runs := t.runs[id := NewRun(0, cp.st.status, cp.st.wakeupAt)]), id, History([], []),
                    map[1 := Listed])
  {
    var w := ListThenInsert(id, m);
    InsertInStep(t, id, m, cp.st.status, cp.st.wakeupAt, 0);
    assert ReachedBy(t.(runs := t.runs[id := NewRun(0, cp.st.status, cp.st.wakeupAt)]), id, History([], []),
                     map[1 := Listed], w);
  }

  // The reconciler lists the thread, then the API inserts its row.
  lemma {:induction false} ListThenInsert(id: Id, m: Rows) returns (w: Rows)
    requires Arrives(id, m) && m.cp.Some? && m.run.None? && m.actors.Keys == {0} && m.actors[0].Creating?
    ensures w == DoInsertRun(m, 0, 0) && Comes(id, w, map[1 := Listed]) && HistoryOf(w) == HistoryOf(m)
  {
    w := DoInsertRun(m, 0, 0);
    var l := DoListOrphan(m, 1);
    ArrivesBy(id, m, 0, ListOrphan(1), l);
    assert l == Beside(m, map[1 := Listed]);
    StepBeside(m, 0, InsertRun(0), map[1 := Listed]);
    ArrivesBy(id, l, 0, InsertRun(0), Beside(w, map[1 := Listed]));
  }

  // After the first n programs, with these processes idle.
  ghost predicate ReachedAt(programs: seq<Program>, n: nat, id: Id, idle: map<nat, Actor>)
    requires n <= |programs|
  {
    Reached(PerformAll(programs[..n]), id, HistoryAfter(programs[..n], id), idle)
  }

  // Programs that create nothing leave idle processes idle.
  lemma {:induction false} LaterReached(programs: seq<Program>, n: nat, m: nat, id: Id, idle: map<nat, Actor>)
    requires n <= m <= |programs| && forall i :: n <= i < m ==> !programs[i].Create?
    requires ReachedAt(programs, n, id, idle)
    ensures ReachedAt(programs, m, id, idle)
    decreases m - n
  {
    if n < m {
      OneLater(programs, n, id, idle);
      LaterReached(programs, n + 1, m, id, idle);
    }
  }

  lemma {:induction false} OneLater(programs: seq<Program>, n: nat, id: Id, idle: map<nat, Actor>)
    requires n < |programs| && !programs[n].Create? && ReachedAt(programs, n, id, idle)
    ensures ReachedAt(programs, n + 1, id, idle)
  {
    assert programs[..n + 1][..n] == programs[..n];
    AllSound(programs[..n], id);
    ProgramReaches(PerformAll(programs[..n]), programs[n], id, HistoryAfter(programs[..n], id), idle);
  }

  lemma {:induction false} AllSound(programs: seq<Program>, id: Id)
    ensures Sound(PerformAll(programs))
  {
    AllReached(programs, id);
  }

  // Process 1 reads the snapshot of a ticket that waits for its approver.
  lemma {:induction false} ReadWhileWaiting(t: Contents, id: Id, h: History) returns (x: Actor)
    requires Reached(t, id, h, map[1 := Listed]) && AsksApproval(t, id)
    ensures x.Creating? && x.status.AwaitingApproval? && Reached(t, id, h, map[1 := x])
  {
    var s :| ReachedBy(t, id, h, map[1 := Listed], s);
    x := Creating(s.cp.value.st.status, s.cp.value.st.wakeupAt, false);
    ReadBeside(id, s, x);
    assert ReachedBy(t, id, h, map[1 := x], s);
  }

  lemma {:induction false} ReadBeside(id: Id, s: Rows, x: Actor)
    requires Comes(id, s, map[1 := Listed]) && s.actors == map[] && s.cp.Some? && s.cp.value.node.AwaitApproval?
    requires x == Creating(s.cp.value.st.status, s.cp.value.st.wakeupAt, false)
    ensures Comes(id, s, map[1 := x])
  {
    var b := Beside(s, map[1 := Listed]);
    assert Arrives(id, b);
    ReadRows(b, x);
    ArrivesBy(id, b, 0, ReadOrphan(1), Beside(s, map[1 := x]));
  }

  lemma {:induction false} ReadRows(b: Rows, x: Actor)
    requires b.actors == map[1 := Listed] && b.cp.Some? && b.cp.value.node.AwaitApproval?
    requires x == Creating(b.cp.value.st.status, b.cp.value.st.wakeupAt, false)
    ensures Apply(b, 0, ReadOrphan(1)) == b.(actors := map[1 := x])
  {
    assert b.actors[1 := x] == map[1 := x];
  }

  /** Without `RejectionIsLast`'s premise on archiving: a reconciler that listed the thread while the
      ticket was being created, read it while it waited for approval and inserts its row after
      retention has archived the run reopens a rejected ticket. */
  lemma {:induction false} SlowReconcilerReopens(ticket: Ticket, c: Classification, d: DraftReply, rejection: Decision)
    requires NeedsApproval(d) && !rejection.approved
    ensures exists steps: seq<Step> ::
              var s := After(Fresh(ticket.id), steps);
              Accepts(s) && s.archived.Some? && DecisionsApplied(ticket.id, steps) == [rejection]
  {
    var id := ticket.id;
    var s, x := OverWithSnapshot(ticket, c, d, rejection);
    var a := ArchiveRows(s, rejection);
    var t := StaleInsert(a, x);
    var more: seq<Step> :| After(Fresh(id), more) == t;
    AppliedLogged(id, more);
  }

  // Rejected and finished, while the reconciler still holds the snapshot it read before.
  lemma {:induction false} OverWithSnapshot(ticket: Ticket, c: Classification, d: DraftReply, rejection: Decision)
    returns (s: Rows, x: Actor)
    requires NeedsApproval(d)
    ensures Arrives(ticket.id, s) && s.id == ticket.id && Over(s, rejection) && s.log.applied == [rejection]
    ensures s.actors == map[1 := x] && x.Creating? && x.status.AwaitingApproval?
  {
    var programs, st := ToEnd(ticket, c, d, rejection);
    x := IdleToEnd(programs, ticket);
    s := BesideRows(PerformAll(programs), ticket.id, HistoryAfter(programs, ticket.id), x);
    EndIsOver(programs, ticket, s, st, rejection);
    OverApplied(ticket.id, s, rejection);
  }

  lemma {:induction false} BesideRows(t: Contents, id: Id, h: History, x: Actor) returns (s: Rows)
    requires Reached(t, id, h, map[1 := x])
    ensures Arrives(id, s) && SameTables(RowsOf(t, id), s) && s.id == id && s.actors == map[1 := x]
  {
    var v :| ReachedBy(t, id, h, map[1 := x], v);
    s := Beside(v, map[1 := x]);
  }

  lemma {:induction false} OverApplied(id: Id, s: Rows, rejection: Decision)
    requires Arrives(id, s) && Over(s, rejection)
    ensures s.log.applied == [rejection]
  {
    var steps: seq<Step> :| After(Fresh(id), steps) == s;
    AlwaysInv(id, steps);
    AppliedIsFirst(s, rejection);
  }

  lemma {:induction false} IdleToEnd(programs: seq<Program>, ticket: Ticket) returns (x: Actor)
    requires |programs| == 9 && CreatesFirst(programs, ticket)
    requires AsksApproval(PerformAll(programs[..5]), ticket.id)
    ensures x.Creating? && x.status.AwaitingApproval?
    ensures Reached(PerformAll(programs), ticket.id, HistoryAfter(programs, ticket.id), map[1 := x])
  {
    var id := ticket.id;
    ListedFirst(programs, ticket);
    LaterReached(programs, 1, 5, id, map[1 := Listed]);
    x := ReadAtFive(programs, id);
    LaterReached(programs, 5, 9, id, map[1 := x]);
    assert programs[..9] == programs;
  }

  lemma {:induction false} ReadAtFive(programs: seq<Program>, id: Id) returns (x: Actor)
    requires |programs| == 9 && ReachedAt(programs, 5, id, map[1 := Listed])
    requires AsksApproval(PerformAll(programs[..5]), id)
    ensures x.Creating? && x.status.AwaitingApproval? && ReachedAt(programs, 5, id, map[1 := x])
  {
    x := ReadWhileWaiting(PerformAll(programs[..5]), id, HistoryAfter(programs[..5], id));
  }

  lemma {:induction false} ListedFirst(programs: seq<Program>, ticket: Ticket)
    requires CreatesFirst(programs, ticket)
    ensures ReachedAt(programs, 1, ticket.id, map[1 := Listed])
  {
    ListedWhileCreating(ticket);
    FirstProgram(ticket);
    assert [Create(ticket, Tick(0))][..0] == [];
    assert HistoryAfter([Create(ticket, Tick(0))], ticket.id) == History([], []);
  }

  lemma {:induction false} StaleInsert(s: Rows, x: Actor) returns (t: Rows)
    requires Arrives(s.id, s) && s.run.None? && 1 in s.actors && s.actors[1] == x && x.Creating?
            && x.status.AwaitingApproval?
    requires forall i :: !Unconsumed(s.signals, i, s.id)
    ensures Arrives(s.id, t) && Accepts(t) && t.archived == s.archived && t.log.applied == s.log.applied && t.id == s.id
  {
    t := DoInsertRun(s, 101, 1);
    ArrivesBy(s.id, s, 101, InsertRun(1), t);
  }
}
