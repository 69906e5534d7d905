/** The API's two writes: creating a ticket and submitting a decision. */
module Api {
  import opened Wrappers
  import opened Models
  import opened TaskQueue
  import opened WorkflowRuns
  import opened Graph
  import opened Engine
  import opened Tables
  import opened Store
  import opened Invocations

  // ----- creating a ticket

  function InvokeSeeded(t: Contents, ticket: Ticket, clock: Clock): Invoked {
    Invoke(t.(threads := t.threads[ticket.id := Seed(ticket)]), ticket.id, None, clock, 0)
  }

  function CreateOn(t: Contents, ticket: Ticket, clock: Clock): Contents {
    InsertOn(InvokeSeeded(t, ticket, clock), ticket.id, clock)
  }

  // Insert the run row of what the graph returned.
  function InsertOn(r: Invoked, id: Id, clock: Clock): Contents {
    if r.out.None? || id in r.tables.runs then r.tables
    else
      var st := r.out.value.st;
      r.tables.(runs := r.tables.runs[id := NewRun(clock(r.nodes + 1), st.status, st.wakeupAt)])
  }

  // Seed the thread and invoke the graph on it.
  method OpenThread(db: Database, ticket: Ticket, clock: Clock) returns (out: Option<Checkpoint>, nodes: nat)
    modifies db`tasks, db`threads
    ensures Invoked(db.Now(), out, nodes) == InvokeSeeded(old(db.Now()), ticket, clock)
  {
    db.threads := db.threads[ticket.id := Seed(ticket)];
    out, nodes := Ainvoke(db, ticket.id, None, clock, 0);
  }

  // The id is a fresh uuid.
  method CreateTicket(db: Database, ticket: Ticket, clock: Clock)
    requires ticket.id !in db.threads
    modifies db`tasks, db`runs, db`threads
    ensures db.Now() == CreateOn(old(db.Now()), ticket, clock)
  {
    var out, nodes := OpenThread(db, ticket, clock);
    if out.Some? {
      db.CreateRun(clock(nodes + 1), ticket.id, out.value.st.status, out.value.st.wakeupAt);
    }
  }

  // A new ticket's state once it waits for its classification.
  function Opening(ticket: Ticket, timer: Time): State {
    State(ticket, None, None, false, None, Some(timer), Classifying, false, None)
  }

  // A seeded thread runs three nodes and parks.
  lemma {:induction false} SeedInvoke(t: Contents, ticket: Ticket, clock: Clock)
    ensures var r := InvokeSeeded(t, ticket, clock);
            var key := Key(ticket.id, Classify, false);
            var timer := clock(2) + SCHEDULE_TO_START;
            var cp := Checkpoint(AwaitClassify, Opening(ticket, timer), [], Some(TaskEnvelope(key, Some(timer))));
            && r.out == Some(cp) && r.nodes == 3
            && r.tables == t.(threads := t.threads[ticket.id := cp],
                              tasks := Enqueue(t.tasks, clock(2), key, AgentQueue, ClassifyPayload(ticket)))
  {
    var id := ticket.id;
    var t0 := t.(threads := t.threads[id := Seed(ticket)]);
    var t1, o1 := NodeRun(t0, id, None, clock(1)).0, NodeRun(t0, id, None, clock(1)).1;
    assert o1.Advance? && o1.cp.node.DispatchClassify?;
    var t2, o2 := NodeRun(t1, id, None, clock(2)).0, NodeRun(t1, id, None, clock(2)).1;
    assert o2.Advance? && o2.cp.node.AwaitClassify?;
    var t3, o3 := NodeRun(t2, id, None, clock(3)).0, NodeRun(t2, id, None, clock(3)).1;
    assert o3.Park?;
    assert Invoke(t0, id, None, clock, 0) == Invoke(t1, id, None, clock, 1);
    assert Invoke(t1, id, None, clock, 1) == Invoke(t2, id, None, clock, 2);
    assert Invoke(t2, id, None, clock, 2) == Invoked(t3, Some(o3.cp), 3);
    assert t3.threads == t.threads[id := o3.cp];
  }

  /** Creating a ticket leaves it parked on its classify task, queued, with the schedule-to-start
      timer on its run row. */
  lemma {:induction false} CreatedTicket(t: Contents, ticket: Ticket, clock: Clock)
    requires ticket.id !in t.runs
    ensures var u := CreateOn(t, ticket, clock);
            var key := Key(ticket.id, Classify, false);
            var timer := clock(2) + SCHEDULE_TO_START;
            && ticket.id in u.threads && ticket.id in u.runs
            && u.threads[ticket.id]
               == Checkpoint(AwaitClassify, Opening(ticket, timer), [], Some(TaskEnvelope(key, Some(timer))))
            && u.runs[ticket.id] == NewRun(clock(4), Classifying, Some(timer))
            && u.tasks == Enqueue(t.tasks, clock(2), key, AgentQueue, ClassifyPayload(ticket))
            && u.signals == t.signals && u.refunds == t.refunds && u.archive == t.archive
  {
    SeedInvoke(t, ticket, clock);
  }

  lemma {:induction false} SeedInStep(t: Contents, s: Rows, ticket: Ticket)
    requires Keyed(t) && InStep(t, ticket.id, s, None) && !s.log.born
    ensures var u := t.(threads := t.threads[ticket.id := Seed(ticket)]);
            Keyed(u) && InStep(u, ticket.id, DoSeed(s, 0, ticket), Some(Invoking(Caller.Api, None)))
  {
    var u := t.(threads := t.threads[ticket.id := Seed(ticket)]);
    assert EffectsOf(u, ticket.id) == EffectsOf(t, ticket.id);
  }

  lemma {:induction false} InsertInStep(t: Contents, id: Id, s: Rows, status: Status, wakeupAt: Option<Time>, now: Time)
    requires InStep(t, id, s, Some(Creating(status, wakeupAt, true)))
    ensures InStep(if id in t.runs then t else t.(runs := t.runs[id := NewRun(now, status, wakeupAt)]), id,
                   DoInsertRun(s, now, 0), None)
  {
    var u := if id in t.runs then t else t.(runs := t.runs[id := NewRun(now, status, wakeupAt)]);
    assert EffectsOf(u, id) == EffectsOf(t, id);
  }

  // The three nodes leave the engine's process about to insert the run row.
  lemma {:induction false} OpenedInStep(t: Contents, s: Rows, ticket: Ticket, clock: Clock) returns (r: Invoked)
    requires Keyed(t) && InStep(t, ticket.id, s, None) && !s.log.born
    ensures r == InvokeSeeded(t, ticket, clock)
    ensures r.out.Some? && r.nodes == 3
    ensures var st := r.out.value.st;
            InStep(r.tables, ticket.id, NodeRuns(DoSeed(s, 0, ticket), 0, 3, clock),
                   Some(Creating(st.status, st.wakeupAt, true)))
  {
    var u := t.(threads := t.threads[ticket.id := Seed(ticket)]);
    r := InvokeSeeded(t, ticket, clock);
    SeedInStep(t, s, ticket);
    InvokeInStep(u, ticket.id, DoSeed(s, 0, ticket), Caller.Api, None, clock, 0);
    SeedInvoke(t, ticket, clock);
  }

  /** Creating a ticket is one engine process's run from seed through three nodes to insert. */
  lemma {:induction false} CreateInStep(t: Contents, s: Rows, ticket: Ticket, clock: Clock)
    requires Keyed(t) && InStep(t, ticket.id, s, None) && !s.log.born
    ensures InStep(CreateOn(t, ticket, clock), ticket.id,
                   DoInsertRun(NodeRuns(DoSeed(s, 0, ticket), 0, 3, clock), clock(4), 0), None)
  {
    var r := OpenedInStep(t, s, ticket, clock);
    var st := r.out.value.st;
    InsertInStep(r.tables, ticket.id, NodeRuns(DoSeed(s, 0, ticket), 0, 3, clock), st.status, st.wakeupAt, clock(4));
  }

  // ----- submitting a decision

  predicate Open(t: Contents, id: Id) {
    id in t.runs && t.runs[id].status.AwaitingApproval? && !HasUnconsumed(t.signals, id)
  }

  function SubmitOn(t: Contents, id: Id, decision: Decision, now: Time): Contents
    requires Open(t, id)
  {
    t.(signals := t.signals[t.nextSignal := Signal(id, decision, false, None)], nextSignal := t.nextSignal + 1,
       runs := t.runs[id := WakeRow(t.runs[id], now)])
  }

  // False is the API's conflict.
  method SubmitApproval(db: Database, id: Id, decision: Decision, now: Time) returns (accepted: bool)
    modifies db`runs, db`signals, db`nextSignal
    ensures accepted <==> Open(old(db.Now()), id)
    ensures accepted ==> db.Now() == SubmitOn(old(db.Now()), id, decision, now)
    ensures !accepted ==> db.runs == old(db.runs) && db.signals == old(db.signals)
  {
    var signal := db.AddPendingSignalIfWaiting(now, id, decision);
    accepted := signal.Some?;
  }

  /** The API accepts exactly when the engine does. */
  lemma {:induction false} OpenIsAccepts(t: Contents, id: Id, s: Rows)
    requires InStep(t, id, s, None)
    ensures Open(t, id) <==> Accepts(s)
  {
    assert forall i :: i in s.signals <==> i in t.signals && t.signals[i].workflowId == id;
    assert forall i :: i in s.signals ==> s.signals[i] == t.signals[i];
  }

  lemma {:induction false} SubmittedSignals(t: Contents, id: Id, decision: Decision, now: Time)
    requires Open(t, id)
    ensures SignalsOf(SubmitOn(t, id, decision, now).signals, id)
            == SignalsOf(t.signals, id)[t.nextSignal := Signal(id, decision, false, None)]
  {
  }

  /** An accepted submission is the engine's. */
  lemma {:induction false} SubmitInStep(t: Contents, id: Id, s: Rows, decision: Decision, now: Time)
    requires InStep(t, id, s, None) && Open(t, id)
    ensures InStep(SubmitOn(t, id, decision, now), id, DoSubmit(s, now, decision), None)
  {
    OpenIsAccepts(t, id, s);
    SubmittedSignals(t, id, decision, now);
    assert EffectsOf(SubmitOn(t, id, decision, now), id) == EffectsOf(t, id);
  }
}
