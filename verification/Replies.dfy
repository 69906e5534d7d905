/** What customers are sent, over any sequence of programs. */
module Replies {
  import opened Wrappers
  import opened Models
  import opened TaskQueue
  import opened Graph
  import opened SideEffects
  import opened Engine
  import opened Safety
  import opened SafetySteps
  import opened Guarantees
  import opened Verdicts
  import opened Tables
  import opened Invocations
  import opened Steps
  import opened Runner
  import opened Worker
  import opened Api
  import opened Maintenance
  import opened Reachable
  import opened Programs

  // ----- finalize rows come from `execute` and keep their payload

  // Rows stay, with their payloads.
  ghost predicate RowsStay(q: Table, r: Table) {
    forall key :: key in q.rows ==> key in r.rows && r.rows[key].payload == q.rows[key].payload
  }

  ghost predicate NoNewFinal(q: Table, r: Table, id: Id) {
    forall key: Key :: key.ticket == id && key.stage.Finalize? && key in r.rows ==> key in q.rows
  }

  lemma {:induction false} TxnRowsStay(q: Table, now: Time, cp: Checkpoint, inputs: seq<Resume>)
    ensures var r := ApplyTxn(q, now, NodeTxn(cp, inputs));
            RowsStay(q, r) && (cp.node.Rank() < Execute.Rank() ==> NoNewFinal(q, r, cp.st.ticket.id))
  {
  }

  lemma {:induction false} InvokeRowsStay(t: Contents, id: Id, resume: Option<Resume>, clock: Clock, n: nat)
    requires id in t.threads && CheckpointOf(id, t.threads[id])
    ensures var u := Invoke(t, id, resume, clock, n).tables;
            && RowsStay(t.tasks, u.tasks) && id in u.threads
            && (u.threads[id].node.Rank() < Execute.Rank() ==> NoNewFinal(t.tasks, u.tasks, id))
    decreases t.threads[id].node.Ahead()
  {
    if !t.threads[id].node.End? {
      var u, outcome := TurnRowsStay(t, id, resume, clock(n + 1));
      if outcome.Advance? && !outcome.cp.node.End? {
        InvokeRowsStay(u, id, None, clock, n + 1);
        InvokeNeverGoesBack(u, id, None, clock, n + 1);
      }
    }
  }

  lemma {:induction false} TurnRowsStay(t: Contents, id: Id, resume: Option<Resume>, now: Time)
    returns (u: Contents, outcome: Outcome)
    requires id in t.threads && CheckpointOf(id, t.threads[id])
    ensures (u, outcome) == NodeRun(t, id, resume, now)
    ensures id in u.threads && CheckpointOf(id, u.threads[id]) && RowsStay(t.tasks, u.tasks)
    ensures t.threads[id].node.Rank() <= u.threads[id].node.Rank()
    ensures t.threads[id].node.Rank() < Execute.Rank() ==> NoNewFinal(t.tasks, u.tasks, id)
  {
    var r := NodeRun(t, id, resume, now);
    u, outcome := r.0, r.1;
    var cp := t.threads[id];
    var inputs := InputsOf(cp, resume);
    var redispatched := Redispatches(t.tasks, NodeTxn(cp, inputs));
    TxnRowsStay(t.tasks, now, cp, inputs);
    OutcomeOwn(id, cp, inputs, redispatched, now);
    NodeNeverGoesBack(cp, inputs, redispatched, now);
  }

  lemma {:induction false} NodeNeverGoesBack(cp: Checkpoint, inputs: seq<Resume>, redispatched: bool, now: Time)
    ensures var outcome := NodeOutcome(cp, inputs, redispatched, now);
            !outcome.Raise? ==> cp.node.Rank() <= outcome.cp.node.Rank()
  {
  }

  lemma {:induction false} InvokeNeverGoesBack(t: Contents, id: Id, resume: Option<Resume>, clock: Clock, n: nat)
    requires id in t.threads
    ensures var u := Invoke(t, id, resume, clock, n).tables;
            id in u.threads && t.threads[id].node.Rank() <= u.threads[id].node.Rank()
    decreases t.threads[id].node.Ahead()
  {
    var cp := t.threads[id];
    if !cp.node.End? {
      var inputs := InputsOf(cp, resume);
      NodeNeverGoesBack(cp, inputs, Redispatches(t.tasks, NodeTxn(cp, inputs)), clock(n + 1));
      var (u, outcome) := NodeRun(t, id, resume, clock(n + 1));
      if outcome.Advance? && !outcome.cp.node.End? {
        InvokeNeverGoesBack(u, id, None, clock, n + 1);
      }
    }
  }

  // What one program does to a ticket's finalize rows, and to its thread if it adds one.
  ghost predicate FinalRows(t: Contents, u: Contents, id: Id) {
    && (forall key: Key :: key.ticket == id && key in t.tasks.rows && key in u.tasks.rows ==>
          u.tasks.rows[key].payload == t.tasks.rows[key].payload)
    && (NoNewFinal(t.tasks, u.tasks, id) || (id in u.threads && u.threads[id].node.Rank() >= Execute.Rank()))
  }

  lemma {:induction false} ElsewhereFinalRows(t: Contents, u: Contents, id: Id, j: Id)
    requires Elsewhere(t, u, j) && j != id
    ensures FinalRows(t, u, id)
  {
    forall key: Key | key.ticket == id
      ensures key in t.tasks.rows <==> key in u.tasks.rows
      ensures key in t.tasks.rows ==> u.tasks.rows[key] == t.tasks.rows[key]
    {
      assert SameAt(t.tasks.rows, u.tasks.rows, key);
    }
  }

  lemma {:induction false} StepFinalRows(t: Contents, i: Id, worker: string, clock: Clock, id: Id)
    requires Keyed(t) && i in t.runs
    ensures FinalRows(t, StepOn(t, i, worker, clock).tables, id)
  {
    if i != id {
      StepElsewhere(t, i, worker, clock);
      ElsewhereFinalRows(t, StepOn(t, i, worker, clock).tables, id, i);
    } else {
      var v := ClaimOn(t, id, worker, clock(0));
      var resume := ResumeAt(v, id, v.runs[id].wakeupAt);
      if resume.Some? {
        assert CheckpointOf(id, t.threads[id]);
        InvokeRowsStay(v, id, Some(resume.value.payload), clock, 0);
      }
    }
  }

  lemma {:induction false} WorkSame(
    t: Contents, key: Key, queue: Queue, worker: string, agent: Payload -> Answer, clock: Clock)
    requires key in t.tasks.rows
    ensures SameTasks(t.tasks, WorkOn(t, key, queue, worker, agent, clock).tasks)
    ensures WorkOn(t, key, queue, worker, agent, clock).threads == t.threads
  {
    var u := LeaseOn(t, key, worker, clock(0));
    var row := u.tasks.rows[key];
    var v := ActOn(u, queue, row.payload, row.attempts);
    var answer := AnswerOf(queue, row.payload, agent);
    LeaseSame(t.tasks, key, worker, clock(0));
    ActKeeps(u, queue, row.payload, row.attempts);
    StoreSame(v, row.id, answer, clock(1));
    SettleKeeps(v, key.ticket, row.id, answer, clock);
  }

  lemma {:induction false} CreateFinalRows(t: Contents, ticket: Ticket, clock: Clock, id: Id)
    requires Keyed(t)
    ensures FinalRows(t, CreateOn(t, ticket, clock), id)
  {
    if ticket.id != id {
      CreateElsewhere(t, ticket, clock);
      ElsewhereFinalRows(t, CreateOn(t, ticket, clock), id, ticket.id);
    } else {
      InvokeRowsStay(t.(threads := t.threads[ticket.id := Seed(ticket)]), ticket.id, None, clock, 0);
    }
  }

  lemma {:induction false} ProgramFinalRows(t: Contents, p: Program, id: Id)
    requires Sound(t)
    ensures FinalRows(t, Perform(t, p), id)
  {
    if Applies(t, p) {
      match p
      case StepRun(i, worker, clock) => StepFinalRows(t, i, worker, clock, id);
      case WorkTask(key, queue, worker, agent, clock) => WorkSame(t, key, queue, worker, agent, clock);
      case Create(ticket, clock) => CreateFinalRows(t, ticket, clock, id);
      case Janitor(tasksNow, runsNow) => ReclaimedFinalRows(t, tasksNow, runsNow, id);
      case Retain(clock, maxAge) => RetainedFinalRows(t, clock, maxAge, id);
      case _ =>
    }
  }

  lemma {:induction false} ReclaimedFinalRows(t: Contents, tasksNow: Time, runsNow: Time, id: Id)
    ensures FinalRows(t, Reclaimed(t, tasksNow, runsNow), id)
  {
  }

  lemma {:induction false} RetainedFinalRows(t: Contents, clock: Clock, maxAge: Time, id: Id)
    ensures FinalRows(t, Retained(t, clock, maxAge), id)
  {
  }

  // ----- each rests on a state the thread held

  // After the first n programs the thread holds a state that is owed this payload.
  ghost predicate OwedAt(programs: seq<Program>, n: nat, id: Id, p: Payload) {
    && n <= |programs|
    && (var t := PerformAll(programs[..n]);
        && id in t.threads && t.threads[id].st.ticket.id == id
        && t.threads[id].st.classification.Some? && t.threads[id].st.draft.Some?
        && p == OwedFor(t.threads[id].st))
  }

  // In reached tables a thread at `execute` or past it is owed what its finalize rows hold.
  lemma {:induction false} RowIsOwed(t: Contents, id: Id, h: History, key: Key)
    requires Reached(t, id, h, map[]) && key in t.tasks.rows && key.ticket == id && key.stage.Finalize?
    requires id in t.threads && t.threads[id].node.Rank() >= Execute.Rank()
    ensures var st := t.threads[id].st;
            && st.ticket.id == id && st.classification.Some? && st.draft.Some?
            && t.tasks.rows[key].payload == OwedFor(st)
  {
    var s := ReachedInv(t, id, h, map[]);
    assert key in s.tasks.rows && s.tasks.rows[key] == t.tasks.rows[key];
    EngineRowIsOwed(s, key);
  }

  lemma {:induction false} EngineRowIsOwed(s: Rows, key: Key)
    requires TablesOk(s) && key in s.tasks.rows && key.stage.Finalize?
    requires s.cp.Some? && s.cp.value.node.Rank() >= Execute.Rank()
    ensures var st := s.cp.value.st;
            && st.ticket.id == s.id && st.classification.Some? && st.draft.Some?
            && s.tasks.rows[key].payload == OwedFor(st)
  {
    assert RowOk(s.id, s.tasks.nextId, s.log.final, s.fx.result, key, s.tasks.rows[key]);
    if s.cp.value.node.Execute? {
      FinalizesAsOwed(s.id, s.cp.value);
    }
  }

  lemma {:induction false} FinalRowIsOwed(programs: seq<Program>, id: Id, key: Key) returns (m: nat)
    requires key in PerformAll(programs).tasks.rows && key.ticket == id && key.stage.Finalize?
    ensures OwedAt(programs, m, id, PerformAll(programs).tasks.rows[key].payload)
  {
    var n := |programs| - 1;
    NextFinalRows(programs, id);
    if key in PerformAll(programs[..n]).tasks.rows {
      m := FinalRowIsOwed(programs[..n], id, key);
      assert programs[..n][..m] == programs[..m];
    } else {
      m := NewRowIsOwed(programs, id, key);
    }
  }

  lemma {:induction false} NextFinalRows(programs: seq<Program>, id: Id)
    requires programs != []
    ensures FinalRows(PerformAll(programs[..|programs| - 1]), PerformAll(programs), id)
  {
    var n := |programs| - 1;
    AllReached(programs[..n], id);
    ProgramFinalRows(PerformAll(programs[..n]), programs[n], id);
  }

  lemma {:induction false} NewRowIsOwed(programs: seq<Program>, id: Id, key: Key) returns (m: nat)
    requires var t := PerformAll(programs);
             && key in t.tasks.rows && key.ticket == id && key.stage.Finalize?
             && id in t.threads && t.threads[id].node.Rank() >= Execute.Rank()
    ensures OwedAt(programs, m, id, PerformAll(programs).tasks.rows[key].payload)
  {
    AllReached(programs, id);
    RowIsOwed(PerformAll(programs), id, HistoryAfter(programs, id), key);
    m := |programs|;
    assert programs[..m] == programs;
  }

  // ----- and so does what the ledger of replies and the results hold

  function ReplySaid(p: Payload): SentReply
    requires p.FinalizePayload?
  {
    SentReply(p.ticket.customerEmail, p.result.replyText)
  }

  function ResultSaid(p: Payload): TicketResult
    requires p.FinalizePayload?
  {
    p.result.(refundExecuted := p.result.status.Resolved? && p.action.Refund?)
  }

  // A program leaves a ticket's reply and result, or they are those of a finalize row that was there.
  ghost predicate Delivers(t: Contents, u: Contents, id: Id, key: Key) {
    && key in t.tasks.rows && key.ticket == id && key.stage.Finalize? && t.tasks.rows[key].payload.FinalizePayload?
    && (var p := t.tasks.rows[key].payload;
        && u.results == t.results[id := ResultSaid(p)]
        && u.sentReplies == if id in t.sentReplies then t.sentReplies else t.sentReplies[id := ReplySaid(p)])
  }

  ghost predicate Says(t: Contents, u: Contents, id: Id) {
    || (SameAt(t.sentReplies, u.sentReplies, id) && SameAt(t.results, u.results, id))
    || exists key :: Delivers(t, u, id, key)
  }

  lemma {:induction false} WorkSays(
    t: Contents, key: Key, queue: Queue, worker: string, agent: Payload -> Answer, clock: Clock, id: Id)
    requires Sound(t) && key in t.tasks.rows
    requires t.tasks.rows[key].payload.FinalizePayload? ==> key.stage.Finalize?
    ensures Says(t, WorkOn(t, key, queue, worker, agent, clock), id)
  {
    var u := LeaseOn(t, key, worker, clock(0));
    var row := u.tasks.rows[key];
    var w := WorkOn(t, key, queue, worker, agent, clock);
    assert PayloadOf(key.ticket, row.payload);
    ActSays(u, queue, row.payload, row.attempts);
    SettleLeaves(ActOn(u, queue, row.payload, row.attempts), key.ticket, row.id,
                 AnswerOf(queue, row.payload, agent), clock);
    if queue.SideEffectQueue? && row.payload.FinalizePayload? && key.ticket == id {
      assert Delivers(t, w, id, key);
    }
  }

  lemma {:induction false} SettleLeaves(t: Contents, id: Id, taskId: nat, answer: Answer, clock: Clock)
    ensures var u := SettleOn(t, id, taskId, answer, clock);
            u.results == t.results && u.sentReplies == t.sentReplies
  {
  }

  lemma {:induction false} ActSays(t: Contents, queue: Queue, p: Payload, attempt: nat)
    requires PayloadOf(p.ticket.id, p)
    ensures var u, id := ActOn(t, queue, p, attempt), p.ticket.id;
            if queue.SideEffectQueue? && p.FinalizePayload? then
              && u.results == t.results[id := ResultSaid(p)]
              && u.sentReplies == if id in t.sentReplies then t.sentReplies else t.sentReplies[id := ReplySaid(p)]
            else u == t
  {
  }

  lemma {:induction false} ProgramSays(t: Contents, p: Program, id: Id)
    requires Sound(t)
    requires forall key :: key in t.tasks.rows && t.tasks.rows[key].payload.FinalizePayload? ==> key.stage.Finalize?
    ensures Says(t, Perform(t, p), id)
  {
    if Applies(t, p) {
      match p
      case WorkTask(key, queue, worker, agent, clock) => WorkSays(t, key, queue, worker, agent, clock, id);
      case _ => OthersSayNothing(t, p);
    }
  }

  lemma {:induction false} OthersSayNothing(t: Contents, p: Program)
    requires Applies(t, p) && !p.WorkTask?
    ensures Perform(t, p).results == t.results && Perform(t, p).sentReplies == t.sentReplies
  {
    match p
    case StepRun(i, worker, clock) => StepTouches(t, i, worker, clock);
    case Create(ticket, clock) =>
      InvokeTouches(t.(threads := t.threads[ticket.id := Seed(ticket)]), ticket.id, None, clock, 0);
    case _ =>
  }

  // Only finalize rows carry finalize payloads.
  lemma {:induction false} FinalizeRows(programs: seq<Program>, key: Key)
    requires var q := PerformAll(programs).tasks; key in q.rows && q.rows[key].payload.FinalizePayload?
    ensures key.stage.Finalize?
  {
    var t := PerformAll(programs);
    AllReached(programs, key.ticket);
    var s := ReachedInv(t, key.ticket, HistoryAfter(programs, key.ticket), map[]);
    assert key in s.tasks.rows && s.tasks.rows[key] == t.tasks.rows[key];
    assert RowOk(s.id, s.tasks.nextId, s.log.final, s.fx.result, key, s.tasks.rows[key]);
  }

  lemma {:induction false} NextSays(programs: seq<Program>, id: Id)
    requires programs != []
    ensures Says(PerformAll(programs[..|programs| - 1]), PerformAll(programs), id)
  {
    var n := |programs| - 1;
    AllReached(programs[..n], id);
    forall key | key in PerformAll(programs[..n]).tasks.rows
                 && PerformAll(programs[..n]).tasks.rows[key].payload.FinalizePayload?
      ensures key.stage.Finalize?
    {
      FinalizeRows(programs[..n], key);
    }
    ProgramSays(PerformAll(programs[..n]), programs[n], id);
  }

  lemma {:induction false} DeliveredIsOwed(programs: seq<Program>, id: Id, u: Contents, key: Key) returns (m: nat)
    requires Delivers(PerformAll(programs), u, id, key)
    ensures OwedAt(programs, m, id, PerformAll(programs).tasks.rows[key].payload)
  {
    m := FinalRowIsOwed(programs, id, key);
  }

  lemma {:induction false} ReplyRests(programs: seq<Program>, id: Id) returns (m: nat, p: Payload)
    requires id in PerformAll(programs).sentReplies
    ensures p.FinalizePayload? && OwedAt(programs, m, id, p) && PerformAll(programs).sentReplies[id] == ReplySaid(p)
  {
    var n := |programs| - 1;
    var t, u := PerformAll(programs[..n]), PerformAll(programs);
    NextSays(programs, id);
    if SameAt(t.sentReplies, u.sentReplies, id) {
      m, p := ReplyRests(programs[..n], id);
    } else {
      var key :| Delivers(t, u, id, key);
      m := DeliveredIsOwed(programs[..n], id, u, key);
      p := t.tasks.rows[key].payload;
    }
    assert programs[..n][..m] == programs[..m];
  }

  lemma {:induction false} ResultRests(programs: seq<Program>, id: Id) returns (m: nat, p: Payload)
    requires id in PerformAll(programs).results
    ensures p.FinalizePayload? && OwedAt(programs, m, id, p) && PerformAll(programs).results[id] == ResultSaid(p)
  {
    var n := |programs| - 1;
    var t, u := PerformAll(programs[..n]), PerformAll(programs);
    NextSays(programs, id);
    if SameAt(t.results, u.results, id) {
      m, p := ResultRests(programs[..n], id);
    } else {
      var key :| Delivers(t, u, id, key);
      m := DeliveredIsOwed(programs[..n], id, u, key);
      p := t.tasks.rows[key].payload;
    }
    assert programs[..n][..m] == programs[..m];
  }

  // ----- in terms of drafts and decisions

  // The state the ticket's thread holds after the first m programs.
  ghost predicate HeldAt(programs: seq<Program>, m: nat, id: Id, st: State) {
    && m <= |programs|
    && (var t := PerformAll(programs[..m]); id in t.threads && t.threads[id].st == st && st.ticket.id == id)
  }

  // The decision a thread carries was accepted while the thread held the draft it decided.
  lemma {:induction false} CarriedWasDecided(programs: seq<Program>, id: Id, m: nat, st: State) returns (n: nat)
    requires HeldAt(programs, m, id, st) && st.decision.Some?
    ensures DecidedAt(programs, n, id, st.decision.value) && DraftBefore(programs, n, id) == st.draft
  {
    var front := programs[..m];
    AllReached(front, id);
    RefundRestsOnFirst(PerformAll(front), id, HistoryAfter(front, id), map[]);
    DecidedOnDraft(PerformAll(front), id, HistoryAfter(front, id));
    n := DecisionWasMade(front, id, 0);
    assert front[..n] == programs[..n];
  }

  lemma {:induction false} DecidedOnDraft(t: Contents, id: Id, h: History)
    requires Reached(t, id, h, map[]) && id in t.threads && t.threads[id].st.decision.Some?
    ensures h.shown != [] && h.shown[0] == t.threads[id].st.draft
  {
    var s := ReachedInv(t, id, h, map[]);
    AppliedIsFirst(s, t.threads[id].st.decision.value);
  }

  // A draft the thread held, and the decision it carried for it, if any.
  ghost predicate Grounds(programs: seq<Program>, m: nat, id: Id, st: State) {
    && HeldAt(programs, m, id, st) && st.classification.Some? && st.draft.Some?
    && (st.decision.Some? ==>
          exists n: nat :: DecidedAt(programs, n, id, st.decision.value) && DraftBefore(programs, n, id) == st.draft)
  }

  lemma {:induction false} OwedGrounds(programs: seq<Program>, m: nat, id: Id, p: Payload) returns (st: State)
    requires OwedAt(programs, m, id, p)
    ensures Grounds(programs, m, id, st) && p == Owed(st.ticket, st.classification.value, st.draft.value, st.decision)
  {
    st := PerformAll(programs[..m]).threads[id].st;
    if st.decision.Some? {
      var n := CarriedWasDecided(programs, id, m, st);
    }
  }

  /** Every reply sent is the one owed for a draft the ticket's thread held and the accepted decision
      it carried on that draft: the draft's text if that was an approval, or if there was none and
      the draft is reply-only with a confidence of at least 0.75; the rejection text if it was a
      rejection; the escalation text otherwise. It goes to the ticket's customer. */
  lemma {:induction false} ReplyIsOwed(programs: seq<Program>, id: Id)
    requires id in PerformAll(programs).sentReplies
    ensures exists m: nat, st ::
              && Grounds(programs, m, id, st)
              && PerformAll(programs).sentReplies[id]
                 == SentReply(st.ticket.customerEmail, OwedReply(st.draft.value, st.decision))
  {
    var m, p := ReplyRests(programs, id);
    var st := OwedGrounds(programs, m, id, p);
  }

  /** Every stored result likewise, with the status owed, and a refund exactly when a refunding draft
      was approved. */
  lemma {:induction false} ResultIsOwed(programs: seq<Program>, id: Id)
    requires id in PerformAll(programs).results
    ensures exists m: nat, st ::
              && Grounds(programs, m, id, st)
              && PerformAll(programs).results[id]
                 == TicketResult(id, OwedStatus(st.draft.value, st.decision), OwedReply(st.draft.value, st.decision),
                                 st.decision.Some? && st.decision.value.approved && st.draft.value.action.Refund?,
                                 st.classification.value.model + "/" + st.draft.value.model)
  {
    var m, p := ResultRests(programs, id);
    var st := OwedGrounds(programs, m, id, p);
  }
}
