/** What every committed step keeps, under crashes, expired leases, redelivery, stale
    runners, retention and pruning, and what follows from it for every run. */
module Safety {
  import opened Wrappers
  import opened Models
  import opened TaskQueue
  import opened WorkflowRuns
  import opened Graph
  import opened Verdicts
  import opened SideEffects
  import opened Engine

  // ----- the invariant

  // What a checkpoint at each node has already been through.
  predicate WellFormed(id: Id, cp: Checkpoint) {
    var st := cp.st;
    && st.ticket.id == id
    && (cp.node.Rank() >= DispatchDraft.Rank() ==> st.classification.Some?)
    && (cp.node.Rank() >= DecideApproval.Rank() ==> st.draft.Some?)
    && (cp.resumes == [] || ((cp.node.AwaitClassify? || cp.node.AwaitDraft?) && cp.resumes == [Timeout]))
    && (cp.node.Rank() < Execute.Rank() ==> st.decision.None?)
    && (match cp.node
        case Start => st.status.Received?
        case DispatchClassify => st.status.Received?
        case AwaitClassify => st.status.Classifying?
        case DispatchDraft => st.status.Classifying?
        case AwaitDraft => st.status.Drafting?
        case DecideApproval => st.status.Drafting?
        case PrepareApproval => st.status.Drafting? && NeedsApproval(st.draft.value)
        case AwaitApproval => st.status.AwaitingApproval? && st.wakeupAt.Some? && NeedsApproval(st.draft.value)
        case Execute =>
          (match st.status
           case Drafting => st.decision.None? && !NeedsApproval(st.draft.value)
           case AwaitingApproval => st.decision.Some? && st.decision.value.approved && NeedsApproval(st.draft.value)
           case Rejected => st.decision.Some? && !st.decision.value.approved && NeedsApproval(st.draft.value)
           case Escalated => st.decision.None? && NeedsApproval(st.draft.value)
           case _ => false)
        case End => st.result.Some? && st.status == st.result.value.status)
    && (cp.envelope.Some? ==>
          match cp.envelope.value
          case TaskEnvelope(key, _) =>
            && ((cp.node.AwaitClassify? && key in {ClassifyKey(st), FallbackOf(ClassifyKey(st))})
                || (cp.node.AwaitDraft? && key in {DraftKey(st), FallbackOf(DraftKey(st))}))
            && (cp.resumes == [] ==> !key.fallback)
          case ApprovalEnvelope(ticketId, _, _) => cp.node.AwaitApproval? && ticketId == id
          case TerminalEnvelope(key, _) => cp.node.Execute? && key == FinalizeKey(st))
  }

  // How many more resumes the graph can accept.
  function Measure(cp: Checkpoint): nat
    requires |cp.resumes| <= 1
  {
    match cp.node
    case AwaitDraft => 4 - |cp.resumes|
    case DispatchDraft => 4
    case DecideApproval => 2
    case PrepareApproval => 2
    case AwaitApproval => 2
    case Execute => 1
    case End => 0
    case _ => 6 - |cp.resumes|
  }

  // The checkpoint has reached this node, or is gone.
  predicate Past(s: Rows, node: Node) {
    s.cp.None? || s.cp.value.node.Rank() >= node.Rank()
  }

  // A refund may only be dispatched on the applied approval of the draft that proposed it.
  predicate Authorised(log: Log, p: Payload) {
    Refundable(p) ==>
      log.applied != [] && log.applied[0].approved && log.prompted.Some? && log.prompted.value.action == p.action
  }

  // Each part of the invariant names the columns it is about.

  ghost predicate CheckpointOk(id: Id, cp: Option<Checkpoint>, log: Log) {
    cp.Some? ==>
      && WellFormed(id, cp.value)
      && log.resumed + Measure(cp.value) <= 6
      && StatusOk(cp.value, log.held)
      && ProgressLogged(cp.value, log)
  }

  // The checkpoint's status is the furthest it has held, and a terminal one stays.
  ghost predicate StatusOk(cp: Checkpoint, held: set<Status>) {
    && (!cp.node.Start? ==> cp.st.status in held)
    && (forall x :: x in held ==> x.Rank() <= cp.st.status.Rank() && (x.Terminal() ==> x == cp.st.status))
  }

  predicate ProgressLogged(cp: Checkpoint, log: Log)
    requires cp.node.Rank() >= DispatchDraft.Rank() ==> cp.st.classification.Some?
    requires cp.node.Rank() >= DecideApproval.Rank() ==> cp.st.draft.Some?
  {
    if cp.node.Rank() < Execute.Rank() then
      && log.final.None? && log.applied == []
      && (cp.node.Rank() < AwaitApproval.Rank() ==> log.prompted.None?)
      && (cp.node.AwaitApproval? ==> log.prompted == cp.st.draft)
    else
      && cp.st.decision == (if log.applied == [] then None else Some(log.applied[0]))
      && (cp.st.decision.Some? ==> log.prompted == cp.st.draft)
      && (cp.node.Execute? ==>
            && (log.final.None? || log.final.value == FinalizeOf(cp.st)))
      && (cp.node.End? ==> log.final.Some? && log.final.value.FinalizePayload?
                           && cp.st.result == Some(FinalResult(log.final.value))
                           && log.final.value == OwedFor(cp.st))
  }

  predicate LogOk(id: Id, run: Option<Run>, archived: Option<Run>, log: Log) {
    && log.resumed <= 6
    && |log.applied| <= 1
    && (log.applied != [] ==> log.accepted != [] && log.applied[0] == log.accepted[0])
    && (AwaitingApproval in log.held ==> log.prompted.Some?)
    && (log.final.Some? ==>
          var p := log.final.value;
          p.FinalizePayload? && p.ticket.id == id && p.result.ticketId == id && p.result.status.Terminal()
          && Authorised(log, p))
    && (run.Some? ==> run.value.status in log.held)
    && (log.everRun <==> run.Some? || archived.Some?)
  }

  // Nothing exists before the ticket does.
  predicate Unborn(s: Rows) {
    && s.cp.None? && s.run.None? && s.archived.None? && s.tasks.rows == map[] && s.signals == map[]
    && s.fx == NoEffects
    && s.actors == map[] && s.log == Log(false, false, {}, 0, [], [], None, [], None)
  }

  predicate StageOf(stage: Stage, payload: Payload) {
    match stage
    case Classify => payload.ClassifyPayload?
    case Draft => payload.DraftPayload?
    case Finalize => payload.FinalizePayload?
  }

  predicate RowOk(id: Id, nextId: nat, final: Option<Payload>, result: Option<TicketResult>, key: Key, row: Task) {
    && key.ticket == id
    && StageOf(key.stage, row.payload)
    && row.id < nextId
    && (key.stage.Finalize? ==> final == Some(row.payload))
    && (row.status.Done? <==> row.result.Some?)
    && (row.result.Some? ==> Answers(row.result.value, row.payload)
                             && (row.result.value.Finalized? ==> result == Some(row.result.value.result)))
  }

  ghost predicate QueueOk(id: Id, q: Table, final: Option<Payload>, result: Option<TicketResult>) {
    && (forall key :: key in q.rows ==> RowOk(id, q.nextId, final, result, key, q.rows[key]))
    && (forall k, l :: k in q.rows && l in q.rows && q.rows[k].id == q.rows[l].id ==> k == l)
  }

  ghost predicate SignalsOk(
    id: Id, cp: Option<Checkpoint>, signals: map<nat, Signal>, nextSignal: nat, accepted: seq<Decision>)
  {
    && (forall i :: i in signals ==>
          i < nextSignal && signals[i].workflowId == id && signals[i].payload in accepted)
    && (forall i, j :: Unconsumed(signals, i, id) && Unconsumed(signals, j, id) ==> i == j)
    && (cp.Some? && cp.value.node.Rank() < Execute.Rank() ==>
          |accepted| <= 1 && (accepted != [] ==> exists i :: Unconsumed(signals, i, id)))
  }

  // A resume value some process holds.
  predicate ResumeOk(s: Rows, resume: Resume) {
    match resume
    case Human(d) => d in s.log.accepted
    case Value(Finalized(r)) => s.fx.result == Some(r)
    case _ => true
  }

  // A runner that will consume a signal holds its decision, or has seen it applied.
  predicate CallerOk(s: Rows, caller: Caller, resume: Option<Resume>) {
    caller.Runner? && caller.signal.Some? ==>
      if resume.Some? then resume.value.Human? && Past(s, AwaitApproval) else Past(s, Execute)
  }

  // Task ids name one payload for good.
  ghost predicate TaskIdOk(s: Rows, taskId: nat, payload: Payload) {
    && taskId < s.tasks.nextId
    && forall key :: key in s.tasks.rows && s.tasks.rows[key].id == taskId ==> s.tasks.rows[key].payload == payload
  }

  ghost predicate ActorOk(s: Rows, x: Actor) {
    match x
    case Claimed(_, status, _) => status in s.log.held
    case Looked(_, status, _, envelope) =>
      && status in s.log.held
      && (envelope.Some? && envelope.value.ApprovalEnvelope? ==>
            envelope.value.ticketId == s.id && Past(s, AwaitApproval))
    case Invoking(caller, resume) =>
      (resume.Some? ==> ResumeOk(s, resume.value)) && CallerOk(s, caller, resume)
    case Ran(caller, from, inputs, _, _) =>
      && WellFormed(s.id, from)
      && exists resume: Option<Resume> :: inputs == InputsOf(from, resume)
           && (resume.Some? ==> ResumeOk(s, resume.value)) && CallerOk(s, caller, resume)
    case Saving(_, status, _, signal) => status in s.log.held && (signal.Some? ==> Past(s, Execute))
    case Creating(status, _, _) => status in s.log.held
    case Working(taskId, payload) => !payload.FinalizePayload? && TaskIdOk(s, taskId, payload)
    case Finalizing(taskId, d) =>
      && d.payload.FinalizePayload? && s.log.final == Some(d.payload) && TaskIdOk(s, taskId, d.payload)
      && DeliveryOk(s.fx, d)
    case _ => true
  }

  ghost predicate ActorsOk(s: Rows) {
    forall a :: a in s.actors ==> ActorOk(s, s.actors[a])
  }

  // A finished graph carries the stored result.
  predicate EndOk(cp: Option<Checkpoint>, result: Option<TicketResult>) {
    cp.Some? && cp.value.node.End? ==> result.Some? && cp.value.st.result == result
  }

  ghost predicate TablesOk(s: Rows) {
    && CheckpointOk(s.id, s.cp, s.log)
    && EndOk(s.cp, s.fx.result)
    && LogOk(s.id, s.run, s.archived, s.log)
    && LedgerOk(s.log.final, s.fx)
    && QueueOk(s.id, s.tasks, s.log.final, s.fx.result)
    && SignalsOk(s.id, s.cp, s.signals, s.nextSignal, s.log.accepted)
  }

  ghost predicate Inv(s: Rows) {
    (s.log.born || Unborn(s)) && TablesOk(s) && ActorsOk(s)
  }

  // ----- what steps never undo

  predicate Kept<T(==)>(before: Option<T>, after: Option<T>) {
    before.Some? ==> after == before
  }

  ghost predicate Grows(s: Rows, t: Rows) {
    && s.id == t.id
    && s.log.held <= t.log.held
    && s.log.accepted <= t.log.accepted
    && Kept(s.log.final, t.log.final) && Kept(s.log.prompted, t.log.prompted)
    && EffectsGrow(s.fx, t.fx)
    && (t.cp.Some? ==> s.cp.Some? && s.cp.value.node.Rank() <= t.cp.value.node.Rank())
    && s.tasks.nextId <= t.tasks.nextId
    && (forall key :: key in t.tasks.rows ==>
          t.tasks.rows[key].id >= s.tasks.nextId
          || (key in s.tasks.rows && t.tasks.rows[key].id == s.tasks.rows[key].id
              && t.tasks.rows[key].payload == s.tasks.rows[key].payload))
  }

  lemma {:induction false} ActorKept(s: Rows, t: Rows, x: Actor)
    requires Grows(s, t) && ActorOk(s, x)
    ensures ActorOk(t, x)
  {
    match x
    case Ran(caller, from, inputs, _, _) =>
      var resume: Option<Resume> :| inputs == InputsOf(from, resume)
        && (resume.Some? ==> ResumeOk(s, resume.value)) && CallerOk(s, caller, resume);
      assert inputs == InputsOf(from, resume)
        && (resume.Some? ==> ResumeOk(t, resume.value)) && CallerOk(t, caller, resume);
    case _ =>
  }

  lemma {:induction false} ActorsKept(s: Rows, t: Rows)
    requires Grows(s, t) && ActorsOk(s)
    requires forall a :: a in t.actors ==> (a in s.actors && t.actors[a] == s.actors[a]) || ActorOk(t, t.actors[a])
    ensures ActorsOk(t)
  {
    forall a | a in t.actors ensures ActorOk(t, t.actors[a]) {
      if a in s.actors && t.actors[a] == s.actors[a] {
        ActorKept(s, t, s.actors[a]);
      }
    }
  }
}
