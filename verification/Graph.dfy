/** The ticket graph as a step function over a checkpoint.

    What is assumed of LangGraph: an interrupted node re-runs from its start; its n-th
    `interrupt()` returns the n-th recorded resume; what a node commits to the queue is
    committed before the checkpoint that follows it; a resume value that a node rejects
    raises and leaves the checkpoint as it was; a resume given to a node that does not
    interrupt is dropped. */
module Graph {
  import opened Wrappers
  import opened Models
  import opened TaskQueue

  datatype Node =
    | Start | DispatchClassify | AwaitClassify | DispatchDraft | AwaitDraft
    | DecideApproval | PrepareApproval | AwaitApproval | Execute | End
  {
    function Rank(): nat {
      match this
      case Start => 0
      case DispatchClassify => 1
      case AwaitClassify => 2
      case DispatchDraft => 3
      case AwaitDraft => 4
      case DecideApproval => 5
      case PrepareApproval => 6
      case AwaitApproval => 7
      case Execute => 8
      case End => 9
    }

    function Ahead(): nat { 9 - Rank() }

    // The nodes that call `interrupt()`.
    predicate Interrupts() {
      AwaitClassify? || AwaitDraft? || AwaitApproval? || Execute?
    }
  }

  datatype State = State(
    ticket: Ticket, classification: Option<Classification>, draft: Option<DraftReply>,
    needsApproval: bool, decision: Option<Decision>, wakeupAt: Option<Time>,
    status: Status, refundExecuted: bool, result: Option<TicketResult>)

  datatype Envelope =
    | TaskEnvelope(key: Key, wakeupAt: Option<Time>)
    | ApprovalEnvelope(ticketId: Id, wakeupAt: Option<Time>, draft: DraftReply)
    | TerminalEnvelope(key: Key, result: TicketResult)
  {
    // `envelope.get("wakeup_at")`
    function Timer(): Option<Time> {
      match this
      case TaskEnvelope(_, wakeupAt) => wakeupAt
      case ApprovalEnvelope(_, wakeupAt, _) => wakeupAt
      case TerminalEnvelope(_, _) => None
    }
  }

  /** `node` runs next, `resumes` are the values already recorded for its interrupts and
      `envelope` is the interrupt it is parked on. At `Start` no state is materialised yet. */
  datatype Checkpoint = Checkpoint(node: Node, st: State, resumes: seq<Resume>, envelope: Option<Envelope>)

  datatype Outcome = Advance(cp: Checkpoint) | Park(cp: Checkpoint) | Raise

  // What a node run commits to the task queue before it interrupts or returns.
  datatype Txn =
    | NoTxn
    | Dispatch(key: Key, queue: Queue, payload: Payload)
    | Redispatch(key: Key, payload: Payload)

  function Seed(ticket: Ticket): Checkpoint {
    Checkpoint(Start, State(ticket, None, None, false, None, None, Received, false, None), [], None)
  }

  function FailureClassification(): Classification {
    Classification(General, 0.0, "failed-agent")
  }

  function FailureDraft(): DraftReply {
    DraftReply(ESCALATION_REPLY, ReplyOnly(None), 0.0, "failed-agent")
  }

  // ----- what each node commits

  function TerminalStatus(status: Status): Status {
    if status.Rejected? then Rejected else if status.Escalated? then Escalated else Resolved
  }

  function TerminalReply(status: Status, draft: DraftReply): string {
    if status.Rejected? then REJECTION_REPLY else if status.Escalated? then ESCALATION_REPLY else draft.replyText
  }

  function ExpectedResult(st: State): TicketResult
    requires st.draft.Some? && st.classification.Some?
  {
    TicketResult(st.ticket.id, TerminalStatus(st.status), TerminalReply(st.status, st.draft.value), false,
                 st.classification.value.model + "/" + st.draft.value.model)
  }

  function FinalizeOf(st: State): Payload
    requires st.draft.Some? && st.classification.Some?
  {
    FinalizePayload(st.ticket, st.draft.value.action, ExpectedResult(st))
  }

  function ClassifyKey(st: State): Key { Key(st.ticket.id, Classify, false) }
  function DraftKey(st: State): Key { Key(st.ticket.id, Draft, false) }
  function FinalizeKey(st: State): Key { Key(st.ticket.id, Finalize, false) }
  function FallbackOf(key: Key): Key { key.(fallback := true) }

  function AwaitTxn(key: Key, payload: Payload, inputs: seq<Resume>): Txn {
    if inputs != [] && inputs[0].Timeout? then Redispatch(key, payload) else NoTxn
  }

  function NodeTxn(cp: Checkpoint, inputs: seq<Resume>): Txn {
    var st := cp.st;
    match cp.node
    case DispatchClassify => Dispatch(ClassifyKey(st), AgentQueue, ClassifyPayload(st.ticket))
    case AwaitClassify => AwaitTxn(ClassifyKey(st), ClassifyPayload(st.ticket), inputs)
    case DispatchDraft =>
      if st.classification.None? then NoTxn
      else Dispatch(DraftKey(st), AgentQueue, DraftPayload(st.ticket, st.classification.value))
    case AwaitDraft =>
      if st.classification.None? then NoTxn
      else AwaitTxn(DraftKey(st), DraftPayload(st.ticket, st.classification.value), inputs)
    case Execute =>
      if st.draft.None? || st.classification.None? then NoTxn
      else Dispatch(FinalizeKey(st), SideEffectQueue, FinalizeOf(st))
    case _ => NoTxn
  }

  predicate Redispatches(q: Table, txn: Txn) {
    txn.Redispatch? && IsPending(q, txn.key)
  }

  function ApplyTxn(q: Table, now: Time, txn: Txn): Table {
    match txn
    case NoTxn => q
    case Dispatch(key, queue, payload) => Enqueue(q, now, key, queue, payload)
    case Redispatch(key, payload) =>
      if IsPending(q, key) then
        Enqueue(CancelPending(q, key, "redispatched to fallback"), now, FallbackOf(key), FallbackQueue, payload)
      else q
  }

  // ----- where each node leads

  function Goto(node: Node, st: State): Outcome {
    Advance(Checkpoint(node, st, [], None))
  }

  function ParkOn(cp: Checkpoint, inputs: seq<Resume>, envelope: Envelope): Outcome {
    Park(cp.(resumes := inputs, envelope := Some(envelope)))
  }

  // `await_agent_task`: either the envelope it parks on or the resume it returns.
  datatype Awaited = Suspend(envelope: Envelope) | Return(resume: Resume)

  function AwaitAgent(key: Key, wakeupAt: Option<Time>, inputs: seq<Resume>, redispatched: bool): Awaited {
    if inputs == [] then Suspend(TaskEnvelope(key, wakeupAt))
    else if !inputs[0].Timeout? then Return(inputs[0])
    else if |inputs| == 1 then Suspend(TaskEnvelope(if redispatched then FallbackOf(key) else key, None))
    else Return(inputs[1])
  }

  function ClassifyOutcome(st: State, resume: Resume): Outcome {
    match resume
    case TaskFailed(_, _) =>
      Goto(Execute, st.(classification := Some(FailureClassification()), draft := Some(FailureDraft()),
                        needsApproval := false, status := Escalated, wakeupAt := None))
    case Value(Classified(c)) =>
      Goto(DispatchDraft, st.(classification := Some(c), status := Classifying, wakeupAt := None))
    case _ => Raise
  }

  function DraftOutcome(st: State, resume: Resume): Outcome {
    match resume
    case TaskFailed(_, _) =>
      Goto(Execute, st.(draft := Some(FailureDraft()), needsApproval := false, status := Escalated, wakeupAt := None))
    case Value(Drafted(d)) =>
      Goto(DecideApproval, st.(draft := Some(d), status := Drafting, wakeupAt := None))
    case _ => Raise
  }

  predicate NeedsApproval(draft: DraftReply) {
    draft.action.Refund? || draft.confidence < CONFIDENCE_THRESHOLD
  }

  function DecideOutcome(st: State): Outcome {
    if st.draft.None? then Raise
    else
      var needs := NeedsApproval(st.draft.value);
      Goto(if needs then PrepareApproval else Execute, st.(needsApproval := needs))
  }

  function ApprovalOutcome(cp: Checkpoint, inputs: seq<Resume>): Outcome {
    var st := cp.st;
    if st.draft.None? || st.wakeupAt.None? then Raise
    else if inputs == [] then ParkOn(cp, inputs, ApprovalEnvelope(st.ticket.id, st.wakeupAt, st.draft.value))
    else
      match inputs[0]
      case Timeout => Goto(Execute, st.(status := Escalated))
      case Human(d) => Goto(Execute, if d.approved then st.(decision := Some(d))
                                     else st.(decision := Some(d), status := Rejected))
      case _ => Raise
  }

  function ExecuteOutcome(cp: Checkpoint, inputs: seq<Resume>): Outcome {
    var st := cp.st;
    if st.draft.None? || st.classification.None? then Raise
    else if inputs == [] then ParkOn(cp, inputs, TerminalEnvelope(FinalizeKey(st), ExpectedResult(st)))
    else
      match inputs[0]
      case Value(Finalized(r)) =>
        if r.ticketId != st.ticket.id then Raise
        else Goto(End, st.(result := Some(r), status := r.status, refundExecuted := r.refundExecuted, wakeupAt := None))
      case _ => Raise
  }

  /** Run the checkpoint's node from its start. `inputs` are the recorded resumes followed by
      the new one, `redispatched` is what this run's own redispatch returned and `now` is the
      time its transaction read. */
  function NodeOutcome(cp: Checkpoint, inputs: seq<Resume>, redispatched: bool, now: Time): Outcome {
    var st := cp.st;
    match cp.node
    case Start => Goto(DispatchClassify, st)
    case DispatchClassify =>
      Goto(AwaitClassify, st.(status := Classifying, wakeupAt := Some(now + SCHEDULE_TO_START)))
    case AwaitClassify =>
      (match AwaitAgent(ClassifyKey(st), st.wakeupAt, inputs, redispatched)
       case Suspend(envelope) => ParkOn(cp, inputs, envelope)
       case Return(resume) => ClassifyOutcome(st, resume))
    case DispatchDraft =>
      if st.classification.None? then Raise
      else Goto(AwaitDraft, st.(status := Drafting, wakeupAt := Some(now + SCHEDULE_TO_START)))
    case AwaitDraft =>
      if st.classification.None? then Raise
      else
        (match AwaitAgent(DraftKey(st), st.wakeupAt, inputs, redispatched)
         case Suspend(envelope) => ParkOn(cp, inputs, envelope)
         case Return(resume) => DraftOutcome(st, resume))
    case DecideApproval => DecideOutcome(st)
    case PrepareApproval =>
      Goto(AwaitApproval, st.(status := AwaitingApproval, wakeupAt := Some(now + APPROVAL_TIMEOUT)))
    case AwaitApproval => ApprovalOutcome(cp, inputs)
    case Execute => ExecuteOutcome(cp, inputs)
    case End => Raise
  }
}
