/** What a ticket is owed at its end. */
module Verdicts {
  import opened Wrappers
  import opened Models
  import opened Graph

  // A draft that may go out unseen.
  predicate GoesUnasked(draft: DraftReply) {
    draft.action.ReplyOnly? && draft.confidence >= 0.75
  }

  // The end a ticket is owed: without a decision only a draft that may go out unseen resolves it.
  function OwedStatus(draft: DraftReply, decision: Option<Decision>): Status {
    match decision
    case Some(d) => if d.approved then Resolved else Rejected
    case None => if GoesUnasked(draft) then Resolved else Escalated
  }

  function OwedReply(draft: DraftReply, decision: Option<Decision>): string {
    match OwedStatus(draft, decision)
    case Resolved => draft.replyText
    case Rejected => REJECTION_REPLY
    case _ => ESCALATION_REPLY
  }

  function Owed(ticket: Ticket, c: Classification, draft: DraftReply, decision: Option<Decision>): Payload {
    FinalizePayload(ticket, draft.action,
                    TicketResult(ticket.id, OwedStatus(draft, decision), OwedReply(draft, decision), false,
                                 c.model + "/" + draft.model))
  }

  // What the state a checkpoint carries is owed.
  function OwedFor(st: State): Payload
    requires st.classification.Some? && st.draft.Some?
  {
    Owed(st.ticket, st.classification.value, st.draft.value, st.decision)
  }
}
