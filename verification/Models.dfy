/** Values shared by every part of the system: tickets, drafts, decisions, results,
    task keys, and the values a parked workflow can be resumed with. */
module Wrappers {
  datatype Option<+T> = None | Some(value: T)
}

module Numbers {
  function Max(a: int, b: int): int { if a < b then b else a }
  function Min(a: int, b: int): int { if a < b then a else b }
}

module Models {
  import opened Wrappers

  type Id = string

  // Database time, in seconds.
  type Time = int

  datatype Category = Billing | Technical | Account | General

  datatype Status =
    | Received | Classifying | Drafting | AwaitingApproval
    | Resolved | Rejected | Escalated
  {
    predicate Terminal() {
      Resolved? || Rejected? || Escalated?
    }

    // How far along the ticket's life a status is; the three terminal ones tie.
    function Rank(): nat {
      match this
      case Received => 0
      case Classifying => 1
      case Drafting => 2
      case AwaitingApproval => 3
      case _ => 4
    }
  }

  datatype Ticket = Ticket(id: Id, customerEmail: string, subject: string, body: string)

  datatype Classification = Classification(category: Category, confidence: real, model: string)

  // A refund always carries an amount; a reply-only action may carry one that nothing reads.
  datatype Action = ReplyOnly(unusedAmount: Option<real>) | Refund(amount: real)

  datatype DraftReply = DraftReply(replyText: string, action: Action, confidence: real, model: string)

  datatype Decision = Decision(approved: bool, approver: string, note: Option<string>)

  datatype TicketResult = TicketResult(
    ticketId: Id, status: Status, replyText: string, refundExecuted: bool, modelPath: string)

  datatype Queue = AgentQueue | FallbackQueue | SideEffectQueue

  datatype Stage = Classify | Draft | Finalize

  // An idempotency key. `KeyText` is the string the database stores.
  datatype Key = Key(ticket: Id, stage: Stage, fallback: bool)

  datatype Payload =
    | ClassifyPayload(ticket: Ticket)
    | DraftPayload(ticket: Ticket, classification: Classification)
    | FinalizePayload(ticket: Ticket, action: Action, result: TicketResult)

  datatype TaskResult =
    | Classified(classification: Classification)
    | Drafted(draft: DraftReply)
    | Finalized(result: TicketResult)

  // What a runner hands to an interrupted graph: a stored task result or a control envelope.
  datatype Resume =
    | Value(result: TaskResult)
    | Timeout
    | TaskFailed(error: Option<string>, permanent: bool)
    | Human(decision: Decision)

  const CONFIDENCE_THRESHOLD: real := 0.75
  const APPROVAL_TIMEOUT: Time := 24 * 60 * 60
  const SCHEDULE_TO_START: Time := 30
  const LEASE: Time := 30
  const MAX_ATTEMPTS: nat := 3

  const REJECTION_REPLY: string :=
    "Thanks for your patience. After review we cannot fulfil this request automatically; "
    + "a human agent will follow up shortly."
  const ESCALATION_REPLY: string :=
    "We need a bit more time with your request and have escalated your ticket to a human agent."

  function StageText(stage: Stage): string {
    match stage
    case Classify => "classify"
    case Draft => "draft"
    case Finalize => "finalize"
  }

  function KeyText(key: Key): string {
    key.ticket + ":" + Suffix(key.stage, key.fallback)
  }

  // Everything before the first colon.
  function BeforeColon(s: string): string {
    if s == [] || s[0] == ':' then [] else [s[0]] + BeforeColon(s[1..])
  }

  lemma {:induction false} TicketBeforeColon(id: string, rest: string)
    requires ':' !in id
    ensures BeforeColon(id + ":" + rest) == id
  {
    var s := id + ":" + rest;
    if id == [] {
      assert s[0] == ':';
    } else {
      assert s[1..] == id[1..] + ":" + rest;
      TicketBeforeColon(id[1..], rest);
      assert s[0] == id[0];
    }
  }

  // What follows the ticket's id and a colon.
  function Suffix(stage: Stage, fallback: bool): string {
    StageText(stage) + (if fallback then ":fallback" else "")
  }

  lemma {:induction false} SuffixStage(stage: Stage, fallback: bool)
    ensures |Suffix(stage, fallback)| == |StageText(stage)| + (if fallback then 9 else 0)
    ensures Suffix(stage, fallback)[0] == match stage case Classify => 'c' case Draft => 'd' case Finalize => 'f'
  {
    assert Suffix(stage, fallback)[0] == StageText(stage)[0];
  }

  // The first character tells the stage, and then the length tells the fallback.
  lemma {:induction false} SuffixInjective(s: Stage, f: bool, t: Stage, g: bool)
    requires Suffix(s, f) == Suffix(t, g)
    ensures s == t && f == g
  {
    SuffixStage(s, f);
    SuffixStage(t, g);
  }

  /** Two idempotency keys of tickets whose ids hold no colon are stored as the same text
      only if they are the same key. */
  lemma {:induction false} KeyTextInjective(a: Key, b: Key)
    requires ':' !in a.ticket && ':' !in b.ticket
    requires KeyText(a) == KeyText(b)
    ensures a == b
  {
    TicketBeforeColon(a.ticket, Suffix(a.stage, a.fallback));
    TicketBeforeColon(b.ticket, Suffix(b.stage, b.fallback));
    DropTicket(a.ticket, Suffix(a.stage, a.fallback));
    DropTicket(b.ticket, Suffix(b.stage, b.fallback));
    SuffixInjective(a.stage, a.fallback, b.stage, b.fallback);
  }

  lemma {:induction false} DropTicket(ticket: string, rest: string)
    ensures (ticket + ":" + rest)[|ticket| + 1..] == rest
  {
  }
}
