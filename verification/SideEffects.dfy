/** The ledgers, the stored result, and `run_finalize` one commit at a time. */
module SideEffects {
  import opened Wrappers
  import opened Models

  datatype SentReply = SentReply(customerEmail: string, replyText: string)

  // One ticket's rows in `refunds`, `sent_replies`, `ticket_results` and the attempt logs.
  datatype Effects = Effects(
    refund: Option<real>, reply: Option<SentReply>, result: Option<TicketResult>,
    refundAttempts: seq<nat>, replyAttempts: seq<nat>)

  const NoEffects := Effects(None, None, None, [], [])

  // How far a delivery has got.
  datatype Phase = Began | Refunded | LedgerRead | Replied | Recorded
  {
    // How many commits may still follow.
    function Rank(): nat {
      match this
      case Began => 4
      case Refunded => 3
      case LedgerRead => 2
      case Replied => 1
      case Recorded => 0
    }
  }

  datatype Delivery = Delivery(payload: Payload, attempt: nat, progress: Phase, refundExecuted: bool)

  function NewDelivery(payload: Payload, attempt: nat): Delivery {
    Delivery(payload, attempt, Began, false)
  }

  predicate Refundable(payload: Payload) {
    payload.FinalizePayload? && payload.result.status.Resolved? && payload.action.Refund?
  }

  // The attempt is logged every time, the effect only the first.
  function RecordRefund(fx: Effects, amount: real, attempt: nat): Effects {
    fx.(refundAttempts := fx.refundAttempts + [attempt], refund := if fx.refund.Some? then fx.refund else Some(amount))
  }

  function RecordSentReply(fx: Effects, reply: SentReply, attempt: nat): Effects {
    fx.(replyAttempts := fx.replyAttempts + [attempt], reply := if fx.reply.Some? then fx.reply else Some(reply))
  }

  function SaveResult(fx: Effects, result: TicketResult): Effects {
    fx.(result := Some(result))
  }

  function ReplyOf(payload: Payload): SentReply
    requires payload.FinalizePayload?
  {
    SentReply(payload.ticket.customerEmail, payload.result.replyText)
  }

  // The result a delivery stores and completes its task with.
  function ResultOf(d: Delivery): TicketResult
    requires d.payload.FinalizePayload?
  {
    d.payload.result.(refundExecuted := d.refundExecuted)
  }

  // One commit of `run_finalize`.
  function Deliver(fx: Effects, d: Delivery): (Effects, Delivery)
    requires d.payload.FinalizePayload?
  {
    match d.progress
    case Began =>
      if Refundable(d.payload) then
        (RecordRefund(fx, d.payload.action.amount, d.attempt), d.(progress := Refunded))
      else (RecordSentReply(fx, ReplyOf(d.payload), d.attempt), d.(progress := Replied))
    case Refunded => (fx, d.(progress := LedgerRead, refundExecuted := fx.refund.Some?))
    case LedgerRead => (RecordSentReply(fx, ReplyOf(d.payload), d.attempt), d.(progress := Replied))
    case Replied => (SaveResult(fx, ResultOf(d)), d.(progress := Recorded))
    case Recorded => (fx, d)
  }

  /** The flag a delivery stores and completes its task with is what it read from the ledger, after it
      recorded its refund if it has one; one that has none never says so. */
  lemma {:induction false} StoresWhatItRead(fx: Effects, d: Delivery)
    requires d.payload.FinalizePayload?
    ensures var (gx, e) := Deliver(fx, d);
            && (d.progress.Refunded? ==> e.refundExecuted == fx.refund.Some?)
            && (!d.progress.Refunded? ==> e.refundExecuted == d.refundExecuted)
            && (d.progress.Replied? ==>
                  gx.result == Some(d.payload.result.(refundExecuted := d.refundExecuted))
                  && Some(ResultOf(e)) == gx.result)
  {
  }

  // ----- what the tables may hold while deliveries of one payload run

  // What one undisturbed delivery computes.
  function FinalResult(p: Payload): TicketResult
    requires p.FinalizePayload?
  {
    p.result.(refundExecuted := Refundable(p))
  }

  // The three effect tables only ever hold what the one finalize payload says.
  predicate LedgerOk(final: Option<Payload>, fx: Effects) {
    && (fx.refund.Some? || fx.reply.Some? || fx.result.Some? ==> final.Some? && final.value.FinalizePayload?)
    && (fx.refund.Some? ==> Refundable(final.value) && fx.refund.value == final.value.action.amount)
    && (fx.reply.Some? ==> fx.reply.value == ReplyOf(final.value))
    && (fx.result.Some? ==> fx.result.value == FinalResult(final.value) && fx.reply.Some?
                            && (Refundable(final.value) ==> fx.refund.Some?))
  }

  predicate DeliveryOk(fx: Effects, d: Delivery) {
    match d.progress
    case Began => !d.refundExecuted
    case Refunded => Refundable(d.payload) && fx.refund.Some?
    case LedgerRead => Refundable(d.payload) && fx.refund.Some? && d.refundExecuted
    case Replied => d.refundExecuted == Refundable(d.payload) && fx.reply.Some?
        && (d.refundExecuted ==> fx.refund.Some?)
    case Recorded => d.refundExecuted == Refundable(d.payload) && fx.result.Some?
  }

  // Effects are never undone or changed.
  predicate EffectsGrow(fx: Effects, gx: Effects) {
    && (fx.refund.Some? ==> gx.refund == fx.refund)
    && (fx.reply.Some? ==> gx.reply == fx.reply)
    && (fx.result.Some? ==> gx.result == fx.result)
  }

  lemma {:induction false} DeliverKeeps(final: Payload, fx: Effects, d: Delivery)
    requires final.FinalizePayload? && d.payload == final && LedgerOk(Some(final), fx) && DeliveryOk(fx, d)
    ensures var (gx, e) := Deliver(fx, d);
            LedgerOk(Some(final), gx) && DeliveryOk(gx, e) && EffectsGrow(fx, gx) && e.payload == final
  {
  }

  // ----- one undisturbed delivery, and any interleaving of many

  // Run one delivery from where it is to its end.
  function RunToEnd(fx: Effects, d: Delivery): Effects
    requires d.payload.FinalizePayload?
    decreases d.progress.Rank()
  {
    if d.progress.Recorded? then fx
    else
      var (gx, e) := Deliver(fx, d);
      RunToEnd(gx, e)
  }

  function Undisturbed(p: Payload): Effects
    requires p.FinalizePayload?
  {
    RunToEnd(NoEffects, NewDelivery(p, 1))
  }

  // Equal but for the attempt logs.
  predicate SameEffects(fx: Effects, gx: Effects) {
    fx.refund == gx.refund && fx.reply == gx.reply && fx.result == gx.result
  }

  lemma {:induction false} UndisturbedEffects(p: Payload)
    requires p.FinalizePayload?
    ensures var fx := Undisturbed(p);
            && fx.refund == (if Refundable(p) then Some(p.action.amount) else None)
            && fx.reply == Some(ReplyOf(p)) && fx.result == Some(FinalResult(p))
  {
    var d := NewDelivery(p, 1);
    var (f1, d1) := Deliver(NoEffects, d);
    var (f2, d2) := Deliver(f1, d1);
    var (f3, d3) := Deliver(f2, d2);
    var (f4, d4) := Deliver(f3, d3);
    assert RunToEnd(NoEffects, d) == RunToEnd(f1, d1) == RunToEnd(f2, d2);
    assert d2.progress.Recorded? || RunToEnd(f2, d2) == RunToEnd(f3, d3) == RunToEnd(f4, d4);
  }

  // Deliveries of one task: one more begins, one commits its next statement, one crashes.
  datatype Move = Begin(a: nat, attempt: nat) | Next(a: nat) | Abandon(a: nat)

  datatype DeliveryPool = DeliveryPool(fx: Effects, running: map<nat, Delivery>)

  function Moved(s: DeliveryPool, p: Payload, move: Move): DeliveryPool
    requires p.FinalizePayload? && forall a :: a in s.running ==> s.running[a].payload == p
  {
    match move
    case Begin(a, attempt) => if a in s.running then s else s.(running := s.running[a := NewDelivery(p, attempt)])
    case Next(a) =>
      if a !in s.running then s
      else
        var (fx, d) := Deliver(s.fx, s.running[a]);
        DeliveryPool(fx, s.running[a := d])
    case Abandon(a) => s.(running := s.running - {a})
  }

  function Interleaved(p: Payload, moves: seq<Move>): (s: DeliveryPool)
    requires p.FinalizePayload?
    ensures forall a :: a in s.running ==> s.running[a].payload == p
  {
    if moves == [] then DeliveryPool(NoEffects, map[])
    else Moved(Interleaved(p, moves[..|moves| - 1]), p, moves[|moves| - 1])
  }

  lemma {:induction false} InterleavedOk(p: Payload, moves: seq<Move>)
    requires p.FinalizePayload?
    ensures var s := Interleaved(p, moves);
            LedgerOk(Some(p), s.fx) && forall a :: a in s.running ==> DeliveryOk(s.fx, s.running[a])
  {
    if moves != [] {
      var n := |moves| - 1;
      InterleavedOk(p, moves[..n]);
      var before := Interleaved(p, moves[..n]);
      if moves[n].Next? && moves[n].a in before.running {
        DeliverKeeps(p, before.fx, before.running[moves[n].a]);
      }
    }
  }

  /** However many deliveries of one finalize task start, crash and overlap: once one of them has
      stored its result the effects are those of a single delivery, and every delivery that gets
      to the end computes the same result. Only the attempt logs differ. */
  lemma {:induction false} AnyInterleaving(p: Payload, moves: seq<Move>, a: nat)
    requires p.FinalizePayload?
    ensures var s := Interleaved(p, moves);
            && (s.fx.result.Some? ==> SameEffects(s.fx, Undisturbed(p)))
            && (a in s.running && s.running[a].progress.Recorded? ==>
                  SameEffects(s.fx, Undisturbed(p)) && Some(ResultOf(s.running[a])) == Undisturbed(p).result)
  {
    InterleavedOk(p, moves);
    UndisturbedEffects(p);
  }
}
