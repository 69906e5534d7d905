/** Which tickets a human is asked about, and what a ticket is finalized with, in terms of its draft
    and the decision alone. */
module Gate {
  import opened Wrappers
  import opened Models
  import opened Graph
  import opened Engine
  import opened Safety
  import opened SafetySteps
  import opened Guarantees
  import opened Verdicts

  function Only(decisions: seq<Decision>): Option<Decision> {
    if decisions == [] then None else Some(decisions[0])
  }

  /** In every run, whatever `execute` dispatches is what the ticket is owed for the draft it then
      holds and the one decision applied, if any: an approval resolves it with the draft's text and
      action, a rejection sends the rejection text; without a decision it is resolved exactly when
      the draft is reply-only with a confidence of at least 0.75, and escalated otherwise. */
  lemma {:induction false} DispatchIsOwed(id: Id, steps: seq<Step>, i: nat, p: Payload)
    requires DispatchedAt(id, steps, i, p)
    ensures var st := After(Fresh(id), steps[..i]).cp.value.st;
            var decisions := DecisionsApplied(id, steps[..i]);
            && st.ticket.id == id && st.classification.Some? && st.draft.Some?
            && |decisions| <= 1 && p == Owed(st.ticket, st.classification.value, st.draft.value, Only(decisions))
            && (decisions != [] ==> !GoesUnasked(st.draft.value))
  {
    AlwaysInv(id, steps[..i]);
    AppliedLogged(id, steps[..i]);
    SameId(id, steps[..i]);
    DispatchFits(After(Fresh(id), steps[..i]), steps[i].event.a, p);
  }

  lemma {:induction false} DispatchFits(s: Rows, a: nat, p: Payload)
    requires TablesOk(s) && DispatchesFinal(s, a, p)
    ensures WellFormed(s.id, s.cp.value) && p == OwedFor(s.cp.value.st)
    ensures |s.log.applied| <= 1 && s.cp.value.st.decision == Only(s.log.applied)
    ensures s.log.applied != [] ==> !GoesUnasked(s.cp.value.st.draft.value)
  {
    FinalizesAsOwed(s.id, s.cp.value);
  }

  /** Nobody is asked about a draft that may go out unseen. */
  lemma {:induction false} AsksOnlyWhenDue(id: Id, steps: seq<Step>)
    ensures var cp := After(Fresh(id), steps).cp;
            cp.Some? && (cp.value.node.PrepareApproval? || cp.value.node.AwaitApproval?) ==>
              var draft := cp.value.st.draft;
              draft.Some? && (draft.value.action.Refund? || draft.value.confidence < 0.75)
  {
    AlwaysInv(id, steps);
  }

  /** A node that finds what it asserts missing dispatches nothing and raises. */
  lemma {:induction false} MissingStateRaises(cp: Checkpoint, inputs: seq<Resume>, redispatched: bool, now: Time)
    requires match cp.node
             case DispatchDraft => cp.st.classification.None?
             case AwaitDraft => cp.st.classification.None?
             case DecideApproval => cp.st.draft.None?
             case AwaitApproval => cp.st.draft.None? || cp.st.wakeupAt.None?
             case Execute => cp.st.draft.None? || cp.st.classification.None?
             case _ => false
    ensures NodeTxn(cp, inputs).NoTxn? && NodeOutcome(cp, inputs, redispatched, now).Raise?
  {
  }

  // The step writes the checkpoint `decide_approval` leads to.
  predicate DecidesAt(id: Id, steps: seq<Step>, i: nat) {
    i < |steps| && steps[i].event.Commit?
    && (var before, after := After(Fresh(id), steps[..i]).cp, After(Fresh(id), steps[..i + 1]).cp;
        before.Some? && before.value.node.DecideApproval? && after.Some? && after != before)
  }

  /** Every step past `decide_approval` leads to the approver exactly when the draft may not go out
      unseen, and to `execute` otherwise. */
  lemma {:induction false} GateExactly(id: Id, steps: seq<Step>, i: nat)
    requires DecidesAt(id, steps, i)
    ensures var before, after := After(Fresh(id), steps[..i]).cp.value, After(Fresh(id), steps[..i + 1]).cp.value;
            && before.st.draft.Some?
            && var asks := before.st.draft.value.action.Refund? || before.st.draft.value.confidence < 0.75;
            && after.node == (if asks then PrepareApproval else Execute)
            && after.st == before.st.(needsApproval := asks) && after.resumes == [] && after.envelope.None?
  {
    assert steps[..i + 1][..i] == steps[..i];
    AlwaysInv(id, steps[..i]);
    GateCommit(After(Fresh(id), steps[..i]), steps[i].event.a);
  }

  lemma {:induction false} GateCommit(s: Rows, a: nat)
    requires s.cp.Some? && s.cp.value.node.DecideApproval? && s.cp.value.st.draft.Some?
    ensures var t := DoCommit(s, a);
            t.cp != s.cp ==>
              var draft := s.cp.value.st.draft.value;
              var asks := draft.action.Refund? || draft.confidence < 0.75;
              t.cp == Some(Checkpoint(if asks then PrepareApproval else Execute,
                                      s.cp.value.st.(needsApproval := asks), [], None))
  {
  }
}
