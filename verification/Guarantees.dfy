/** What holds after every run of committed steps. */
module Guarantees {
  import opened Wrappers
  import opened Models
  import opened TaskQueue
  import opened WorkflowRuns
  import opened Graph
  import opened SideEffects
  import opened Engine
  import opened Frames
  import opened Safety
  import opened SafetySteps
  import opened Outbox

  // ----- the log says what happened

  lemma {:induction false} SubmitAccepted(s: Rows, now: Time, decision: Decision)
    ensures DoSubmit(s, now, decision).log.accepted == s.log.accepted + (if Accepts(s) then [decision] else [])
  {
  }

  lemma {:induction false} StepAccepted(s: Rows, now: Time, e: Event)
    ensures Apply(s, now, e).log.accepted
            == s.log.accepted + (if e.Submit? && Accepts(s) then [e.decision] else [])
  {
    if e.Submit? {
      SubmitAccepted(s, now, e.decision);
    } else {
      LogFrame(s, now, e);
      if InsertEvent(e) {
        OthersAcceptNothing(s, now, e);
      }
    }
  }

  lemma {:induction false} OthersAcceptNothing(s: Rows, now: Time, e: Event)
    requires InsertEvent(e) && !e.Submit?
    ensures ApplyInsert(s, now, e).log.accepted == s.log.accepted
    ensures ApplyInsert(s, now, e).log.shown == s.log.shown
  {
    InsertFrame(s, now, e);
  }

  // What a status held after a step and not before says of its checkpoint.
  ghost predicate HeldByCheckpoint(s: Rows, t: Rows) {
    && s.log.held <= t.log.held
    && (forall x :: x in t.log.held && x !in s.log.held ==>
          t.cp.Some? && !t.cp.value.node.Start? && t.cp.value.st.status == x)
  }

  lemma {:induction false} CommitHeld(s: Rows, a: nat)
    ensures HeldByCheckpoint(s, DoCommit(s, a))
  {
  }

  lemma {:induction false} StepHeld(s: Rows, now: Time, e: Event)
    ensures HeldByCheckpoint(s, Apply(s, now, e))
  {
    if e.Commit? {
      CommitHeld(s, e.a);
    } else {
      OnlyCommitsWrite(s, now, e);
    }
  }

  // The API accepted this decision in the i-th step.
  predicate AcceptedAt(id: Id, steps: seq<Step>, i: nat, d: Decision) {
    i < |steps| && steps[i].event == Submit(d) && Accepts(After(Fresh(id), steps[..i]))
  }

  lemma {:induction false} AcceptedWasSubmitted(id: Id, steps: seq<Step>, d: Decision)
    requires d in After(Fresh(id), steps).log.accepted
    ensures exists i: nat :: AcceptedAt(id, steps, i, d)
  {
    var n := |steps| - 1;
    var before := After(Fresh(id), steps[..n]);
    StepAccepted(before, steps[n].now, steps[n].event);
    if d in before.log.accepted {
      AcceptedWasSubmitted(id, steps[..n], d);
      var i: nat :| AcceptedAt(id, steps[..n], i, d);
      assert steps[..n][..i] == steps[..i];
      assert AcceptedAt(id, steps, i, d);
    } else {
      assert AcceptedAt(id, steps, n, d);
    }
  }

  // The ticket's checkpoint had this status after the first i steps.
  predicate HadStatus(id: Id, steps: seq<Step>, i: nat, x: Status) {
    i <= |steps| && After(Fresh(id), steps[..i]).cp.Some?
    && After(Fresh(id), steps[..i]).cp.value.st.status == x
  }

  lemma {:induction false} HeldWasStatus(id: Id, steps: seq<Step>, x: Status)
    requires x in After(Fresh(id), steps).log.held
    ensures exists i: nat :: HadStatus(id, steps, i, x)
  {
    var n := |steps| - 1;
    var before := After(Fresh(id), steps[..n]);
    StepHeld(before, steps[n].now, steps[n].event);
    if x in before.log.held {
      HeldWasStatus(id, steps[..n], x);
      var i: nat :| HadStatus(id, steps[..n], i, x);
      assert steps[..n][..i] == steps[..i];
      assert HadStatus(id, steps, i, x);
    } else {
      assert steps[..|steps|] == steps;
      assert HadStatus(id, steps, |steps|, x);
    }
  }

  // ----- no refund without approval

  // The prompted draft stays, or is the one the checkpoint just written puts to the approver.
  ghost predicate PromptsOnce(s: Rows, t: Rows) {
    && Kept(s.log.prompted, t.log.prompted)
    && (t.log.prompted == s.log.prompted
        || (t.cp.Some? && t.cp.value.node.AwaitApproval? && t.cp.value.st.draft == t.log.prompted))
  }

  lemma {:induction false} CommitPrompts(s: Rows, a: nat)
    requires Inv(s)
    ensures PromptsOnce(s, DoCommit(s, a))
  {
    if At(s, a) && s.actors[a].Ran? {
      var x := s.actors[a];
      if s.cp == Some(x.from) && !NodeOutcome(x.from, x.inputs, x.redispatched, x.stamp).Raise? {
        var resume := RanResume(s, a);
        CommitLogOk(s, x.from, resume, x.redispatched, x.stamp);
      }
    }
  }

  lemma {:induction false} StepPrompted(s: Rows, now: Time, e: Event)
    requires Inv(s)
    ensures PromptsOnce(s, Apply(s, now, e))
  {
    if e.Commit? {
      CommitPrompts(s, e.a);
    } else {
      OnlyCommitsWrite(s, now, e);
    }
  }

  // After the first k steps the ticket waits for an approver, who is shown this draft.
  predicate ShownAt(id: Id, steps: seq<Step>, k: nat, draft: DraftReply) {
    k <= |steps| && After(Fresh(id), steps[..k]).cp.Some?
    && After(Fresh(id), steps[..k]).cp.value.node.AwaitApproval?
    && After(Fresh(id), steps[..k]).cp.value.st.draft == Some(draft)
  }

  lemma {:induction false} PromptedWasShown(id: Id, steps: seq<Step>, draft: DraftReply)
    requires After(Fresh(id), steps).log.prompted == Some(draft)
    ensures exists k: nat :: ShownAt(id, steps, k, draft)
  {
    var n := |steps| - 1;
    var before := After(Fresh(id), steps[..n]);
    AlwaysInv(id, steps[..n]);
    StepPrompted(before, steps[n].now, steps[n].event);
    if before.log.prompted == Some(draft) {
      PromptedWasShown(id, steps[..n], draft);
      var k: nat :| ShownAt(id, steps[..n], k, draft);
      assert steps[..n][..k] == steps[..k];
      assert ShownAt(id, steps, k, draft);
    } else {
      assert steps[..|steps|] == steps;
      assert ShownAt(id, steps, |steps|, draft);
    }
  }

  lemma {:induction false} PromptKept(id: Id, steps: seq<Step>, i: nat)
    requires i <= |steps|
    ensures Kept(After(Fresh(id), steps[..i]).log.prompted, After(Fresh(id), steps).log.prompted)
  {
    if i == |steps| {
      assert steps[..i] == steps;
    } else {
      var n := |steps| - 1;
      PromptKept(id, steps[..n], i);
      assert steps[..n][..i] == steps[..i];
      AlwaysInv(id, steps[..n]);
      StepPrompted(After(Fresh(id), steps[..n]), steps[n].now, steps[n].event);
    }
  }

  // The invariant's account of a refund.
  lemma {:induction false} RefundRests(s: Rows)
    requires Inv(s) && s.fx.refund.Some?
    ensures && s.log.accepted != [] && s.log.accepted[0].approved
            && s.log.prompted.Some? && s.log.prompted.value.action == Refund(s.fx.refund.value)
  {
  }

  lemma {:induction false} AcceptingIsPrompted(s: Rows)
    requires Inv(s) && Accepts(s)
    ensures s.log.prompted.Some?
  {
  }

  /** Money moves only after the API accepted an approval, and the amount is that of the draft
      the approver had been shown before deciding. */
  lemma {:induction false} NoRefundWithoutApproval(id: Id, steps: seq<Step>, amount: real)
    requires After(Fresh(id), steps).fx.refund == Some(amount)
    ensures exists i: nat, d, k: nat, draft ::
              && AcceptedAt(id, steps, i, d) && d.approved
              && k <= i && ShownAt(id, steps, k, draft) && draft.action == Refund(amount)
  {
    AlwaysInv(id, steps);
    RefundRests(After(Fresh(id), steps));
    var d := After(Fresh(id), steps).log.accepted[0];
    AcceptedWasSubmitted(id, steps, d);
    var i: nat :| AcceptedAt(id, steps, i, d);
    AlwaysInv(id, steps[..i]);
    AcceptingIsPrompted(After(Fresh(id), steps[..i]));
    var draft := After(Fresh(id), steps[..i]).log.prompted.value;
    PromptKept(id, steps, i);
    PromptedWasShown(id, steps[..i], draft);
    var k: nat :| ShownAt(id, steps[..i], k, draft);
    assert steps[..i][..k] == steps[..k];
    assert ShownAt(id, steps, k, draft);
  }

  // ----- the draft in the thread when a decision is accepted

  ghost predicate ShownOk(s: Rows) {
    && |s.log.shown| == |s.log.accepted|
    && (s.log.applied != [] ==> s.log.shown != [] && s.log.shown[0] == s.log.prompted)
    && (s.cp.Some? && s.cp.value.node.Rank() < Execute.Rank() && s.log.shown != [] ==>
          s.log.prompted.Some? && s.log.shown[0] == s.log.prompted)
  }

  // What the other steps leave of the log and the checkpoint.
  ghost predicate SameDecisions(s: Rows, t: Rows) {
    && t.log.accepted == s.log.accepted && t.log.shown == s.log.shown
    && t.log.applied == s.log.applied && t.log.prompted == s.log.prompted
    && (t.cp == s.cp || t.cp.None?)
  }

  lemma {:induction false} OthersKeepDecisions(s: Rows, now: Time, e: Event)
    requires !e.Submit? && !e.Commit? && !e.SeedTicket?
    ensures SameDecisions(s, Apply(s, now, e))
  {
    OnlyCommitsWrite(s, now, e);
    LogFrame(s, now, e);
    if InsertEvent(e) {
      OthersAcceptNothing(s, now, e);
    }
  }

  lemma {:induction false} SeedKeepsShown(s: Rows, a: nat, ticket: Ticket)
    requires Inv(s) && ShownOk(s)
    ensures ShownOk(DoSeed(s, a, ticket))
  {
  }

  lemma {:induction false} SubmitKeepsShown(s: Rows, now: Time, decision: Decision)
    requires Inv(s) && ShownOk(s)
    ensures ShownOk(DoSubmit(s, now, decision))
  {
  }

  lemma {:induction false} CommitKeepsShown(s: Rows, a: nat)
    requires Inv(s) && ShownOk(s)
    ensures ShownOk(DoCommit(s, a))
  {
    if At(s, a) && s.actors[a].Ran? {
      var x := s.actors[a];
      if s.cp == Some(x.from) && !NodeOutcome(x.from, x.inputs, x.redispatched, x.stamp).Raise? {
        var resume := RanResume(s, a);
        var to := NodeOutcome(x.from, x.inputs, x.redispatched, x.stamp).cp;
        NodeKeepsShape(s.id, x.from, resume, x.redispatched, x.stamp);
        CommitLogOk(s, x.from, resume, x.redispatched, x.stamp);
        ShownAfter(s, x.from, resume, to);
      }
    }
  }

  lemma {:induction false} ShownAfter(s: Rows, from: Checkpoint, resume: Option<Resume>, to: Checkpoint)
    requires Inv(s) && ShownOk(s) && s.cp == Some(from) && Follows(s.id, from, resume, to)
    requires var log := CommitLog(s.log, from, InputsOf(from, resume), to);
             LogOk(s.id, s.run, s.archived, log) && Kept(s.log.prompted, log.prompted)
    ensures ShownOk(s.(cp := Some(to), log := CommitLog(s.log, from, InputsOf(from, resume), to)))
  {
    InputsCases(from, resume);
  }

  lemma {:induction false} AlwaysShown(id: Id, steps: seq<Step>)
    ensures ShownOk(After(Fresh(id), steps))
  {
    if steps != [] {
      var n := |steps| - 1;
      var before := After(Fresh(id), steps[..n]);
      AlwaysShown(id, steps[..n]);
      AlwaysInv(id, steps[..n]);
      if steps[n].event.Commit? {
        CommitKeepsShown(before, steps[n].event.a);
      } else if steps[n].event.Submit? {
        SubmitKeepsShown(before, steps[n].now, steps[n].event.decision);
      } else if steps[n].event.SeedTicket? {
        SeedKeepsShown(before, steps[n].event.a, steps[n].event.ticket);
      } else {
        OthersKeepDecisions(before, steps[n].now, steps[n].event);
      }
    }
  }

  // A refund rests on the first acceptance: an approval, with the refunded draft in the thread.
  lemma {:induction false} RefundRestsOnShown(s: Rows)
    requires Inv(s) && ShownOk(s) && s.fx.refund.Some?
    ensures && s.log.accepted != [] && s.log.accepted[0].approved
            && s.log.shown != [] && s.log.shown[0].Some? && s.log.shown[0].value.action == Refund(s.fx.refund.value)
  {
  }

  // ----- first decision wins

  lemma {:induction false} FirstAccepted(id: Id, steps: seq<Step>)
    requires After(Fresh(id), steps).log.accepted != []
    ensures exists i: nat :: AcceptedAt(id, steps, i, After(Fresh(id), steps).log.accepted[0])
                             && After(Fresh(id), steps[..i]).log.accepted == []
  {
    var n := |steps| - 1;
    var before := After(Fresh(id), steps[..n]);
    var first := After(Fresh(id), steps).log.accepted[0];
    StepAccepted(before, steps[n].now, steps[n].event);
    if before.log.accepted == [] {
      assert AcceptedAt(id, steps, n, first);
    } else {
      FirstAccepted(id, steps[..n]);
      var i: nat :| AcceptedAt(id, steps[..n], i, first) && After(Fresh(id), steps[..n][..i]).log.accepted == [];
      assert steps[..n][..i] == steps[..i];
      assert AcceptedAt(id, steps, i, first);
    }
  }

  // Nothing was accepted before the i-th step.
  lemma {:induction false} AcceptedThen(id: Id, steps: seq<Step>, j: nat, d: Decision)
    requires AcceptedAt(id, steps, j, d)
    ensures After(Fresh(id), steps[..j + 1]).log.accepted != []
  {
    assert steps[..j + 1][..j] == steps[..j];
    StepAccepted(After(Fresh(id), steps[..j]), steps[j].now, steps[j].event);
  }

  lemma {:induction false} StepKeepsAccepted(s: Rows, now: Time, e: Event)
    ensures s.log.accepted != [] ==> Apply(s, now, e).log.accepted != []
  {
    StepAccepted(s, now, e);
  }

  lemma {:induction false} AcceptedStays(id: Id, steps: seq<Step>, i: nat)
    requires i <= |steps| && After(Fresh(id), steps[..i]).log.accepted != []
    ensures After(Fresh(id), steps).log.accepted != []
  {
    if i == |steps| {
      assert steps[..i] == steps;
    } else {
      var n := |steps| - 1;
      assert steps[..n][..i] == steps[..i];
      AcceptedStays(id, steps[..n], i);
      StepKeepsAccepted(After(Fresh(id), steps[..n]), steps[n].now, steps[n].event);
    }
  }

  lemma {:induction false} NoneAcceptedBefore(id: Id, steps: seq<Step>, j: nat, d: Decision)
    requires AcceptedAt(id, steps, j, d)
    ensures After(Fresh(id), steps).log.accepted != []
  {
    AcceptedThen(id, steps, j, d);
    AcceptedStays(id, steps, j + 1);
  }

  // The step writes the checkpoint a decision leads `await_approval` to.
  predicate AppliesDecision(s: Rows, e: Event) {
    e.Commit? && At(s, e.a) && s.actors[e.a].Ran?
    && (var x := s.actors[e.a];
        && s.cp == Some(x.from) && !NodeOutcome(x.from, x.inputs, x.redispatched, x.stamp).Raise?
        && x.from.node.AwaitApproval? && x.inputs != [] && x.inputs[0].Human?)
  }

  function DecisionsApplied(id: Id, steps: seq<Step>): seq<Decision> {
    if steps == [] then []
    else
      var before := After(Fresh(id), steps[..|steps| - 1]);
      var e := steps[|steps| - 1].event;
      DecisionsApplied(id, steps[..|steps| - 1])
      + (if AppliesDecision(before, e) then [before.actors[e.a].inputs[0].decision] else [])
  }

  lemma {:induction false} CommitApplied(s: Rows, a: nat)
    ensures DoCommit(s, a).log.applied
            == s.log.applied + (if AppliesDecision(s, Commit(a)) then [s.actors[a].inputs[0].decision] else [])
  {
  }

  lemma {:induction false} StepApplied(s: Rows, now: Time, e: Event)
    ensures Apply(s, now, e).log.applied
            == s.log.applied + (if AppliesDecision(s, e) then [s.actors[e.a].inputs[0].decision] else [])
  {
    if e.Commit? {
      CommitApplied(s, e.a);
    } else {
      OnlyCommitsWrite(s, now, e);
    }
  }

  lemma {:induction false} AppliedLogged(id: Id, steps: seq<Step>)
    ensures DecisionsApplied(id, steps) == After(Fresh(id), steps).log.applied
  {
    if steps != [] {
      var n := |steps| - 1;
      AppliedLogged(id, steps[..n]);
      StepApplied(After(Fresh(id), steps[..n]), steps[n].now, steps[n].event);
    }
  }

  lemma {:induction false} AppliedIsFirst(s: Rows, d: Decision)
    requires Inv(s) && s.cp.Some? && s.cp.value.st.decision == Some(d)
    ensures s.log.applied == [d] && s.log.accepted != [] && s.log.accepted[0] == d
  {
  }

  // Nothing had been accepted before this acceptance.
  ghost predicate EarliestAt(id: Id, steps: seq<Step>, i: nat, d: Decision) {
    AcceptedAt(id, steps, i, d) && forall j: nat, e :: j < i ==> !AcceptedAt(id, steps, j, e)
  }

  lemma {:induction false} NoneBefore(id: Id, steps: seq<Step>, i: nat)
    requires i <= |steps| && After(Fresh(id), steps[..i]).log.accepted == []
    ensures forall j: nat, e :: j < i ==> !AcceptedAt(id, steps, j, e)
  {
    forall j: nat, e | j < i ensures !AcceptedAt(id, steps, j, e) {
      if AcceptedAt(id, steps, j, e) {
        assert steps[..i][..j] == steps[..j];
        NoneAcceptedBefore(id, steps[..i], j, e);
      }
    }
  }

  lemma {:induction false} FirstIsEarliest(id: Id, steps: seq<Step>) returns (i: nat)
    requires After(Fresh(id), steps).log.accepted != []
    ensures EarliestAt(id, steps, i, After(Fresh(id), steps).log.accepted[0])
  {
    FirstAccepted(id, steps);
    i :| AcceptedAt(id, steps, i, After(Fresh(id), steps).log.accepted[0])
         && After(Fresh(id), steps[..i]).log.accepted == [];
    NoneBefore(id, steps, i);
  }

  /** The decision the graph carries is the first one the API accepted for the ticket, and the only
      one any step applied. */
  lemma {:induction false} FirstDecisionWins(id: Id, steps: seq<Step>, d: Decision)
    requires var s := After(Fresh(id), steps); s.cp.Some? && s.cp.value.st.decision == Some(d)
    ensures DecisionsApplied(id, steps) == [d]
    ensures exists i: nat :: EarliestAt(id, steps, i, d)
  {
    AlwaysInv(id, steps);
    AppliedLogged(id, steps);
    AppliedIsFirst(After(Fresh(id), steps), d);
    var i := FirstIsEarliest(id, steps);
  }

  /** There is never more than one unconsumed approval signal. */
  lemma {:induction false} OneUnconsumedSignal(id: Id, steps: seq<Step>, i: nat, j: nat)
    requires var s := After(Fresh(id), steps); Unconsumed(s.signals, i, id) && Unconsumed(s.signals, j, id)
    ensures i == j
  {
    AlwaysInv(id, steps);
    SameId(id, steps);
  }

  lemma {:induction false} StepSameId(s: Rows, now: Time, e: Event)
    ensures Apply(s, now, e).id == s.id
  {
    LogFrame(s, now, e);
  }

  lemma {:induction false} SameId(id: Id, steps: seq<Step>)
    ensures After(Fresh(id), steps).id == id
  {
    if steps != [] {
      var n := |steps| - 1;
      SameId(id, steps[..n]);
      StepSameId(After(Fresh(id), steps[..n]), steps[n].now, steps[n].event);
    }
  }

  // ----- status

  lemma {:induction false} HeldGrows(id: Id, steps: seq<Step>, i: nat)
    requires i <= |steps|
    ensures After(Fresh(id), steps[..i]).log.held <= After(Fresh(id), steps).log.held
  {
    if i == |steps| {
      assert steps[..i] == steps;
    } else {
      var n := |steps| - 1;
      HeldGrows(id, steps[..n], i);
      assert steps[..n][..i] == steps[..i];
      StepHeld(After(Fresh(id), steps[..n]), steps[n].now, steps[n].event);
    }
  }

  predicate AtLeast(after: Status, before: Status) {
    before.Rank() <= after.Rank() && (before.Terminal() ==> after == before)
  }

  lemma {:induction false} HeldIsBelow(s: Rows, x: Status)
    requires Inv(s) && s.cp.Some? && (x in s.log.held || x.Received?)
    ensures AtLeast(s.cp.value.st.status, x)
  {
  }

  lemma {:induction false} StatusIsHeld(s: Rows)
    requires Inv(s) && s.cp.Some?
    ensures s.cp.value.st.status in s.log.held || s.cp.value.st.status.Received?
  {
  }

  /** A ticket's status never moves backwards, and a terminal status never changes. */
  lemma {:induction false} StatusNeverRegresses(id: Id, steps: seq<Step>, i: nat, x: Status)
    requires HadStatus(id, steps, i, x) && After(Fresh(id), steps).cp.Some?
    ensures AtLeast(After(Fresh(id), steps).cp.value.st.status, x)
  {
    AlwaysInv(id, steps[..i]);
    StatusIsHeld(After(Fresh(id), steps[..i]));
    HeldGrows(id, steps, i);
    AlwaysInv(id, steps);
    HeldIsBelow(After(Fresh(id), steps), x);
  }

  /** The run row's status is one the checkpoint has had, and is never ahead of it. */
  lemma {:induction false} ProjectionLags(id: Id, steps: seq<Step>)
    requires After(Fresh(id), steps).run.Some?
    ensures exists i: nat :: HadStatus(id, steps, i, After(Fresh(id), steps).run.value.status)
    ensures var s := After(Fresh(id), steps);
            s.cp.Some? ==> AtLeast(s.cp.value.st.status, s.run.value.status)
  {
    AlwaysInv(id, steps);
    var s := After(Fresh(id), steps);
    HeldWasStatus(id, steps, s.run.value.status);
    if s.cp.Some? {
      HeldIsBelow(s, s.run.value.status);
    }
  }

  // ----- at most six resumes

  // The step writes a checkpoint whose node took the resume.
  predicate TakesResume(s: Rows, e: Event) {
    e.Commit? && At(s, e.a) && s.actors[e.a].Ran?
    && (var x := s.actors[e.a];
        && s.cp == Some(x.from) && !NodeOutcome(x.from, x.inputs, x.redispatched, x.stamp).Raise?
        && |x.inputs| > |x.from.resumes| && x.from.node.Interrupts())
  }

  function ResumesTaken(id: Id, steps: seq<Step>): nat {
    if steps == [] then 0
    else
      var n := |steps| - 1;
      ResumesTaken(id, steps[..n]) + (if TakesResume(After(Fresh(id), steps[..n]), steps[n].event) then 1 else 0)
  }

  lemma {:induction false} CommitResumed(s: Rows, a: nat)
    ensures DoCommit(s, a).log.resumed == s.log.resumed + (if TakesResume(s, Commit(a)) then 1 else 0)
  {
  }

  lemma {:induction false} StepResumed(s: Rows, now: Time, e: Event)
    ensures Apply(s, now, e).log.resumed == s.log.resumed + (if TakesResume(s, e) then 1 else 0)
  {
    if e.Commit? {
      CommitResumed(s, e.a);
    } else {
      OnlyCommitsWrite(s, now, e);
    }
  }

  lemma {:induction false} ResumesLogged(id: Id, steps: seq<Step>)
    ensures ResumesTaken(id, steps) == After(Fresh(id), steps).log.resumed
  {
    if steps != [] {
      var n := |steps| - 1;
      ResumesLogged(id, steps[..n]);
      StepResumed(After(Fresh(id), steps[..n]), steps[n].now, steps[n].event);
    }
  }

  /** Two for classify, two for draft, one for approval, one for finalize. */
  lemma {:induction false} AtMostSixResumes(id: Id, steps: seq<Step>)
    ensures ResumesTaken(id, steps) <= 6
  {
    ResumesLogged(id, steps);
    AlwaysInv(id, steps);
  }

  // ----- exactly-once effects and agreement

  // What is left once a result is stored, the attempt logs aside.
  lemma {:induction false} ResultSettles(s: Rows)
    requires Inv(s) && s.fx.result.Some?
    ensures && s.log.final.Some? && s.log.final.value.FinalizePayload?
            && SameEffects(s.fx, Undisturbed(s.log.final.value))
  {
    UndisturbedEffects(s.log.final.value);
  }

  // The i-th step committed the queue transaction of `execute`, with this finalize payload.
  predicate DispatchedAt(id: Id, steps: seq<Step>, i: nat, p: Payload) {
    i < |steps| && steps[i].event.RunNode? && DispatchesFinal(After(Fresh(id), steps[..i]), steps[i].event.a, p)
  }

  predicate DispatchesFinal(s: Rows, a: nat, p: Payload) {
    && At(s, a) && s.actors[a].Invoking? && s.cp.Some? && s.cp.value.node.Execute?
    && (var txn := NodeTxn(s.cp.value, InputsOf(s.cp.value, s.actors[a].resume)); txn.Dispatch? && txn.payload == p)
  }

  // The recorded finalize payload is the first dispatched, and every later one is the same.
  ghost predicate RecordsFinal(s: Rows, t: Rows, a: nat) {
    && Kept(s.log.final, t.log.final)
    && (forall p :: DispatchesFinal(s, a, p) ==> t.log.final == Some(p))
    && (s.log.final.None? && t.log.final.Some? ==> DispatchesFinal(s, a, t.log.final.value))
  }

  lemma {:induction false} NodeFinal(s: Rows, now: Time, a: nat)
    requires Inv(s)
    ensures RecordsFinal(s, DoRunNode(s, now, a), a)
  {
    if At(s, a) && s.actors[a].Invoking? && s.cp.Some? && s.cp.value.node.Execute? {
      FinalRecorded(s, now, InputsOf(s.cp.value, s.actors[a].resume));
    }
  }

  lemma {:induction false} StepFinal(s: Rows, now: Time, e: Event)
    requires Inv(s)
    ensures if e.RunNode? then RecordsFinal(s, Apply(s, now, e), e.a) else Apply(s, now, e).log.final == s.log.final
  {
    if e.RunNode? {
      NodeFinal(s, now, e.a);
    } else if e.Commit? {
      CommitFrame(s, e.a);
    } else {
      OnlyCommitsWrite(s, now, e);
    }
  }

  lemma {:induction false} FinalKept(id: Id, steps: seq<Step>, p: Payload)
    requires steps != []
    requires var n := |steps| - 1;
             After(Fresh(id), steps[..n]).log.final == Some(p) || DispatchedAt(id, steps, n, p)
    ensures After(Fresh(id), steps).log.final == Some(p)
  {
    var n := |steps| - 1;
    AlwaysInv(id, steps[..n]);
    StepFinal(After(Fresh(id), steps[..n]), steps[n].now, steps[n].event);
  }

  // Every dispatch of a run carries the recorded payload.
  lemma {:induction false} DispatchIsFinal(id: Id, steps: seq<Step>, i: nat, p: Payload)
    requires DispatchedAt(id, steps, i, p)
    ensures After(Fresh(id), steps).log.final == Some(p)
  {
    var n := |steps| - 1;
    if i < n {
      assert steps[..n][..i] == steps[..i];
      DispatchIsFinal(id, steps[..n], i, p);
    }
    FinalKept(id, steps, p);
  }

  lemma {:induction false} FinalWasDispatched(id: Id, steps: seq<Step>, p: Payload)
    requires After(Fresh(id), steps).log.final == Some(p)
    ensures exists i: nat :: DispatchedAt(id, steps, i, p)
  {
    var n := |steps| - 1;
    var before := After(Fresh(id), steps[..n]);
    FinalStep(id, steps);
    if before.log.final.Some? {
      FinalWasDispatched(id, steps[..n], p);
      var i: nat :| DispatchedAt(id, steps[..n], i, p);
      assert steps[..n][..i] == steps[..i];
      assert DispatchedAt(id, steps, i, p);
    } else {
      assert DispatchedAt(id, steps, n, p);
    }
  }

  lemma {:induction false} FinalStep(id: Id, steps: seq<Step>)
    requires steps != []
    ensures var n := |steps| - 1;
            var before := After(Fresh(id), steps[..n]).log.final;
            var after := After(Fresh(id), steps).log.final;
            Kept(before, after) && (before.None? && after.Some? ==> DispatchedAt(id, steps, n, after.value))
  {
    var n := |steps| - 1;
    AlwaysInv(id, steps[..n]);
    StepFinal(After(Fresh(id), steps[..n]), steps[n].now, steps[n].event);
  }

  // A delivery that has stored its result and is about to complete its task.
  predicate Stored(s: Rows, a: nat) {
    At(s, a) && s.actors[a].Finalizing? && s.actors[a].delivery.progress.Recorded?
  }

  lemma {:induction false} StoredIsFinal(s: Rows, a: nat)
    requires Inv(s) && Stored(s, a)
    ensures && s.log.final == Some(s.actors[a].delivery.payload) && s.actors[a].delivery.payload.FinalizePayload?
            && s.fx.result.Some? && ResultOf(s.actors[a].delivery) == FinalResult(s.actors[a].delivery.payload)
  {
    assert ActorOk(s, s.actors[a]);
  }

  /** The finalize payload `p` is the one `execute` dispatched, whichever of its runs one looks at.
      Once a result is stored, the refund, the reply and the result are those a single undisturbed
      delivery of `p` leaves, whatever crashed, repeated, overlapped or was pruned; finalize rows
      carry `p`; and every delivery that gets to the end computes the same result. */
  lemma {:induction false} ExactlyOnce(id: Id, steps: seq<Step>, i: nat, p: Payload)
    requires DispatchedAt(id, steps, i, p)
    ensures var s := After(Fresh(id), steps);
            && p.FinalizePayload? && p.ticket.id == id
            && (s.fx.result.Some? ==> SameEffects(s.fx, Undisturbed(p)))
            && (forall key :: key in s.tasks.rows && key.stage.Finalize? ==> s.tasks.rows[key].payload == p)
            && (forall a :: Stored(s, a) ==>
                  s.fx.result.Some? && s.actors[a].delivery.payload == p
                  && Some(ResultOf(s.actors[a].delivery)) == Undisturbed(p).result)
  {
    var s := After(Fresh(id), steps);
    AlwaysInv(id, steps);
    SameId(id, steps);
    DispatchIsFinal(id, steps, i, p);
    UndisturbedEffects(p);
    if s.fx.result.Some? {
      ResultSettles(s);
    }
    forall key | key in s.tasks.rows && key.stage.Finalize? ensures s.tasks.rows[key].payload == p {
      assert RowOk(s.id, s.tasks.nextId, s.log.final, s.fx.result, key, s.tasks.rows[key]);
    }
    forall a | Stored(s, a)
      ensures s.fx.result.Some? && s.actors[a].delivery.payload == p
              && Some(ResultOf(s.actors[a].delivery)) == Undisturbed(p).result
    {
      StoredIsFinal(s, a);
    }
  }

  /** No effect and no finalize task is there without such a dispatch. */
  lemma {:induction false} EffectsAreDispatched(id: Id, steps: seq<Step>)
    requires var s := After(Fresh(id), steps);
             || s.fx.refund.Some? || s.fx.reply.Some? || s.fx.result.Some?
             || (exists key :: key in s.tasks.rows && key.stage.Finalize?)
    ensures exists i: nat, p :: DispatchedAt(id, steps, i, p)
  {
    var s := After(Fresh(id), steps);
    AlwaysInv(id, steps);
    if key :| key in s.tasks.rows && key.stage.Finalize? {
      assert RowOk(s.id, s.tasks.nextId, s.log.final, s.fx.result, key, s.tasks.rows[key]);
    }
    FinalWasDispatched(id, steps, s.log.final.value);
    var i: nat :| DispatchedAt(id, steps, i, s.log.final.value);
  }

  ghost predicate Agrees(s: Rows, r: TicketResult) {
    && s.fx.result == Some(r)
    && s.fx.reply.Some? && s.fx.reply.value.replyText == r.replyText
    && (r.refundExecuted <==> s.fx.refund.Some?)
  }

  lemma {:induction false} RowsAgree(s: Rows, key: Key)
    requires Inv(s)
    requires key in s.tasks.rows && key.stage.Finalize? && s.tasks.rows[key].status.Done?
    ensures s.tasks.rows[key].result.Some? && s.tasks.rows[key].result.value.Finalized?
            && Agrees(s, s.tasks.rows[key].result.value.result)
  {
    assert RowOk(s.id, s.tasks.nextId, s.log.final, s.fx.result, key, s.tasks.rows[key]);
  }

  /** A done finalize task, the stored result, the sent reply and the refund ledger agree, and
      so does the result the finished graph carries. */
  lemma {:induction false} AgreementAtEnd(id: Id, steps: seq<Step>)
    ensures var s := After(Fresh(id), steps);
            forall key :: key in s.tasks.rows && key.stage.Finalize? && s.tasks.rows[key].status.Done? ==>
              s.tasks.rows[key].result.Some? && s.tasks.rows[key].result.value.Finalized?
              && Agrees(s, s.tasks.rows[key].result.value.result)
    ensures var s := After(Fresh(id), steps);
            s.cp.Some? && s.cp.value.node.End? ==> s.cp.value.st.result.Some? && Agrees(s, s.cp.value.st.result.value)
  {
    AlwaysInv(id, steps);
    var s := After(Fresh(id), steps);
    forall key | key in s.tasks.rows && key.stage.Finalize? && s.tasks.rows[key].status.Done?
      ensures s.tasks.rows[key].result.Some? && s.tasks.rows[key].result.value.Finalized?
              && Agrees(s, s.tasks.rows[key].result.value.result)
    {
      RowsAgree(s, key);
    }
  }

  // ----- the outbox, as long as nothing is pruned

  /** A fallback task exists only beside a primary that failed for good, so at most one of the
      two ever has a result. */
  lemma {:induction false} FallbackExcludesPrimary(id: Id, steps: seq<Step>, stage: Stage)
    requires NoPruning(steps)
    ensures var q := After(Fresh(id), steps).tasks;
            Key(id, stage, true) in q.rows ==>
              && DeadPrimary(q, Key(id, stage, false))
              && q.rows[Key(id, stage, false)].result.None?
              && !stage.Finalize?
  {
    AlwaysCausal(id, steps);
    AlwaysInv(id, steps);
    SameId(id, steps);
    var s := After(Fresh(id), steps);
    if Key(id, stage, true) in s.tasks.rows {
      assert RowCausal(s.id, s.tasks, Key(id, stage, true), s.tasks.rows[Key(id, stage, true)]);
      assert RowOk(s.id, s.tasks.nextId, s.log.final, s.fx.result, Key(id, stage, false),
                   s.tasks.rows[Key(id, stage, false)]);
    }
  }

  // Exactly one of the stage's two tasks is done, and this is its result.
  predicate OneDone(q: Table, id: Id, stage: Stage, result: TaskResult) {
    DoneWith(q, Key(id, stage, false), result) != DoneWith(q, Key(id, stage, true), result)
    && !(Key(id, stage, false) in q.rows && q.rows[Key(id, stage, false)].status.Done?
         && Key(id, stage, true) in q.rows && q.rows[Key(id, stage, true)].status.Done?)
  }

  lemma {:induction false} DecidedOnce(id: Id, steps: seq<Step>, stage: Stage, result: TaskResult)
    requires NoPruning(steps) && Decided(After(Fresh(id), steps).tasks, id, stage, result)
    ensures OneDone(After(Fresh(id), steps).tasks, id, stage, result)
  {
    FallbackExcludesPrimary(id, steps, stage);
  }

  /** A ticket's task rows carry only its own five keys, a draft task rests on exactly one done
      classification, and a finalize task that is no escalation on exactly one done draft too. */
  lemma {:induction false} CausalOutbox(id: Id, steps: seq<Step>, key: Key)
    requires NoPruning(steps) && key in After(Fresh(id), steps).tasks.rows
    ensures key in {Key(id, Classify, false), Key(id, Classify, true), Key(id, Draft, false), Key(id, Draft, true),
                    Key(id, Finalize, false)}
    ensures var q := After(Fresh(id), steps).tasks;
            var p := q.rows[key].payload;
            && (key.stage.Draft? ==> p.DraftPayload? && OneDone(q, id, Classify, Classified(p.classification)))
            && (key.stage.Finalize? && p.FinalizePayload? && !p.result.status.Escalated? ==>
                  exists c, d :: && OneDone(q, id, Classify, Classified(c)) && OneDone(q, id, Draft, Drafted(d))
                                 && p.action == d.action
                                     && (p.result.status.Resolved? ==> p.result.replyText == d.replyText))
  {
    AlwaysCausal(id, steps);
    AlwaysInv(id, steps);
    SameId(id, steps);
    var s := After(Fresh(id), steps);
    var p := s.tasks.rows[key].payload;
    assert RowOk(s.id, s.tasks.nextId, s.log.final, s.fx.result, key, s.tasks.rows[key]);
    assert RowCausal(s.id, s.tasks, key, s.tasks.rows[key]);
    if key.stage.Draft? {
      DecidedOnce(id, steps, Classify, Classified(p.classification));
    }
    if key.stage.Finalize? && !p.result.status.Escalated? {
      var c, d :| Founded(s.tasks, s.id, p, c, d);
      DecidedOnce(id, steps, Classify, Classified(c));
      DecidedOnce(id, steps, Draft, Drafted(d));
    }
  }

  // ----- nothing unfinished is deleted

  predicate HasRunRow(s: Rows) { s.run.Some? || s.archived.Some? }

  lemma {:induction false} StepHasRunRow(s: Rows, now: Time, e: Event)
    ensures HasRunRow(s) ==> HasRunRow(Apply(s, now, e))
  {
    if GraphEvent(e) {
      GraphFrame(s, now, e);
    } else if InsertEvent(e) {
      InsertFrame(s, now, e);
    } else if RunnerEvent(e) {
      RunnerFrame(s, now, e);
    } else if WorkEvent(e) {
      WorkFrame(s, now, e);
    } else {
      UpkeepFrame(s, now, e);
    }
  }

  /** A ticket that ever had a run row has one still, live or archived. */
  lemma {:induction false} NoRunLost(id: Id, steps: seq<Step>, i: nat)
    requires i <= |steps| && After(Fresh(id), steps[..i]).run.Some?
    ensures HasRunRow(After(Fresh(id), steps))
  {
    if i == |steps| {
      assert steps[..i] == steps;
    } else {
      var n := |steps| - 1;
      assert steps[..n][..i] == steps[..i];
      NoRunLost(id, steps[..n], i);
      StepHasRunRow(After(Fresh(id), steps[..n]), steps[n].now, steps[n].event);
    }
  }

  // Whatever the step removed was finished.
  ghost predicate Spares(s: Rows, t: Rows) {
    && (forall key :: key in s.tasks.rows && key !in t.tasks.rows ==> Settled(s.tasks.rows[key]))
    && (forall i :: i in s.signals && i !in t.signals ==> s.signals[i].consumed)
    && (s.run.Some? && t.run.None? ==> s.run.value.status.Terminal() && t.archived == s.run)
    && (s.archived.Some? ==> t.archived == s.archived)
    && EffectsLast(s.fx, t.fx)
  }

  predicate EffectsLast(fx: Effects, gx: Effects) {
    && (fx.refund.Some? ==> gx.refund == fx.refund) && (fx.reply.Some? ==> gx.reply == fx.reply)
    && (fx.result.Some? ==> gx.result.Some?)
    && fx.refundAttempts <= gx.refundAttempts && fx.replyAttempts <= gx.replyAttempts
  }

  lemma {:induction false} NodeSpares(s: Rows, now: Time, a: nat)
    ensures Spares(s, DoRunNode(s, now, a))
  {
    NodeFrame(s, now, a);
  }

  lemma {:induction false} GraphSpares(s: Rows, now: Time, e: Event)
    requires GraphEvent(e)
    ensures Spares(s, ApplyGraph(s, now, e))
  {
    if e.RunNode? {
      NodeSpares(s, now, e.a);
    } else if e.Commit? {
      CommitFrame(s, e.a);
    } else {
      SeedFrame(s, e.a, e.ticket);
    }
  }

  lemma {:induction false} InsertSpares(s: Rows, now: Time, e: Event)
    requires InsertEvent(e)
    ensures Spares(s, ApplyInsert(s, now, e))
  {
    InsertFrame(s, now, e);
  }

  lemma {:induction false} RunnerSpares(s: Rows, now: Time, e: Event)
    requires RunnerEvent(e)
    ensures Spares(s, ApplyRunner(s, now, e))
  {
    RunnerFrame(s, now, e);
  }

  lemma {:induction false} FinishSpares(s: Rows, a: nat, taskId: nat, result: TaskResult)
    ensures Spares(s, Finish(s, a, taskId, result))
  {
  }

  lemma {:induction false} DeliverLasts(fx: Effects, d: Delivery)
    requires d.payload.FinalizePayload?
    ensures EffectsLast(fx, Deliver(fx, d).0)
  {
  }

  lemma {:induction false} SideEffectSpares(s: Rows, a: nat)
    ensures Spares(s, DoSideEffect(s, a))
  {
    if At(s, a) && s.actors[a].Finalizing? && s.actors[a].delivery.payload.FinalizePayload? {
      var Finalizing(taskId, d) := s.actors[a];
      if d.progress.Recorded? {
        FinishSpares(s, a, taskId, Finalized(ResultOf(d)));
      } else {
        DeliverLasts(s.fx, d);
      }
    }
  }

  lemma {:induction false} ErrorSpares(s: Rows, now: Time, a: nat, error: string, permanent: bool)
    ensures Spares(s, DoTaskError(s, now, a, error, permanent))
  {
  }

  lemma {:induction false} TakeSpares(s: Rows, now: Time, e: Event)
    requires e.Dequeue? || e.Wake?
    ensures Spares(s, ApplyWork(s, now, e))
  {
  }

  lemma {:induction false} AnswerSpares(s: Rows, a: nat, result: TaskResult)
    ensures Spares(s, DoAgentReply(s, a, result))
  {
    if At(s, a) && s.actors[a].Working? {
      FinishSpares(s, a, s.actors[a].taskId, result);
    }
  }

  lemma {:induction false} WorkSpares(s: Rows, now: Time, e: Event)
    requires WorkEvent(e)
    ensures Spares(s, ApplyWork(s, now, e))
  {
    if e.SideEffect? {
      SideEffectSpares(s, e.a);
    } else if e.TaskError? {
      ErrorSpares(s, now, e.a, e.error, e.permanent);
    } else if e.AgentReply? {
      AnswerSpares(s, e.a, e.result);
    } else {
      TakeSpares(s, now, e);
    }
  }

  lemma {:induction false} UpkeepSpares(s: Rows, now: Time, e: Event)
    requires UpkeepEvent(e)
    ensures Spares(s, ApplyUpkeep(s, now, e))
  {
    UpkeepFrame(s, now, e);
  }

  /** No step deletes a task that is pending or leased, a signal not yet consumed, a run that is
      not terminal, an archived run or an effect. */
  lemma {:induction false} EveryStepSpares(s: Rows, now: Time, e: Event)
    ensures Spares(s, Apply(s, now, e))
  {
    var t;
    if GraphEvent(e) {
      GraphSpares(s, now, e);
      t := ApplyGraph(s, now, e);
    } else if InsertEvent(e) {
      InsertSpares(s, now, e);
      t := ApplyInsert(s, now, e);
    } else if RunnerEvent(e) {
      RunnerSpares(s, now, e);
      t := ApplyRunner(s, now, e);
    } else if WorkEvent(e) {
      WorkSpares(s, now, e);
      t := ApplyWork(s, now, e);
    } else {
      UpkeepSpares(s, now, e);
      t := ApplyUpkeep(s, now, e);
    }
    assert t == Apply(s, now, e) && Spares(s, t);
  }
}
