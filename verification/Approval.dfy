/** What the API does with decisions after the first. */
module Approval {
  import opened Wrappers
  import opened Models
  import opened WorkflowRuns
  import opened Graph
  import opened Engine
  import opened Frames
  import opened Safety
  import opened SafetySteps
  import opened RunLease
  import opened Guarantees

  // A runner has run `await_approval` with the decision of the unconsumed signal `id`.
  ghost predicate Deciding(s: Rows, a: nat, id: nat, d: Decision) {
    && Inv(s) && At(s, a) && s.actors[a].Ran?
    && (var x := s.actors[a];
        && x.caller.Runner? && x.caller.signal == Some(id) && s.cp == Some(x.from) && x.from.node.AwaitApproval?
        && x.inputs == [Human(d)])
    && Unconsumed(s.signals, id, s.id)
    && s.run.Some? && s.run.value.status.AwaitingApproval?
  }

  // The rest of that runner's step: write the decision, run `execute` until it parks, save.
  function FinishDeciding(s: Rows, now: Time, a: nat): Rows {
    DoSave(DoCommit(DoRunNode(DoCommit(s, a), now, a), a), now, a)
  }

  lemma {:induction false} DecisionLeads(from: Checkpoint, d: Decision, redispatched: bool, stamp: Time)
    requires from.node.AwaitApproval? && from.st.draft.Some? && from.st.wakeupAt.Some?
    ensures var outcome := NodeOutcome(from, [Human(d)], redispatched, stamp);
            && outcome.Advance? && outcome.cp.node.Execute? && outcome.cp.resumes == []
            && outcome.cp.st.status == (if d.approved then from.st.status else Rejected)
            && outcome.cp.st.draft == from.st.draft && outcome.cp.st.classification == from.st.classification
  {
  }

  // The checkpoint `execute` is about to run from.
  predicate ReadyToExecute(cp: Option<Checkpoint>, status: Status) {
    && cp.Some? && cp.value.node.Execute? && cp.value.resumes == [] && cp.value.st.status == status
    && cp.value.st.draft.Some? && cp.value.st.classification.Some?
  }

  lemma {:induction false} DecisionWritten(s: Rows, a: nat, id: nat, d: Decision)
    requires Deciding(s, a, id, d)
    ensures var t := DoCommit(s, a);
            && ReadyToExecute(t.cp, if d.approved then AwaitingApproval else Rejected)
            && At(t, a) && t.actors[a] == Invoking(s.actors[a].caller, None)
            && t.signals == s.signals && t.run == s.run && t.id == s.id
  {
    assert WellFormed(s.id, s.cp.value);
    DecisionCommits(s, a, s.cp.value, d);
  }

  lemma {:induction false} DecisionCommits(s: Rows, a: nat, from: Checkpoint, d: Decision)
    requires s.cp == Some(from) && WellFormed(s.id, from) && from.node.AwaitApproval?
    requires At(s, a) && s.actors[a].Ran? && s.actors[a].from == from && s.actors[a].inputs == [Human(d)]
    ensures var t := DoCommit(s, a);
            && ReadyToExecute(t.cp, if d.approved then AwaitingApproval else Rejected)
            && At(t, a) && t.actors[a] == Invoking(s.actors[a].caller, None)
            && t.signals == s.signals && t.run == s.run && t.id == s.id
  {
    DecisionLeads(from, d, s.actors[a].redispatched, s.actors[a].stamp);
  }

  lemma {:induction false} ExecuteWaits(cp: Checkpoint, redispatched: bool, now: Time)
    requires ReadyToExecute(Some(cp), cp.st.status)
    ensures var outcome := NodeOutcome(cp, [], redispatched, now);
            && outcome.Park? && outcome.cp.st == cp.st && NextWakeup(outcome.cp).None?
  {
  }

  lemma {:induction false} ExecuteParks(s: Rows, now: Time, a: nat, caller: Caller)
    requires At(s, a) && s.actors[a] == Invoking(caller, None) && caller.Runner?
    requires s.cp.Some? && ReadyToExecute(s.cp, s.cp.value.st.status)
    ensures var t := DoCommit(DoRunNode(s, now, a), a);
            && At(t, a) && t.actors[a] == Saving(caller.claimedAt, s.cp.value.st.status, None, caller.signal)
            && t.signals == s.signals && t.run == s.run && t.id == s.id
  {
    var m := DoRunNode(s, now, a);
    var cp := s.cp.value;
    NodeFrame(s, now, a);
    CommitFrame(m, a);
    assert InputsOf(cp, None) == [];
    var redispatched := Redispatches(s.tasks, NodeTxn(cp, []));
    assert m.cp == s.cp && At(m, a) && m.actors[a] == Ran(caller, cp, [], redispatched, now);
    ExecuteWaits(cp, redispatched, now);
  }

  lemma {:induction false} NoneLeft(s: Rows, nextSignal: nat, accepted: seq<Decision>, now: Time, id: nat)
    requires SignalsOk(s.id, None, s.signals, nextSignal, accepted) && Unconsumed(s.signals, id, s.id)
    ensures var t := Consume(s.signals, now, id); forall i :: i in t ==> !Unconsumed(t, i, s.id)
  {
    var t := Consume(s.signals, now, id);
    forall i | i in t ensures !Unconsumed(t, i, s.id) {
      if Unconsumed(t, i, s.id) {
        assert Unconsumed(s.signals, i, s.id);
      }
    }
  }

  lemma {:induction false} SavedDecision(
    s: Rows, nextSignal: nat, accepted: seq<Decision>, now: Time, a: nat, id: nat)
    requires SignalsOk(s.id, None, s.signals, nextSignal, accepted) && Unconsumed(s.signals, id, s.id)
    requires At(s, a) && s.actors[a].Saving? && s.actors[a].signal == Some(id) && s.run.Some?
    ensures Accepts(DoSave(s, now, a)) <==> s.actors[a].status.AwaitingApproval?
  {
    NoneLeft(s, nextSignal, accepted, now, id);
  }

  /** Once a decision has been applied and saved, the API accepts a further one exactly when the
      first was an approval: the projected status stays `awaiting_approval` until finalization. */
  lemma {:induction false} FurtherDecisionAccepted(s: Rows, now: Time, a: nat, id: nat, d: Decision)
    requires Deciding(s, a, id, d)
    ensures Accepts(FinishDeciding(s, now, a)) <==> d.approved
  {
    var m := DoCommit(s, a);
    DecisionWritten(s, a, id, d);
    ExecuteParks(m, now, a, s.actors[a].caller);
    var n := DoCommit(DoRunNode(m, now, a), a);
    assert SignalsOk(s.id, None, n.signals, s.nextSignal, s.log.accepted);
    SavedDecision(n, s.nextSignal, s.log.accepted, now, a, id);
  }

  // ----- over runs

  // The decision that was applied is a rejection.
  predicate Refused(s: Rows) {
    s.log.applied != [] && !s.log.applied[0].approved
  }

  ghost predicate SomeUnconsumed(s: Rows) {
    exists i :: Unconsumed(s.signals, i, s.id)
  }

  // A status some runner will write back, or may.
  predicate Carries(x: Actor, status: Status) {
    (x.Claimed? || x.Looked? || x.Saving?) && x.status == status
  }

  ghost predicate NoneWaits(s: Rows) {
    && (s.run.Some? ==> !s.run.value.status.AwaitingApproval?)
    && forall a :: a in s.actors ==> !Carries(s.actors[a], AwaitingApproval)
  }

  // Whoever will consume a signal writes a later status.
  ghost predicate ConsumersPast(s: Rows) {
    forall a :: a in s.actors && s.actors[a].Saving? && s.actors[a].signal.Some? ==>
        !s.actors[a].status.AwaitingApproval?
  }

  // After a rejection either its signal is still unconsumed or nothing says `awaiting_approval` any more.
  ghost predicate RefusedOk(s: Rows) {
    && (s.log.accepted != [] ==> s.log.everRun)
    && (Refused(s) && s.archived.None? ==> ConsumersPast(s) && (SomeUnconsumed(s) || NoneWaits(s)))
  }

  // The step leaves the decisions, the checkpoint, the signals and the archive alone.
  ghost predicate LeavesDecision(s: Rows, t: Rows) {
    && t.id == s.id && t.log.applied == s.log.applied && t.log.accepted == s.log.accepted
    && (s.log.everRun ==> t.log.everRun)
    && (t.archived == s.archived || t.archived.Some?)
    && (forall i :: Unconsumed(s.signals, i, s.id) ==> Unconsumed(t.signals, i, s.id))
  }

  // It lets nobody carry a status that was not carried.
  ghost predicate CarriesNoMore(s: Rows, t: Rows) {
    && (t.run.Some? ==>
          (s.run.Some? && t.run.value.status == s.run.value.status) || !t.run.value.status.AwaitingApproval?
          || exists a :: a in s.actors && Carries(s.actors[a], t.run.value.status))
    && (forall a :: a in t.actors && Carries(t.actors[a], AwaitingApproval) ==>
          (a in s.actors && Carries(s.actors[a], AwaitingApproval))
          || (s.run.Some? && s.run.value.status.AwaitingApproval?))
    && (forall a :: a in t.actors && t.actors[a].Saving? && t.actors[a].signal.Some? ==>
          (a in s.actors && t.actors[a] == s.actors[a]) || !t.actors[a].status.AwaitingApproval?)
  }

  lemma {:induction false} QuietKeepsRefused(s: Rows, t: Rows)
    requires RefusedOk(s) && LeavesDecision(s, t) && (Refused(s) && t.archived.None? ==> CarriesNoMore(s, t))
    ensures RefusedOk(t)
  {
    if Refused(t) && t.archived.None? && SomeUnconsumed(s) {
      var i :| Unconsumed(s.signals, i, s.id);
      assert Unconsumed(t.signals, i, t.id);
    }
  }

  lemma {:induction false} ClaimQuiet(s: Rows, now: Time, a: nat, owner: string)
    ensures LeavesDecision(s, DoClaim(s, now, a, owner)) && CarriesNoMore(s, DoClaim(s, now, a, owner))
  {
  }

  lemma {:induction false} LookQuiet(s: Rows, a: nat)
    ensures LeavesDecision(s, DoLook(s, a)) && CarriesNoMore(s, DoLook(s, a))
  {
  }

  lemma {:induction false} ChooseQuiet(s: Rows, a: nat)
    ensures LeavesDecision(s, DoChoose(s, a)) && CarriesNoMore(s, DoChoose(s, a))
  {
  }

  lemma {:induction false} ListQuiet(s: Rows, a: nat)
    ensures LeavesDecision(s, DoListOrphan(s, a)) && CarriesNoMore(s, DoListOrphan(s, a))
    ensures LeavesDecision(s, DoReadOrphan(s, a)) && CarriesNoMore(s, DoReadOrphan(s, a))
  {
  }

  lemma {:induction false} DequeueQuiet(s: Rows, now: Time, a: nat, key: Key, queue: Queue, owner: string)
    ensures LeavesDecision(s, DoDequeue(s, now, a, key, queue, owner))
    ensures CarriesNoMore(s, DoDequeue(s, now, a, key, queue, owner))
  {
  }

  lemma {:induction false} WakeQuiet(s: Rows, now: Time, a: nat)
    ensures LeavesDecision(s, DoWake(s, now, a)) && CarriesNoMore(s, DoWake(s, now, a))
  {
  }

  lemma {:induction false} AnswerQuiet(s: Rows, a: nat, result: TaskResult)
    ensures LeavesDecision(s, DoAgentReply(s, a, result)) && CarriesNoMore(s, DoAgentReply(s, a, result))
  {
  }

  lemma {:induction false} SideEffectQuiet(s: Rows, a: nat)
    ensures LeavesDecision(s, DoSideEffect(s, a)) && CarriesNoMore(s, DoSideEffect(s, a))
  {
  }

  lemma {:induction false} ErrorQuiet(s: Rows, now: Time, a: nat, error: string, permanent: bool)
    ensures LeavesDecision(s, DoTaskError(s, now, a, error, permanent))
    ensures CarriesNoMore(s, DoTaskError(s, now, a, error, permanent))
  {
  }

  lemma {:induction false} WorkQuiet(s: Rows, now: Time, e: Event)
    requires WorkEvent(e)
    ensures LeavesDecision(s, ApplyWork(s, now, e)) && CarriesNoMore(s, ApplyWork(s, now, e))
  {
    match e
    case Dequeue(a, key, queue, owner) => DequeueQuiet(s, now, a, key, queue, owner);
    case AgentReply(a, result) => AnswerQuiet(s, a, result);
    case SideEffect(a) => SideEffectQuiet(s, a);
    case TaskError(a, error, permanent) => ErrorQuiet(s, now, a, error, permanent);
    case Wake(a) => WakeQuiet(s, now, a);
  }

  lemma {:induction false} PruneQuiet(s: Rows, now: Time, maxAge: Time)
    ensures var t := s.(signals := PruneConsumed(s.signals, now, maxAge)); LeavesDecision(s, t) && CarriesNoMore(s, t)
  {
    var t := s.(signals := PruneConsumed(s.signals, now, maxAge));
    assert forall i :: Unconsumed(s.signals, i, s.id) ==> Unconsumed(t.signals, i, s.id);
  }

  lemma {:induction false} SweepQuiet(s: Rows, now: Time, e: Event)
    requires e.ReclaimTasks? || e.ReclaimRuns? || e.PruneTasks? || e.Serials?
    ensures LeavesDecision(s, ApplyUpkeep(s, now, e)) && CarriesNoMore(s, ApplyUpkeep(s, now, e))
  {
  }

  lemma {:induction false} LeaveQuiet(s: Rows, now: Time, e: Event)
    requires e.DeleteThread? || e.Crash? || e.Archive?
    ensures var t := ApplyUpkeep(s, now, e); LeavesDecision(s, t) && (t.archived.None? ==> CarriesNoMore(s, t))
  {
  }

  lemma {:induction false} UpkeepQuiet(s: Rows, now: Time, e: Event)
    requires UpkeepEvent(e)
    ensures var t := ApplyUpkeep(s, now, e); LeavesDecision(s, t) && (t.archived.None? ==> CarriesNoMore(s, t))
  {
    if e.DeleteThread? || e.Crash? || e.Archive? {
      LeaveQuiet(s, now, e);
    } else if e.PruneSignals? {
      PruneQuiet(s, now, e.maxAge);
    } else {
      SweepQuiet(s, now, e);
    }
  }

  // Only process a moves, and nothing the invariant is about changes.
  ghost predicate OnlyMoves(s: Rows, t: Rows, a: nat) {
    && t.id == s.id && t.run == s.run && t.archived == s.archived && t.signals == s.signals
    && t.log.applied == s.log.applied && t.log.accepted == s.log.accepted && t.log.everRun == s.log.everRun
    && forall b :: b in t.actors && b != a ==> b in s.actors && t.actors[b] == s.actors[b]
  }

  lemma {:induction false} MoveKeepsRefused(s: Rows, t: Rows, a: nat)
    requires RefusedOk(s) && OnlyMoves(s, t, a)
    requires Refused(s) && a in t.actors ==> !Carries(t.actors[a], AwaitingApproval)
    ensures RefusedOk(t)
  {
  }

  // Without an archived run there is a row already, so an insert leaves it.
  lemma {:induction false} InsertKeepsRefused(s: Rows, now: Time, a: nat)
    requires Inv(s) && RefusedOk(s)
    ensures RefusedOk(DoInsertRun(s, now, a))
  {
    var t := DoInsertRun(s, now, a);
    if Refused(s) && t.archived.None? {
      assert s.run.Some?;
      assert CarriesNoMore(s, t);
    }
    QuietKeepsRefused(s, t);
  }

  lemma {:induction false} RunNodeMoves(s: Rows, now: Time, a: nat)
    requires At(s, a) && s.actors[a].Invoking?
    ensures var t := DoRunNode(s, now, a);
            && OnlyMoves(s, t, a)
            && (a in t.actors && Carries(t.actors[a], AwaitingApproval) ==>
                  s.cp.Some? && s.cp.value.st.status.AwaitingApproval?)
  {
    NodeFrame(s, now, a);
  }

  lemma {:induction false} RunNodeKeepsRefused(s: Rows, now: Time, a: nat)
    requires Inv(s) && RefusedOk(s)
    ensures RefusedOk(DoRunNode(s, now, a))
  {
    if At(s, a) && s.actors[a].Invoking? {
      if Refused(s) && s.cp.Some? {
        RefusedStatus(s);
      }
      RunNodeMoves(s, now, a);
      MoveKeepsRefused(s, DoRunNode(s, now, a), a);
    }
  }

  lemma {:induction false} SubmitKeepsRefused(s: Rows, now: Time, decision: Decision)
    requires Inv(s) && RefusedOk(s)
    ensures RefusedOk(DoSubmit(s, now, decision))
  {
    var t := DoSubmit(s, now, decision);
    if Accepts(s) {
      assert Unconsumed(t.signals, s.nextSignal, t.id);
    }
  }

  // Only one runner saves, so whoever consumes the signal leaves nobody with an old status.
  lemma {:induction false} SaveKeepsRefused(s: Rows, now: Time, a: nat)
    requires RefusedOk(s) && OneRunner(s)
    ensures RefusedOk(DoSave(s, now, a))
  {
    if At(s, a) && s.actors[a].Saving? {
      var t := DoSave(s, now, a);
      if Refused(s) && s.archived.None? {
        assert Active(s.actors[a]);
        if s.actors[a].signal.Some? {
          assert forall b :: b in t.actors ==> b in s.actors && b != a && !Active(s.actors[b]);
          assert NoneWaits(t);
        } else {
          assert t.signals == s.signals;
          if SomeUnconsumed(s) {
            var i :| Unconsumed(s.signals, i, s.id);
            assert Unconsumed(t.signals, i, t.id);
          }
        }
      }
    }
  }

  // The checkpoint's status when a rejection has been applied.
  lemma {:induction false} RefusedStatus(s: Rows)
    requires TablesOk(s) && Refused(s) && s.cp.Some?
    ensures s.cp.value.node.Rank() >= Execute.Rank() && !s.cp.value.st.status.AwaitingApproval?
  {
  }

  predicate Decides(s: Rows, x: Actor) {
    x.Ran? && s.cp == Some(x.from) && x.from.node.AwaitApproval? && x.inputs != [] && x.inputs[0].Human?
  }

  // What a checkpoint write does to the process that writes and to the others.
  ghost predicate Written(s: Rows, t: Rows, a: nat) {
    && At(s, a) && s.actors[a].Ran? && OnlyMovesAndApplies(s, t, a)
    && (a in t.actors && t.actors[a].Saving? ==> t.cp.Some? && t.actors[a].status == t.cp.value.st.status)
    && (a in t.actors ==> t.actors[a].Saving? || t.actors[a].Creating? || t.actors[a].Invoking?)
    && (t.log.applied != s.log.applied ==> Decides(s, s.actors[a]))
  }

  ghost predicate OnlyMovesAndApplies(s: Rows, t: Rows, a: nat) {
    OnlyMoves(s.(log := t.log), t, a) && t.log.accepted == s.log.accepted && t.log.everRun == s.log.everRun
  }

  lemma {:induction false} CommitWrites(s: Rows, a: nat)
    requires At(s, a) && s.actors[a].Ran?
    ensures Written(s, DoCommit(s, a), a)
  {
    CommitFrame(s, a);
  }

  lemma {:induction false} CommitKeepsRefused(s: Rows, a: nat)
    requires Inv(s) && RefusedOk(s)
    ensures RefusedOk(DoCommit(s, a))
  {
    if At(s, a) && s.actors[a].Ran? {
      var t := DoCommit(s, a);
      CommitKeeps(s, a);
      CommitWrites(s, a);
      if t.log.applied != s.log.applied {
        RejectionCommits(s, a);
        RejectionWaits(s, t, a);
      } else {
        SameDecision(s, t, a);
      }
    }
  }

  lemma {:induction false} SameDecision(s: Rows, t: Rows, a: nat)
    requires RefusedOk(s) && TablesOk(t) && Written(s, t, a) && t.log.applied == s.log.applied
    ensures RefusedOk(t)
  {
    if Refused(t) && t.cp.Some? {
      RefusedStatus(t);
    }
    MoveKeepsRefused(s, t, a);
  }

  // A decision leads to `execute`, which nobody saves before running it.
  lemma {:induction false} RejectionCommits(s: Rows, a: nat)
    requires At(s, a) && s.actors[a].Ran? && DoCommit(s, a).log.applied != s.log.applied
    ensures a in DoCommit(s, a).actors ==> !DoCommit(s, a).actors[a].Saving?
  {
  }

  // The decision just applied is the one unconsumed signal's.
  lemma {:induction false} RejectionWaits(s: Rows, t: Rows, a: nat)
    requires Inv(s) && RefusedOk(s) && Written(s, t, a) && t.log.applied != s.log.applied
    requires a in t.actors ==> !t.actors[a].Saving?
    ensures RefusedOk(t)
  {
    ApplyingIsEarly(s, a);
    NoneConsumesYet(s);
    StillUnconsumed(s, t, a);
  }

  lemma {:induction false} StillUnconsumed(s: Rows, t: Rows, a: nat)
    requires RefusedOk(s) && Written(s, t, a) && SomeUnconsumed(s)
    requires a in t.actors ==> !t.actors[a].Saving?
    requires forall b :: b in s.actors && s.actors[b].Saving? ==> s.actors[b].signal.None?
    ensures RefusedOk(t)
  {
    var i :| Unconsumed(s.signals, i, s.id);
    assert Unconsumed(t.signals, i, t.id);
  }

  lemma {:induction false} NoneConsumesYet(s: Rows)
    requires ActorsOk(s) && !Past(s, Execute)
    ensures forall a :: a in s.actors && s.actors[a].Saving? ==> s.actors[a].signal.None?
  {
    forall a | a in s.actors && s.actors[a].Saving? ensures s.actors[a].signal.None? {
      assert ActorOk(s, s.actors[a]);
    }
  }

  lemma {:induction false} ApplyingIsEarly(s: Rows, a: nat)
    requires TablesOk(s) && ActorsOk(s) && At(s, a) && Decides(s, s.actors[a])
    ensures !Past(s, Execute) && s.log.accepted != [] && SomeUnconsumed(s)
  {
    var resume := RanResume(s, a);
  }

  lemma {:induction false} SeedKeepsRefused(s: Rows, a: nat, ticket: Ticket)
    requires Inv(s) && RefusedOk(s)
    ensures RefusedOk(DoSeed(s, a, ticket))
  {
  }

  lemma {:induction false} GraphKeepsRefused(s: Rows, now: Time, e: Event)
    requires Inv(s) && RefusedOk(s) && GraphEvent(e)
    ensures RefusedOk(ApplyGraph(s, now, e))
  {
    match e
    case SeedTicket(a, ticket) => SeedKeepsRefused(s, a, ticket);
    case RunNode(a) => RunNodeKeepsRefused(s, now, a);
    case Commit(a) => CommitKeepsRefused(s, a);
  }

  lemma {:induction false} InsertsKeepRefused(s: Rows, now: Time, e: Event)
    requires Inv(s) && RefusedOk(s) && InsertEvent(e)
    ensures RefusedOk(ApplyInsert(s, now, e))
  {
    if e.InsertRun? {
      InsertKeepsRefused(s, now, e.a);
    } else if e.Submit? {
      SubmitKeepsRefused(s, now, e.decision);
    } else {
      ListQuiet(s, e.a);
      QuietKeepsRefused(s, ApplyInsert(s, now, e));
    }
  }

  lemma {:induction false} RunnersKeepRefused(s: Rows, now: Time, e: Event)
    requires RefusedOk(s) && OneRunner(s) && RunnerEvent(e)
    ensures RefusedOk(ApplyRunner(s, now, e))
  {
    if e.Save? {
      SaveKeepsRefused(s, now, e.a);
    } else {
      if e.Claim? {
        ClaimQuiet(s, now, e.a, e.owner);
      } else if e.Look? {
        LookQuiet(s, e.a);
      } else {
        ChooseQuiet(s, e.a);
      }
      QuietKeepsRefused(s, ApplyRunner(s, now, e));
    }
  }

  lemma {:induction false} StepKeepsRefused(s: Rows, now: Time, e: Event)
    requires Inv(s) && RefusedOk(s) && OneRunner(s)
    ensures RefusedOk(Apply(s, now, e))
  {
    var t;
    if GraphEvent(e) {
      GraphKeepsRefused(s, now, e);
      t := ApplyGraph(s, now, e);
    } else if InsertEvent(e) {
      InsertsKeepRefused(s, now, e);
      t := ApplyInsert(s, now, e);
    } else if RunnerEvent(e) {
      RunnersKeepRefused(s, now, e);
      t := ApplyRunner(s, now, e);
    } else if WorkEvent(e) {
      WorkQuiet(s, now, e);
      t := ApplyWork(s, now, e);
      QuietKeepsRefused(s, t);
    } else {
      UpkeepQuiet(s, now, e);
      t := ApplyUpkeep(s, now, e);
      QuietKeepsRefused(s, t);
    }
    assert t == Apply(s, now, e) && RefusedOk(t);
  }

  lemma {:induction false} AlwaysRefusedOk(id: Id, steps: seq<Step>)
    requires Punctual(id, steps)
    ensures RefusedOk(After(Fresh(id), steps))
  {
    if steps != [] {
      var n := |steps| - 1;
      PunctualFront(id, steps);
      AlwaysRefusedOk(id, steps[..n]);
      AlwaysInv(id, steps[..n]);
      PunctualFenced(id, steps[..n]);
      StepKeepsRefused(After(Fresh(id), steps[..n]), steps[n].now, steps[n].event);
    }
  }

  /** If every runner finishes within its lease, then once a decision has been applied the API
      accepts a further one only if that decision was an approval, as long as the ticket's run has
      not been archived. */
  lemma {:induction false} RejectionIsLast(id: Id, steps: seq<Step>, d: Decision)
    requires Punctual(id, steps) && DecisionsApplied(id, steps) == [d]
    requires After(Fresh(id), steps).archived.None?
    ensures Accepts(After(Fresh(id), steps)) ==> d.approved
  {
    AlwaysRefusedOk(id, steps);
    AppliedLogged(id, steps);
    var s := After(Fresh(id), steps);
    if Accepts(s) {
      assert !SomeUnconsumed(s);
    }
  }
}
