/** The runner's passes over the database. Undisturbed, each is a run of the engine's steps. */
module Runner {
  import opened Wrappers
  import opened Models
  import opened WorkflowRuns
  import opened Engine
  import opened Tables
  import opened Store
  import opened Invocations
  import opened Steps

  // ----- one step of the runner

  method Advance(db: Database, id: Id, run: Run, clock: Clock) returns (advanced: bool, ghost nodes: nat)
    modifies db`tasks, db`runs, db`signals, db`threads
    ensures Stepped(db.Now(), advanced, nodes) == AdvanceOn(old(db.Now()), id, run, clock)
  {
    var envelope := if id in db.threads then db.threads[id].envelope else None;
    var resume := None;
    if envelope.Some? {
      resume := ResumeForRun(db.tasks, db.signals, db.nextSignal, envelope.value, run.wakeupAt);
    }
    if envelope.None? || resume.None? {
      db.SaveRun(clock(1), id, run.status, run.wakeupAt, None);
      return false, 0;
    }
    var out, n := Ainvoke(db, id, Some(resume.value.payload), clock, 0);
    if out.None? {
      return false, n;
    }
    db.SaveRun(clock(n + 1), id, out.value.st.status, NextWakeup(out.value), resume.value.consumes);
    advanced, nodes := true, n;
  }

  /** Claim the oldest run that is due and advance it by one resume. */
  method StepOnce(db: Database, worker: string, clock: Clock) returns (claimed: Option<Id>, advanced: bool)
    modifies db`tasks, db`runs, db`signals, db`threads
    ensures claimed.None? ==> db.Now() == old(db.Now()) && !advanced && forall id :: !IsClaimable(db.runs, clock(0), id)
    ensures claimed.Some? ==>
              && IsClaimable(old(db.runs), clock(0), claimed.value)
              && (forall id :: IsClaimable(old(db.runs), clock(0), id) ==>
                    old(db.runs)[claimed.value].createdAt <= old(db.runs)[id].createdAt)
              && (var r := StepOn(old(db.Now()), claimed.value, worker, clock);
                  db.Now() == r.tables && advanced == r.advanced)
              && StepMeans(old(db.Now()), db.Now(), claimed.value, worker, clock)
  {
    ghost var before := db.Now();
    claimed := db.ClaimRun(clock(0), worker);
    if claimed.None? {
      return None, false;
    }
    var id := claimed.value;
    ghost var nodes;
    advanced, nodes := Advance(db, id, db.runs[id], clock);
    StepDoes(before, id, worker, clock);
  }

  // The same step by one process of the engine.
  function EngineStep(s: Rows, worker: string, nodes: nat, clock: Clock): Rows {
    EngineAdvance(DoClaim(s, clock(0), 0, worker), nodes, clock)
  }

  function EngineAdvance(s: Rows, nodes: nat, clock: Clock): Rows {
    DoSave(NodeRuns(DoChoose(DoLook(s, 0), 0), 0, nodes, clock), clock(nodes + 1), 0)
  }

  lemma {:induction false} ClaimInStep(t: Contents, id: Id, s: Rows, worker: string, now: Time)
    requires IsClaimable(t.runs, now, id) && InStep(t, id, s, None)
    ensures InStep(ClaimOn(t, id, worker, now), id, DoClaim(s, now, 0, worker),
                   Some(Claimed(now, t.runs[id].status, t.runs[id].wakeupAt)))
  {
    assert EffectsOf(ClaimOn(t, id, worker, now), id) == EffectsOf(t, id);
  }

  lemma {:induction false} LookInStep(
    t: Contents, id: Id, s: Rows, claimedAt: Time, status: Status, wakeupAt: Option<Time>)
    requires InStep(t, id, s, Some(Claimed(claimedAt, status, wakeupAt)))
    ensures InStep(t, id, DoLook(s, 0), Some(Looked(claimedAt, status, wakeupAt, EnvelopeAt(t, id))))
  {
  }

  lemma {:induction false} ChooseInStep(
    t: Contents, id: Id, s: Rows, claimedAt: Time, status: Status, wakeupAt: Option<Time>)
    requires Keyed(t) && InStep(t, id, s, Some(Looked(claimedAt, status, wakeupAt, EnvelopeAt(t, id))))
    ensures var resume := ResumeAt(t, id, wakeupAt);
            InStep(t, id, DoChoose(s, 0),
                   Some(if resume.None? then Saving(claimedAt, status, wakeupAt, None)
                        else Invoking(Caller.Runner(claimedAt, resume.value.consumes), Some(resume.value.payload))))
  {
    var envelope := EnvelopeAt(t, id);
    if envelope.Some? {
      assert CheckpointOf(id, t.threads[id]);
      ResumeLocal(t, id, envelope.value, wakeupAt);
    }
  }

  lemma {:induction false} SaveInStep(
    t: Contents, id: Id, s: Rows, claimedAt: Time, status: Status, wakeupAt: Option<Time>, signal: Option<nat>,
    now: Time)
    requires InStep(t, id, s, Some(Saving(claimedAt, status, wakeupAt, signal)))
    ensures InStep(SaveOn(t, id, now, status, wakeupAt, signal), id, DoSave(s, now, 0), None)
  {
    var u := SaveOn(t, id, now, status, wakeupAt, signal);
    if signal.Some? {
      SignalsLocal(t.signals, now, signal.value, 0, id);
    }
    assert EffectsOf(u, id) == EffectsOf(t, id);
  }

  // Where the runner is once it has read the thread and looked for a resume.
  function ChosenActor(claimedAt: Time, run: Run, resume: Option<ResumeValue>): Actor {
    if resume.None? then Saving(claimedAt, run.status, run.wakeupAt, None)
    else Invoking(Caller.Runner(claimedAt, resume.value.consumes), Some(resume.value.payload))
  }

  lemma {:induction false} ResumeInStep(t: Contents, id: Id, s: Rows, run: Run, claimedAt: Time) returns (v: Rows)
    requires Keyed(t) && InStep(t, id, s, Some(Claimed(claimedAt, run.status, run.wakeupAt)))
    ensures v == DoChoose(DoLook(s, 0), 0)
    ensures InStep(t, id, v, Some(ChosenActor(claimedAt, run, ResumeAt(t, id, run.wakeupAt))))
  {
    v := DoChoose(DoLook(s, 0), 0);
    LookInStep(t, id, s, claimedAt, run.status, run.wakeupAt);
    ChooseInStep(t, id, DoLook(s, 0), claimedAt, run.status, run.wakeupAt);
  }

  lemma {:induction false} AdvanceInStep(t: Contents, id: Id, s: Rows, run: Run, claimedAt: Time, clock: Clock)
    requires Keyed(t) && InStep(t, id, s, Some(Claimed(claimedAt, run.status, run.wakeupAt)))
    ensures var r := AdvanceOn(t, id, run, clock);
            InStep(r.tables, id, EngineAdvance(s, r.nodes, clock), None)
  {
    var resume := ResumeAt(t, id, run.wakeupAt);
    var chosen := ResumeInStep(t, id, s, run, claimedAt);
    if resume.None? {
      WaitInStep(t, id, chosen, claimedAt, run, clock);
    } else {
      FinishInStep(t, id, chosen, claimedAt, resume.value, clock);
    }
  }

  lemma {:induction false} WaitInStep(t: Contents, id: Id, s: Rows, claimedAt: Time, run: Run, clock: Clock)
    requires InStep(t, id, s, Some(Saving(claimedAt, run.status, run.wakeupAt, None)))
    ensures InStep(SaveOn(t, id, clock(1), run.status, run.wakeupAt, None), id,
                   DoSave(NodeRuns(s, 0, 0, clock), clock(1), 0), None)
  {
    SaveInStep(t, id, s, claimedAt, run.status, run.wakeupAt, None, clock(1));
  }

  lemma {:induction false} SaveReturned(
    r: Invoked, id: Id, s: Rows, claimedAt: Time, consumed: Option<nat>, clock: Clock)
    requires InStep(r.tables, id, s, FinishedAs(Caller.Runner(claimedAt, consumed), r.out))
    ensures var f := FinishOn(r, id, consumed, clock);
            f.nodes == r.nodes && InStep(f.tables, id, DoSave(s, clock(r.nodes + 1), 0), None)
  {
    if r.out.Some? {
      SaveInStep(r.tables, id, s, claimedAt, r.out.value.st.status, NextWakeup(r.out.value), consumed,
                 clock(r.nodes + 1));
    }
  }

  lemma {:induction false} FinishInStep(
    t: Contents, id: Id, s: Rows, claimedAt: Time, resume: ResumeValue, clock: Clock)
    requires Keyed(t) && id in t.threads
    requires InStep(t, id, s, Some(Invoking(Caller.Runner(claimedAt, resume.consumes), Some(resume.payload))))
    ensures var r := FinishOn(Invoke(t, id, Some(resume.payload), clock, 0), id, resume.consumes, clock);
            InStep(r.tables, id, DoSave(NodeRuns(s, 0, r.nodes, clock), clock(r.nodes + 1), 0), None)
  {
    var caller := Caller.Runner(claimedAt, resume.consumes);
    InvokeInStep(t, id, s, caller, Some(resume.payload), clock, 0);
    var r := Invoke(t, id, Some(resume.payload), clock, 0);
    var v := NodeRuns(s, 0, r.nodes, clock);
    SaveReturned(r, id, v, claimedAt, resume.consumes, clock);
  }

  /** The runner's step is one engine process's run from claim to save: what holds of the
      engine's runs holds of what `StepOnce` does. */
  lemma {:induction false} StepInStep(t: Contents, id: Id, s: Rows, worker: string, clock: Clock)
    requires Keyed(t) && IsClaimable(t.runs, clock(0), id) && InStep(t, id, s, None)
    ensures var r := StepOn(t, id, worker, clock);
            InStep(r.tables, id, EngineStep(s, worker, r.nodes, clock), None)
  {
    ClaimInStep(t, id, s, worker, clock(0));
    AdvanceInStep(ClaimOn(t, id, worker, clock(0)), id, DoClaim(s, clock(0), 0, worker),
                  ClaimRow(t.runs[id], clock(0), worker), clock(0), clock);
  }

  lemma {:induction false} AdvanceElsewhere(t: Contents, id: Id, run: Run, clock: Clock)
    requires Keyed(t)
    ensures var r := AdvanceOn(t, id, run, clock); Keyed(r.tables) && Elsewhere(t, r.tables, id)
  {
    var resume := ResumeAt(t, id, run.wakeupAt);
    if resume.None? {
      SaveElsewhere(t, id, clock(1), run.status, run.wakeupAt, None);
    } else {
      var r := InvokeElsewhere(t, id, Some(resume.value.payload), clock, 0);
      if r.out.Some? {
        InvokeTouches(t, id, Some(resume.value.payload), clock, 0);
        assert CheckpointOf(id, t.threads[id]);
        SaveElsewhere(r.tables, id, clock(r.nodes + 1), r.out.value.st.status, NextWakeup(r.out.value),
                      resume.value.consumes);
        ElsewhereTransitive(t, r.tables, AdvanceOn(t, id, run, clock).tables, id);
      }
    }
  }

  lemma {:induction false} SaveElsewhere(
    t: Contents, id: Id, now: Time, status: Status, wakeupAt: Option<Time>, consumed: Option<nat>)
    requires consumed.Some? && consumed.value in t.signals ==> t.signals[consumed.value].workflowId == id
    ensures Elsewhere(t, SaveOn(t, id, now, status, wakeupAt, consumed), id)
  {
    var u := SaveOn(t, id, now, status, wakeupAt, consumed);
    assert forall j: Id :: EffectsOf(t, j) == EffectsOf(u, j);
  }

  /** A step on one ticket leaves every other one's rows alone. */
  lemma {:induction false} StepElsewhere(t: Contents, id: Id, worker: string, clock: Clock)
    requires Keyed(t) && id in t.runs
    ensures var r := StepOn(t, id, worker, clock);
            Keyed(r.tables) && Elsewhere(t, r.tables, id)
  {
    var u := ClaimOn(t, id, worker, clock(0));
    assert forall j: Id :: EffectsOf(t, j) == EffectsOf(u, j);
    assert Elsewhere(t, u, id);
    AdvanceElsewhere(u, id, ClaimRow(t.runs[id], clock(0), worker), clock);
    ElsewhereTransitive(t, u, AdvanceOn(u, id, ClaimRow(t.runs[id], clock(0), worker), clock).tables, id);
  }
}
