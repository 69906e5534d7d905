/** The runner's passes over all tickets: rebuilding run rows and retention. */
module Maintenance {
  import opened Wrappers
  import opened Models
  import opened TaskQueue
  import opened WorkflowRuns
  import opened Graph
  import opened Tables
  import opened Store

  // ----- rebuilding run rows

  // The row shows what its ticket's checkpoint does, unleased.
  predicate Projects(run: Run, cp: Checkpoint) {
    run == NewRun(run.createdAt, cp.st.status, cp.st.wakeupAt)
  }

  // `runs` are the rows of `t` and a new one for each of `added`.
  ghost predicate Rebuilt(t: Contents, runs: map<Id, Run>, added: set<Id>)
    requires added <= t.threads.Keys
  {
    && runs.Keys == t.runs.Keys + added
    && forall id :: id in runs ==> if id in t.runs then runs[id] == t.runs[id] else Projects(runs[id], t.threads[id])
  }

  lemma {:induction false} AddRebuilt(t: Contents, runs: map<Id, Run>, added: set<Id>, id: Id, now: Time)
    requires added <= t.threads.Keys && Rebuilt(t, runs, added) && id in t.threads && id !in runs
    ensures Rebuilt(t, runs[id := NewRun(now, t.threads[id].st.status, t.threads[id].st.wakeupAt)], added + {id})
  {
  }

  // A pass that has these threads still to look at.
  ghost predicate Under(t: Contents, runs: map<Id, Run>, left: set<Id>) {
    && left <= t.threads.Keys && left !! t.runs.Keys
    && Rebuilt(t, runs, Stranded(t) - left)
  }

  lemma {:induction false} LookedAt(t: Contents, runs: map<Id, Run>, left: set<Id>, id: Id, now: Time)
    requires Under(t, runs, left) && id in left
    ensures id !in runs && (id in Stranded(t) <==> !t.threads[id].node.Start?)
    ensures var st := t.threads[id].st;
            Under(t, if id in Stranded(t) then runs[id := NewRun(now, st.status, st.wakeupAt)] else runs, left - {id})
  {
    ghost var added := Stranded(t) - left;
    OneFewer(Stranded(t), left, id);
    assert id !in runs.Keys;
    if id in Stranded(t) {
      AddRebuilt(t, runs, added, id, now);
    }
  }

  ghost function Handled(t: Contents, left: set<Id>): nat { |Stranded(t) - left| }

  // A thread whose state is not materialised yet is passed over.
  method RebuildRun(
    db: Database, id: Id, now: Time, ghost before: Contents, ghost left: set<Id>) returns (created: bool)
    requires before.threads == db.threads && id in left && Under(before, db.runs, left)
    modifies db`runs
    ensures Under(before, db.runs, left - {id})
    ensures Handled(before, left - {id}) == Handled(before, left) + (if created then 1 else 0)
  {
    OneFewer(Stranded(before), left, id);
    LookedAt(before, db.runs, left, id, now);
    created := !db.threads[id].node.Start?;
    if created {
      db.CreateRun(now, id, db.threads[id].st.status, db.threads[id].st.wakeupAt);
    }
  }

  /** Every materialised thread without a run row gets one, and the other rows stay. */
  method ReconcileOrphanedRuns(db: Database, clock: nat -> Time) returns (reconciled: nat)
    modifies db`runs
    ensures Rebuilt(old(db.Now()), db.runs, Stranded(old(db.Now())))
    ensures reconciled == |Stranded(old(db.Now()))|
  {
    reconciled := 0;
    ghost var before := db.Now();
    var orphaned := set id | id in db.threads && id !in db.runs;
    Starts(before, orphaned);
    while orphaned != {}
      invariant Under(before, db.runs, orphaned)
      invariant reconciled == Handled(before, orphaned)
      decreases orphaned
    {
      var id :| id in orphaned;
      var created := RebuildRun(db, id, clock(reconciled), before, orphaned);
      orphaned := orphaned - {id};
      if created {
        reconciled := reconciled + 1;
      }
    }
    Ends(before, db.runs);
  }

  lemma {:induction false} Ends(t: Contents, runs: map<Id, Run>)
    requires Under(t, runs, {})
    ensures Rebuilt(t, runs, Stranded(t)) && Handled(t, {}) == |Stranded(t)|
  {
    assert Stranded(t) - {} == Stranded(t);
  }

  lemma {:induction false} Starts(t: Contents, orphaned: set<Id>)
    requires orphaned == set id | id in t.threads && id !in t.runs
    ensures Under(t, t.runs, orphaned) && Handled(t, orphaned) == 0
  {
    assert Stranded(t) - orphaned == {};
  }

  lemma {:induction false} OneFewer(stranded: set<Id>, orphaned: set<Id>, id: Id)
    requires id in orphaned
    ensures var next := stranded - (orphaned - {id});
            && next == (if id in stranded then stranded - orphaned + {id} else stranded - orphaned)
            && |next| == |stranded - orphaned| + (if id in stranded then 1 else 0)
  {
    var next := stranded - (orphaned - {id});
    assert next == if id in stranded then stranded - orphaned + {id} else stranded - orphaned;
  }

  /** A second pass finds nothing to do. */
  lemma {:induction false} SecondPassIdle(t: Contents, runs: map<Id, Run>)
    requires Rebuilt(t, runs, Stranded(t))
    ensures Stranded(t.(runs := runs)) == {}
  {
    assert Stranded(t.(runs := runs)) <= Stranded(t);
  }

  // ----- the janitor

  datatype JanitorResult = JanitorResult(tasks: nat, runs: nat)

  function Reclaimed(t: Contents, tasksNow: Time, runsNow: Time): Contents {
    t.(tasks := ReclaimExpired(t.tasks, tasksNow), runs := map id | id in t.runs :: ReclaimRunRow(t.runs[id], runsNow))
  }

  /** Every expired lease of a task and of a run is released, each counted. */
  method ReclaimExpiredLeases(db: Database, tasksNow: Time, runsNow: Time) returns (result: JanitorResult)
    modifies db`tasks, db`runs
    ensures db.Now() == Reclaimed(old(db.Now()), tasksNow, runsNow)
    ensures result.tasks == |set key | key in old(db.tasks).rows && LeaseExpired(old(db.tasks).rows[key], tasksNow)|
    ensures result.runs == |set id | id in old(db.runs) && RunLeaseExpired(old(db.runs)[id], runsNow)|
  {
    var tasks := db.ReclaimExpired(tasksNow);
    var runs := db.ReclaimExpiredRuns(runsNow);
    result := JanitorResult(tasks, runs);
  }

  // ----- retention

  // The runs that are due move to the archive, and their threads go.
  function ArchivedOn(t: Contents, now: Time, maxAge: Time): Contents {
    var due := DueForArchive(t.runs, now, maxAge);
    t.(runs := Without(t.runs, due), archive := t.archive + Among(t.runs, due), threads := Without(t.threads, due))
  }

  function PrunedOn(t: Contents, signalsNow: Time, tasksNow: Time, maxAge: Time): Contents {
    t.(signals := PruneConsumed(t.signals, signalsNow, maxAge), tasks := PruneSettled(t.tasks, tasksNow, maxAge))
  }

  // What a pass leaves, unless a run it moves is archived already.
  function Retained(t: Contents, clock: nat -> Time, maxAge: Time): Contents {
    PrunedOn(ArchivedOn(t, clock(0), maxAge), clock(1), clock(2), maxAge)
  }

  predicate ArchiveClash(t: Contents, now: Time, maxAge: Time) {
    DueForArchive(t.runs, now, maxAge) * t.archive.Keys != {}
  }

  method DeleteThreads(db: Database, ids: set<Id>) returns (deleted: nat)
    modifies db`threads
    ensures db.Now() == old(db.Now()).(threads := Without(old(db.threads), ids)) && deleted == |ids|
  {
    deleted := 0;
    var left := ids;
    ghost var done: set<Id> := {};
    while left != {}
      invariant left !! done && left + done == ids && deleted == |done|
      invariant db.threads == Without(old(db.threads), done)
      decreases left
    {
      var id :| id in left;
      left := left - {id};
      db.threads := db.threads - {id};
      done := done + {id};
      deleted := deleted + 1;
    }
    assert done == ids;
  }

  method MoveRuns(db: Database, now: Time, maxAge: Time) returns (moved: Option<set<Id>>)
    modifies db`runs, db`archive
    ensures moved.None? <==> ArchiveClash(old(db.Now()), now, maxAge)
    ensures moved.None? ==> db.Now() == old(db.Now())
    ensures moved.Some? ==>
              var t := old(db.Now());
              && moved.value == DueForArchive(t.runs, now, maxAge)
              && db.Now() == t.(runs := Without(t.runs, moved.value), archive := t.archive + Among(t.runs, moved.value))
  {
    moved := db.ArchiveTerminalRuns(now, maxAge);
  }

  // Archive, then delete the threads of what was archived.
  method ArchiveRuns(db: Database, now: Time, maxAge: Time) returns (counts: Option<(nat, nat)>)
    modifies db`runs, db`archive, db`threads
    ensures counts.None? <==> ArchiveClash(old(db.Now()), now, maxAge)
    ensures counts.None? ==> db.Now() == old(db.Now())
    ensures counts.Some? ==>
              var due := DueForArchive(old(db.runs), now, maxAge);
              counts.value == (|due|, |due|) && db.Now() == ArchivedOn(old(db.Now()), now, maxAge)
  {
    var archived := MoveRuns(db, now, maxAge);
    if archived.None? {
      return None;
    }
    var threads := DeleteThreads(db, archived.value);
    counts := Some((|archived.value|, threads));
  }

  method PruneOld(db: Database, signalsNow: Time, tasksNow: Time, maxAge: Time) returns (signals: nat, tasks: nat)
    modifies db`signals, db`tasks
    ensures db.Now() == PrunedOn(old(db.Now()), signalsNow, tasksNow, maxAge)
    ensures signals == |old(db.signals)| - |db.signals| && tasks == |old(db.tasks).rows| - |db.tasks.rows|
  {
    signals := db.PruneConsumedSignals(signalsNow, maxAge);
    tasks := db.PruneSettled(tasksNow, maxAge);
  }

  /** One pass. `None` is the archive's failure, which stops the pass before it changes anything. */
  method RunRetention(db: Database, clock: nat -> Time, maxAge: Time) returns (result: Option<RetentionResult>)
    modifies db`runs, db`archive, db`threads, db`signals, db`tasks
    ensures result.None? <==> ArchiveClash(old(db.Now()), clock(0), maxAge)
    ensures result.None? ==> db.Now() == old(db.Now())
    ensures result.Some? ==>
              var due := DueForArchive(old(db.runs), clock(0), maxAge);
              && db.Now() == Retained(old(db.Now()), clock, maxAge)
              && result.value.runs == |due| && result.value.checkpointThreads == |due|
    ensures result.Some? ==>
              && result.value.signals == |old(db.signals)| - |db.signals|
              && result.value.tasks == |old(db.tasks).rows| - |db.tasks.rows|
  {
    var counts := ArchiveRuns(db, clock(0), maxAge);
    if counts.None? {
      return None;
    }
    var signals, tasks := PruneOld(db, clock(1), clock(2), maxAge);
    result := Some(RetentionResult(counts.value.0, counts.value.1, signals, tasks));
  }

  // What is finished, and was so before this time.
  predicate OldRun(t: Contents, id: Id, before: Time)
    requires id in t.runs
  {
    var run := t.runs[id];
    (run.status.Resolved? || run.status.Rejected? || run.status.Escalated?) && run.updatedAt < before
  }

  predicate OldTask(t: Contents, key: Key, before: Time)
    requires key in t.tasks.rows
  {
    var row := t.tasks.rows[key];
    (row.status.Done? || row.status.Failed?) && row.enqueuedAt < before
  }

  predicate OldSignal(t: Contents, i: nat, before: Time)
    requires i in t.signals
  {
    var signal := t.signals[i];
    signal.consumed && signal.consumedAt.Some? && signal.consumedAt.value < before
  }

  /** Nothing unfinished and nothing young goes: a run row leaves exactly when it is terminal and was
      last touched longer ago than the age, and is archived as it stood; archived rows stay; a task
      or a signal leaves exactly when it is settled or consumed and that old. */
  lemma {:induction false} RetentionConserves(t: Contents, clock: nat -> Time, maxAge: Time)
    requires !ArchiveClash(t, clock(0), maxAge)
    ensures var u := Retained(t, clock, maxAge);
            && (forall id :: id in t.runs && id !in u.runs ==>
                  t.runs[id].status.Terminal() && id in u.archive && u.archive[id] == t.runs[id])
            && (forall id :: id in t.archive ==> id in u.archive && u.archive[id] == t.archive[id])
            && u.runs.Keys + u.archive.Keys == t.runs.Keys + t.archive.Keys
            && (forall key :: key in t.tasks.rows ==>
                  if key in u.tasks.rows then
                    u.tasks.rows[key] == t.tasks.rows[key] && !OldTask(t, key, clock(2) - maxAge)
                  else OldTask(t, key, clock(2) - maxAge))
            && (forall i :: i in t.signals ==>
                  if i in u.signals then u.signals[i] == t.signals[i] && !OldSignal(t, i, clock(1) - maxAge)
                  else OldSignal(t, i, clock(1) - maxAge))
            && (forall id :: id in t.runs ==> (id !in u.runs <==> OldRun(t, id, clock(0) - maxAge)))
  {
    var due := DueForArchive(t.runs, clock(0), maxAge);
    assert forall id :: id in due && id in t.archive ==> id in due * t.archive.Keys;
    MovesConserve(t.runs, t.archive, due);
  }

  // Rows moved from one table to another that has none of their keys.
  lemma {:induction false} MovesConserve(runs: map<Id, Run>, archive: map<Id, Run>, due: set<Id>)
    requires due <= runs.Keys && due !! archive.Keys
    ensures var rest, joined := Without(runs, due), archive + Among(runs, due);
            && (forall id :: id in runs && id !in rest ==> id in joined && joined[id] == runs[id])
            && (forall id :: id in archive ==> id in joined && joined[id] == archive[id])
            && rest.Keys + joined.Keys == runs.Keys + archive.Keys
  {
  }

  /** A pass fails exactly when some due run is archived already, as a run rebuilt after archiving
      is: one such run stops retention for every ticket. */
  lemma {:induction false} ClashExactly(t: Contents, now: Time, maxAge: Time)
    ensures ArchiveClash(t, now, maxAge) <==>
              exists id :: id in t.runs && id in t.archive && Archivable(t.runs[id], now, maxAge)
  {
    var due := DueForArchive(t.runs, now, maxAge);
    assert forall id :: id in due && id in t.archive <==> id in due * t.archive.Keys;
  }
}
