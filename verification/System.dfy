/** All tickets at once. Every table carries the ticket's id, so a statement about one ticket
    touches only its rows, and a statement about all rows is applied to each ticket's. Task and
    signal serials are shared: what one ticket draws, the others skip. */
module System {
  import opened Wrappers
  import opened Models
  import opened TaskQueue
  import opened WorkflowRuns
  import opened Engine
  import opened Frames
  import opened Guarantees

  datatype SystemEvent =
    | One(id: Id, event: Event)
    | ReclaimAllTasks
    | ReclaimAllRuns
    | ArchiveAll(a: nat, maxAge: Time)
    | PruneAllSignals(maxAge: Time)
    | PruneAllTasks(maxAge: Time)

  datatype SystemStep = SystemStep(now: Time, event: SystemEvent)

  function Drawn(before: nat, after: nat): nat { if before <= after then after - before else 0 }

  predicate DueForArchive(s: Rows, now: Time, maxAge: Time) {
    s.run.Some? && Archivable(s.run.value, now, maxAge)
  }

  // The insert into the archive meets a primary key that is there already.
  predicate ArchiveConflict(w: map<Id, Rows>, now: Time, maxAge: Time) {
    exists id :: id in w && DueForArchive(w[id], now, maxAge) && w[id].archived.Some?
  }

  // What a system step is to one ticket's rows.
  function Locally(w: map<Id, Rows>, now: Time, e: SystemEvent, id: Id): Event {
    match e
    case One(i, event) =>
      if i == id then event
      else if i in w then
        var t := Apply(w[i], now, event);
        Serials(Drawn(w[i].tasks.nextId, t.tasks.nextId), Drawn(w[i].nextSignal, t.nextSignal))
      else Serials(0, 0)
    case ReclaimAllTasks => ReclaimTasks
    case ReclaimAllRuns => ReclaimRuns
    case ArchiveAll(a, maxAge) => Archive(a, maxAge, ArchiveConflict(w, now, maxAge))
    case PruneAllSignals(maxAge) => PruneSignals(maxAge)
    case PruneAllTasks(maxAge) => PruneTasks(maxAge)
  }

  function ApplyAll(w: map<Id, Rows>, now: Time, e: SystemEvent): map<Id, Rows> {
    map id | id in w :: Apply(w[id], now, Locally(w, now, e, id))
  }

  function FreshAll(ids: set<Id>): map<Id, Rows> {
    map id | id in ids :: Fresh(id)
  }

  function AfterAll(ids: set<Id>, steps: seq<SystemStep>): map<Id, Rows> {
    if steps == [] then FreshAll(ids)
    else
      var last := steps[|steps| - 1];
      ApplyAll(AfterAll(ids, steps[..|steps| - 1]), last.now, last.event)
  }

  function Projected(ids: set<Id>, steps: seq<SystemStep>, id: Id): (r: seq<Step>)
    ensures |r| == |steps|
  {
    if steps == [] then []
    else
      var front := steps[..|steps| - 1];
      var last := steps[|steps| - 1];
      Projected(ids, front, id) + [Step(last.now, Locally(AfterAll(ids, front), last.now, last.event, id))]
  }

  /** Each ticket of a system run has gone through a run of its own steps, so whatever holds
      after every such run holds of every ticket of the system. */
  lemma {:induction false} EveryTicketRuns(ids: set<Id>, steps: seq<SystemStep>, id: Id)
    requires id in ids
    ensures id in AfterAll(ids, steps) && AfterAll(ids, steps)[id] == After(Fresh(id), Projected(ids, steps, id))
  {
    if steps != [] {
      var n := |steps| - 1;
      EveryTicketRuns(ids, steps[..n], id);
      var r := Projected(ids, steps, id);
      assert r[..n] == Projected(ids, steps[..n], id);
      assert r[n] == Step(steps[n].now, Locally(AfterAll(ids, steps[..n]), steps[n].now, steps[n].event, id));
    }
  }

  lemma {:induction false} SerialsGrow(s: Rows, now: Time, e: Event)
    ensures s.tasks.nextId <= Apply(s, now, e).tasks.nextId && s.nextSignal <= Apply(s, now, e).nextSignal
  {
    if GraphEvent(e) {
      GraphFrame(s, now, e);
    } else if InsertEvent(e) {
      InsertFrame(s, now, e);
    } else if RunnerEvent(e) {
      RunnerFrame(s, now, e);
    } else if WorkEvent(e) {
      WorkFrame(s, now, e);
    } else {
      UpkeepFrame(s, now, e);
    }
  }

  ghost predicate SharedSerials(w: map<Id, Rows>) {
    forall i, j :: i in w && j in w ==> w[i].tasks.nextId == w[j].tasks.nextId && w[i].nextSignal == w[j].nextSignal
  }

  function TasksDrawn(w: map<Id, Rows>, now: Time, e: SystemEvent): nat {
    if e.One? && e.id in w then Drawn(w[e.id].tasks.nextId, Apply(w[e.id], now, e.event).tasks.nextId) else 0
  }

  function SignalsDrawn(w: map<Id, Rows>, now: Time, e: SystemEvent): nat {
    if e.One? && e.id in w then Drawn(w[e.id].nextSignal, Apply(w[e.id], now, e.event).nextSignal) else 0
  }

  lemma {:induction false} BulkDrawsNothing(s: Rows, now: Time, e: Event)
    requires e.ReclaimTasks? || e.ReclaimRuns? || e.Archive? || e.PruneSignals? || e.PruneTasks?
    ensures Apply(s, now, e).tasks.nextId == s.tasks.nextId && Apply(s, now, e).nextSignal == s.nextSignal
  {
  }

  lemma {:induction false} TicketDraws(w: map<Id, Rows>, now: Time, e: SystemEvent, id: Id)
    requires id in w
    ensures var t := Apply(w[id], now, Locally(w, now, e, id));
            && t.tasks.nextId == w[id].tasks.nextId + TasksDrawn(w, now, e)
            && t.nextSignal == w[id].nextSignal + SignalsDrawn(w, now, e)
  {
    if e.One? {
      if e.id in w {
        SerialsGrow(w[e.id], now, e.event);
      }
    } else {
      BulkDrawsNothing(w[id], now, Locally(w, now, e, id));
    }
  }

  lemma {:induction false} StepSharesSerials(w: map<Id, Rows>, now: Time, e: SystemEvent)
    requires SharedSerials(w)
    ensures SharedSerials(ApplyAll(w, now, e))
  {
    var t := ApplyAll(w, now, e);
    forall i, j | i in t && j in t
      ensures t[i].tasks.nextId == t[j].tasks.nextId && t[i].nextSignal == t[j].nextSignal
    {
      TicketDraws(w, now, e, i);
      TicketDraws(w, now, e, j);
    }
  }

  /** The tickets draw task and signal ids from common serials. */
  lemma {:induction false} SerialsAreShared(ids: set<Id>, steps: seq<SystemStep>)
    ensures SharedSerials(AfterAll(ids, steps))
  {
    if steps != [] {
      var n := |steps| - 1;
      SerialsAreShared(ids, steps[..n]);
      StepSharesSerials(AfterAll(ids, steps[..n]), steps[n].now, steps[n].event);
    }
  }

  /** A refund anywhere in the system follows an approval of that very ticket. */
  lemma {:induction false} NoRefundAnywhereWithoutApproval(ids: set<Id>, steps: seq<SystemStep>, id: Id, amount: real)
    requires id in ids && id in AfterAll(ids, steps) && AfterAll(ids, steps)[id].fx.refund == Some(amount)
    ensures var own := Projected(ids, steps, id);
            exists i: nat, d, k: nat, draft ::
              && AcceptedAt(id, own, i, d) && d.approved && steps[i].event == One(id, Submit(d))
              && k <= i && ShownAt(id, own, k, draft) && draft.action == Refund(amount)
  {
    var own := Projected(ids, steps, id);
    EveryTicketRuns(ids, steps, id);
    NoRefundWithoutApproval(id, own, amount);
    var i: nat, d, k: nat, draft :|
      AcceptedAt(id, own, i, d) && d.approved && k <= i && ShownAt(id, own, k, draft) && draft.action == Refund(amount);
    SubmitIsOwn(ids, steps, id, i, d);
  }

  lemma {:induction false} SubmitIsOwn(ids: set<Id>, steps: seq<SystemStep>, id: Id, i: nat, d: Decision)
    requires i < |steps| && Projected(ids, steps, id)[i].event == Submit(d)
    ensures steps[i].event == One(id, Submit(d))
  {
    var n := |steps| - 1;
    if i < n {
      SubmitIsOwn(ids, steps[..n], id, i, d);
    }
  }

  // What a statement about all rows is to one ticket's.
  function BulkOn(s: Rows, now: Time, e: SystemEvent): Rows
    requires !e.One? && !e.ArchiveAll?
  {
    match e
    case ReclaimAllTasks => s.(tasks := ReclaimExpired(s.tasks, now))
    case ReclaimAllRuns => DoReclaimRuns(s, now)
    case PruneAllTasks(maxAge) => s.(tasks := PruneSettled(s.tasks, now, maxAge))
    case PruneAllSignals(maxAge) => s.(signals := PruneConsumed(s.signals, now, maxAge))
  }

  lemma {:induction false} LocallyBulk(w: map<Id, Rows>, s: Rows, now: Time, e: SystemEvent, id: Id)
    requires !e.One? && !e.ArchiveAll?
    ensures Apply(s, now, Locally(w, now, e, id)) == BulkOn(s, now, e)
  {
  }

  /** A statement about all rows is, for each ticket, that statement on its own rows. */
  lemma {:induction false} BulkIsLocal(w: map<Id, Rows>, now: Time, e: SystemEvent, id: Id)
    requires id in w && !e.One? && !e.ArchiveAll?
    ensures id in ApplyAll(w, now, e) && ApplyAll(w, now, e)[id] == BulkOn(w[id], now, e)
  {
    LocallyBulk(w, w[id], now, e, id);
  }

  /** A step on one ticket is to the others some serial numbers drawn. */
  lemma {:induction false} OthersSeeSerials(w: map<Id, Rows>, now: Time, id: Id, j: Id, e: Event)
    requires id in w && j in w && j != id
    ensures ApplyAll(w, now, One(id, e))[id] == Apply(w[id], now, e)
    ensures var t := ApplyAll(w, now, One(id, e))[j];
            t == w[j].(tasks := w[j].tasks.(nextId := t.tasks.nextId), nextSignal := t.nextSignal)
  {
  }

  /** One archive pass moves every due run or none: none exactly when some due run's id is in the
      archive already, which is how a run rebuilt after archiving blocks retention. */
  lemma {:induction false} ArchiveAllOrNothing(w: map<Id, Rows>, now: Time, a: nat, maxAge: Time, id: Id)
    requires id in w && DueForArchive(w[id], now, maxAge) && a !in w[id].actors
    ensures var archivedAlready := exists j :: j in w && DueForArchive(w[j], now, maxAge) && w[j].archived.Some?;
            && (ApplyAll(w, now, ArchiveAll(a, maxAge))[id].run.None? <==> !archivedAlready)
            && (archivedAlready ==> ApplyAll(w, now, ArchiveAll(a, maxAge)) == w)
  {
    var t := ApplyAll(w, now, ArchiveAll(a, maxAge));
    ArchivesEach(w, now, a, maxAge, id);
    if ArchiveConflict(w, now, maxAge) {
      forall i | i in w ensures t[i] == w[i] {
        ArchivesEach(w, now, a, maxAge, i);
      }
      assert t.Keys == w.Keys;
    }
  }

  lemma {:induction false} ArchivesEach(w: map<Id, Rows>, now: Time, a: nat, maxAge: Time, id: Id)
    requires id in w
    ensures var t := ApplyAll(w, now, ArchiveAll(a, maxAge));
            id in t && t[id] == DoArchive(w[id], now, a, maxAge, ArchiveConflict(w, now, maxAge))
  {
    var e := Archive(a, maxAge, ArchiveConflict(w, now, maxAge));
    assert Locally(w, now, ArchiveAll(a, maxAge), id) == e;
    assert Apply(w[id], now, e) == DoArchive(w[id], now, a, maxAge, e.conflict);
  }
}
