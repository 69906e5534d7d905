/** What each kind of step leaves as it was. */
module Frames {
  import opened Models
  import opened Engine

  // ----- graph steps: the thread, the outbox and the history

  ghost predicate GraphLeaves(s: Rows, t: Rows) {
    && t.id == s.id && t.run == s.run && t.archived == s.archived
    && t.signals == s.signals && t.nextSignal == s.nextSignal && t.fx == s.fx
    && t.log.accepted == s.log.accepted && t.log.shown == s.log.shown && t.log.everRun == s.log.everRun
    && (s.log.born ==> t.log.born) && s.tasks.nextId <= t.tasks.nextId
  }

  lemma {:induction false} SeedFrame(s: Rows, a: nat, ticket: Ticket)
    ensures GraphLeaves(s, DoSeed(s, a, ticket)) && DoSeed(s, a, ticket).tasks == s.tasks
    ensures var t := DoSeed(s, a, ticket); t.log == s.log.(born := t.log.born)
  {
  }

  lemma {:induction false} NodeFrame(s: Rows, now: Time, a: nat)
    ensures GraphLeaves(s, DoRunNode(s, now, a)) && DoRunNode(s, now, a).cp == s.cp
    ensures var t := DoRunNode(s, now, a); t.log == s.log.(final := t.log.final)
  {
  }

  lemma {:induction false} CommitFrame(s: Rows, a: nat)
    ensures GraphLeaves(s, DoCommit(s, a)) && DoCommit(s, a).tasks == s.tasks
    ensures var t := DoCommit(s, a); t.log.final == s.log.final && t.log.born == s.log.born
  {
  }

  lemma {:induction false} GraphFrame(s: Rows, now: Time, e: Event)
    requires GraphEvent(e)
    ensures GraphLeaves(s, ApplyGraph(s, now, e))
  {
    match e
    case SeedTicket(a, ticket) => SeedFrame(s, a, ticket);
    case RunNode(a) => NodeFrame(s, now, a);
    case Commit(a) => CommitFrame(s, a);
  }

  // ----- inserts: run rows, signals and what the log says of them

  ghost predicate InsertLeaves(s: Rows, t: Rows) {
    && t.id == s.id && t.tasks == s.tasks && t.cp == s.cp && t.fx == s.fx && t.archived == s.archived
    && s.nextSignal <= t.nextSignal && (s.run.Some? ==> t.run.Some?)
    && t.log == s.log.(accepted := t.log.accepted, shown := t.log.shown, everRun := t.log.everRun)
    && (s.log.everRun ==> t.log.everRun)
  }

  lemma {:induction false} InsertFrame(s: Rows, now: Time, e: Event)
    requires InsertEvent(e)
    ensures InsertLeaves(s, ApplyInsert(s, now, e))
    ensures !e.Submit? ==> var t := ApplyInsert(s, now, e);
                           t.log.accepted == s.log.accepted && t.log.shown == s.log.shown && t.signals == s.signals
  {
  }

  // ----- the other steps leave the history

  ghost predicate RunnerLeaves(s: Rows, t: Rows) {
    && t.id == s.id && t.tasks == s.tasks && t.cp == s.cp && t.fx == s.fx && t.archived == s.archived
    && t.nextSignal == s.nextSignal && t.log == s.log && (s.run.Some? <==> t.run.Some?)
  }

  lemma {:induction false} RunnerFrame(s: Rows, now: Time, e: Event)
    requires RunnerEvent(e)
    ensures RunnerLeaves(s, ApplyRunner(s, now, e))
  {
  }

  ghost predicate WorkLeaves(s: Rows, t: Rows) {
    && t.id == s.id && t.cp == s.cp && t.archived == s.archived && t.signals == s.signals
    && t.nextSignal == s.nextSignal && t.tasks.nextId == s.tasks.nextId && t.log == s.log
    && (s.run.Some? <==> t.run.Some?)
  }

  lemma {:induction false} WorkFrame(s: Rows, now: Time, e: Event)
    requires WorkEvent(e)
    ensures WorkLeaves(s, ApplyWork(s, now, e))
    ensures !e.Wake? ==> ApplyWork(s, now, e).run == s.run
  {
  }

  ghost predicate UpkeepLeaves(s: Rows, t: Rows) {
    && t.id == s.id && t.fx == s.fx && t.log == s.log && (t.cp == s.cp || t.cp.None?)
    && s.nextSignal <= t.nextSignal && s.tasks.nextId <= t.tasks.nextId
    && (s.run.Some? || s.archived.Some? ==> t.run.Some? || t.archived.Some?)
    && (s.archived.Some? ==> t.archived == s.archived)
  }

  lemma {:induction false} UpkeepFrame(s: Rows, now: Time, e: Event)
    requires UpkeepEvent(e)
    ensures UpkeepLeaves(s, ApplyUpkeep(s, now, e))
  {
  }

  /** Only graph steps and inserts write history. */
  lemma {:induction false} LogFrame(s: Rows, now: Time, e: Event)
    ensures var t := Apply(s, now, e);
            && t.id == s.id
            && (GraphEvent(e) ==> GraphLeaves(s, t))
            && (InsertEvent(e) ==> InsertLeaves(s, t))
            && (!GraphEvent(e) && !InsertEvent(e) ==> t.log == s.log && (t.cp == s.cp || t.cp.None?))
  {
    if GraphEvent(e) {
      GraphFrame(s, now, e);
    } else if InsertEvent(e) {
      InsertFrame(s, now, e);
    } else if RunnerEvent(e) {
      RunnerFrame(s, now, e);
    } else if WorkEvent(e) {
      WorkFrame(s, now, e);
    } else {
      UpkeepFrame(s, now, e);
    }
  }

  // What only a checkpoint write changes.
  ghost predicate SameProgress(s: Rows, t: Rows) {
    && t.log.held == s.log.held && t.log.resumed == s.log.resumed
    && t.log.applied == s.log.applied && t.log.prompted == s.log.prompted
  }

  lemma {:induction false} OnlyCommitsWrite(s: Rows, now: Time, e: Event)
    requires !e.Commit?
    ensures SameProgress(s, Apply(s, now, e))
    ensures !e.RunNode? ==> Apply(s, now, e).log.final == s.log.final
    ensures !e.SeedTicket? ==> Apply(s, now, e).cp == s.cp || Apply(s, now, e).cp.None?
  {
    if e.SeedTicket? {
      SeedFrame(s, e.a, e.ticket);
    } else if e.RunNode? {
      NodeFrame(s, now, e.a);
    } else {
      LogFrame(s, now, e);
    }
  }
}
