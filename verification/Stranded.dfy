/** A crash between two checkpoints of one invocation: the thread is left without an interrupt, and no
    runner ever moves it again. */
module Stranded {
  import opened Wrappers
  import opened Models
  import opened Graph
  import opened Engine

  // No process holds an invocation of the graph, or an envelope to begin one with.
  predicate Idle(x: Actor) {
    !x.Invoking? && !x.Ran? && (x.Looked? ==> x.envelope.None?)
  }

  // The thread is between two nodes, and nobody is at it.
  ghost predicate Halted(s: Rows, cp: Checkpoint) {
    && s.log.born && (s.cp == Some(cp) || s.cp.None?)
    && cp.envelope.None?
    && forall a :: a in s.actors ==> Idle(s.actors[a])
  }

  lemma {:induction false} GraphHalted(s: Rows, now: Time, e: Event, cp: Checkpoint)
    requires Halted(s, cp) && GraphEvent(e)
    ensures ApplyGraph(s, now, e) == s
  {
    if !e.SeedTicket? && At(s, e.a) {
      assert Idle(s.actors[e.a]);
    }
  }

  lemma {:induction false} InsertHalted(s: Rows, now: Time, e: Event, cp: Checkpoint)
    requires Halted(s, cp) && InsertEvent(e)
    ensures Halted(ApplyInsert(s, now, e), cp)
  {
  }

  lemma {:induction false} RunnerHalted(s: Rows, now: Time, e: Event, cp: Checkpoint)
    requires Halted(s, cp) && RunnerEvent(e)
    ensures Halted(ApplyRunner(s, now, e), cp)
  {
  }

  lemma {:induction false} WorkHalted(s: Rows, now: Time, e: Event, cp: Checkpoint)
    requires Halted(s, cp) && WorkEvent(e)
    ensures Halted(ApplyWork(s, now, e), cp)
  {
  }

  lemma {:induction false} UpkeepHalted(s: Rows, now: Time, e: Event, cp: Checkpoint)
    requires Halted(s, cp) && UpkeepEvent(e)
    ensures Halted(ApplyUpkeep(s, now, e), cp)
  {
  }

  lemma {:induction false} StepHalted(s: Rows, now: Time, e: Event, cp: Checkpoint)
    requires Halted(s, cp)
    ensures Halted(Apply(s, now, e), cp)
  {
    var t;
    if GraphEvent(e) {
      GraphHalted(s, now, e, cp);
      t := ApplyGraph(s, now, e);
    } else if InsertEvent(e) {
      InsertHalted(s, now, e, cp);
      t := ApplyInsert(s, now, e);
    } else if RunnerEvent(e) {
      RunnerHalted(s, now, e, cp);
      t := ApplyRunner(s, now, e);
    } else if WorkEvent(e) {
      WorkHalted(s, now, e, cp);
      t := ApplyWork(s, now, e);
    } else {
      UpkeepHalted(s, now, e, cp);
      t := ApplyUpkeep(s, now, e);
    }
    assert t == Apply(s, now, e) && Halted(t, cp);
  }

  /** However it goes on, claims, timers, reconciling and retention included, the thread stays where
      the crash left it until it is deleted. */
  lemma {:induction false} HaltedForGood(s: Rows, cp: Checkpoint, steps: seq<Step>)
    requires Halted(s, cp)
    ensures After(s, steps).cp == Some(cp) || After(s, steps).cp.None?
    ensures Halted(After(s, steps), cp)
  {
    if steps != [] {
      var n := |steps| - 1;
      HaltedForGood(s, cp, steps[..n]);
      StepHalted(After(s, steps[..n]), steps[n].now, steps[n].event, cp);
    }
  }
}
