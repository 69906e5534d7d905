/** Invocations of the graph on one thread of the database, node run by node run. */
module Invocations {
  import opened Wrappers
  import opened Models
  import opened TaskQueue
  import opened Graph
  import opened Engine
  import opened Tables
  import opened Store

  // The n-th transaction of a pass reads the n-th time.
  type Clock = nat -> Time

  // ----- rows and checkpoints name their own ticket

  predicate PayloadOf(id: Id, payload: Payload) {
    payload.ticket.id == id && (payload.FinalizePayload? ==> payload.result.ticketId == id)
  }

  predicate CheckpointOf(id: Id, cp: Checkpoint) {
    cp.st.ticket.id == id && (cp.envelope.Some? ==> EnvelopeOf(id, cp.envelope.value))
  }

  ghost predicate Keyed(t: Contents) {
    && (forall id :: id in t.threads ==> CheckpointOf(id, t.threads[id]))
    && (forall key :: key in t.tasks.rows ==> PayloadOf(key.ticket, t.tasks.rows[key].payload))
  }

  lemma {:induction false} TxnOwn(id: Id, cp: Checkpoint, inputs: seq<Resume>)
    requires CheckpointOf(id, cp)
    ensures var txn := NodeTxn(cp, inputs);
            !txn.NoTxn? ==> txn.key.ticket == id && PayloadOf(id, txn.payload)
  {
  }

  lemma {:induction false} OutcomeOwn(id: Id, cp: Checkpoint, inputs: seq<Resume>, redispatched: bool, now: Time)
    requires CheckpointOf(id, cp)
    ensures var outcome := NodeOutcome(cp, inputs, redispatched, now);
            && (!outcome.Raise? ==> CheckpointOf(id, outcome.cp))
            && (outcome.Park? ==> outcome.cp.envelope.Some?)
  {
    if cp.node.AwaitClassify? || cp.node.AwaitDraft? {
      AwaitOwn(id, cp, inputs, redispatched, now);
    }
  }

  lemma {:induction false} AwaitOwn(id: Id, cp: Checkpoint, inputs: seq<Resume>, redispatched: bool, now: Time)
    requires CheckpointOf(id, cp) && (cp.node.AwaitClassify? || cp.node.AwaitDraft?)
    ensures var outcome := NodeOutcome(cp, inputs, redispatched, now);
            && (!outcome.Raise? ==> CheckpointOf(id, outcome.cp))
            && (outcome.Park? ==> outcome.cp.envelope.Some?)
  {
  }

  lemma {:induction false} TxnKeyed(q: Table, id: Id, now: Time, txn: Txn)
    requires !txn.NoTxn? ==> txn.key.ticket == id && PayloadOf(id, txn.payload)
    requires forall key :: key in q.rows ==> PayloadOf(key.ticket, q.rows[key].payload)
    ensures var r := ApplyTxn(q, now, txn); forall key :: key in r.rows ==> PayloadOf(key.ticket, r.rows[key].payload)
    ensures q.nextId <= ApplyTxn(q, now, txn).nextId
  {
  }

  // ----- one invocation of the graph

  // Node runs n + 1 to m of process 0.
  function NodeRuns(s: Rows, n: nat, m: nat, clock: Clock): Rows
    decreases m - n
  {
    if n >= m then s else NodeRuns(DoCommit(DoRunNode(s, clock(n + 1), 0), 0), n + 1, m, clock)
  }

  // The tables and the one process are where the engine's rows are.
  ghost predicate InStep(t: Contents, id: Id, s: Rows, x: Option<Actor>) {
    SameTables(RowsOf(t, id), s) && s.actors == (if x.Some? then map[0 := x.value] else map[])
  }

  lemma {:induction false} AdvanceClimbs(cp: Checkpoint, inputs: seq<Resume>, redispatched: bool, now: Time)
    ensures var outcome := NodeOutcome(cp, inputs, redispatched, now);
            outcome.Advance? ==> outcome.cp.node.Rank() > cp.node.Rank()
  {
  }

  // What one node run does to the tables.
  function NodeRun(t: Contents, id: Id, resume: Option<Resume>, now: Time): (r: (Contents, Outcome))
    requires id in t.threads
    ensures id in r.0.threads
    ensures r.1.Advance? ==> r.0.threads[id] == r.1.cp && r.1.cp.node.Rank() > t.threads[id].node.Rank()
  {
    var cp := t.threads[id];
    var inputs := InputsOf(cp, resume);
    var txn := NodeTxn(cp, inputs);
    var outcome := NodeOutcome(cp, inputs, Redispatches(t.tasks, txn), now);
    AdvanceClimbs(cp, inputs, Redispatches(t.tasks, txn), now);
    (t.(tasks := ApplyTxn(t.tasks, now, txn),
        threads := if outcome.Raise? then t.threads else t.threads[id := outcome.cp]),
     outcome)
  }

  function ActorAfter(caller: Caller, outcome: Outcome): Option<Actor> {
    match outcome
    case Raise => None
    case Park(cp) => Some(Returned(caller, cp))
    case Advance(cp) => Some(if cp.node.End? then Returned(caller, cp) else Invoking(caller, None))
  }

  lemma {:induction false} NodeMoves(s: Rows, caller: Caller, cp: Checkpoint, resume: Option<Resume>, now: Time)
    requires s.actors == map[0 := Invoking(caller, resume)] && s.cp == Some(cp) && !cp.node.End?
    ensures var inputs := InputsOf(cp, resume);
            var txn := NodeTxn(cp, inputs);
            var t := DoRunNode(s, now, 0);
            && t == s.(tasks := ApplyTxn(s.tasks, now, txn), log := t.log, actors := t.actors)
            && t.actors == map[0 := Ran(caller, cp, inputs, Redispatches(s.tasks, txn), now)]
  {
  }

  lemma {:induction false} TxnInStep(t: Contents, id: Id, s: Rows, caller: Caller, resume: Option<Resume>, now: Time)
    requires id in t.threads && !t.threads[id].node.End? && CheckpointOf(id, t.threads[id])
    requires InStep(t, id, s, Some(Invoking(caller, resume)))
    ensures var cp := t.threads[id];
            var inputs := InputsOf(cp, resume);
            var txn := NodeTxn(cp, inputs);
            InStep(t.(tasks := ApplyTxn(t.tasks, now, txn)), id, DoRunNode(s, now, 0),
                   Some(Ran(caller, cp, inputs, Redispatches(t.tasks, txn), now)))
  {
    var cp := t.threads[id];
    var inputs := InputsOf(cp, resume);
    NodeMoves(s, caller, cp, resume, now);
    TxnOwn(id, cp, inputs);
    TxnLocal(t.tasks, id, now, NodeTxn(cp, inputs));
    assert EffectsOf(t.(tasks := ApplyTxn(t.tasks, now, NodeTxn(cp, inputs))), id) == EffectsOf(t, id);
  }

  lemma {:induction false} CommitMoves(
    s: Rows, caller: Caller, cp: Checkpoint, inputs: seq<Resume>, redispatched: bool, now: Time)
    requires s.actors == map[0 := Ran(caller, cp, inputs, redispatched, now)] && s.cp == Some(cp)
    ensures var outcome := NodeOutcome(cp, inputs, redispatched, now);
            var t := DoCommit(s, 0);
            && t == s.(cp := t.cp, log := t.log, actors := t.actors)
            && t.cp == (if outcome.Raise? then s.cp else Some(outcome.cp))
            && t.actors == (if outcome.Raise? then map[] else map[0 := ActorAfter(caller, outcome).value])
  {
  }

  lemma {:induction false} OutcomeInStep(
    t: Contents, id: Id, s: Rows, caller: Caller, cp: Checkpoint, inputs: seq<Resume>, redispatched: bool, now: Time)
    requires id in t.threads && t.threads[id] == cp
    requires InStep(t, id, s, Some(Ran(caller, cp, inputs, redispatched, now)))
    ensures var outcome := NodeOutcome(cp, inputs, redispatched, now);
            InStep(t.(threads := if outcome.Raise? then t.threads else t.threads[id := outcome.cp]), id,
                   DoCommit(s, 0), ActorAfter(caller, outcome))
  {
    var outcome := NodeOutcome(cp, inputs, redispatched, now);
    CommitMoves(s, caller, cp, inputs, redispatched, now);
    assert EffectsOf(t.(threads := if outcome.Raise? then t.threads else t.threads[id := outcome.cp]), id)
            == EffectsOf(t, id);
  }

  lemma {:induction false} NodeInStep(t: Contents, id: Id, s: Rows, caller: Caller, resume: Option<Resume>, now: Time)
    requires id in t.threads && !t.threads[id].node.End? && CheckpointOf(id, t.threads[id])
    requires InStep(t, id, s, Some(Invoking(caller, resume)))
    ensures var (u, outcome) := NodeRun(t, id, resume, now);
            InStep(u, id, DoCommit(DoRunNode(s, now, 0), 0), ActorAfter(caller, outcome))
  {
    var cp := t.threads[id];
    var inputs := InputsOf(cp, resume);
    var txn := NodeTxn(cp, inputs);
    TxnInStep(t, id, s, caller, resume, now);
    OutcomeInStep(t.(tasks := ApplyTxn(t.tasks, now, txn)), id, DoRunNode(s, now, 0), caller, cp, inputs,
                  Redispatches(t.tasks, txn), now);
  }

  lemma {:induction false} NodeElsewhere(t: Contents, id: Id, resume: Option<Resume>, now: Time)
    requires id in t.threads && Keyed(t)
    ensures var u := NodeRun(t, id, resume, now).0; Elsewhere(t, u, id) && Keyed(u)
  {
    var cp := t.threads[id];
    var inputs := InputsOf(cp, resume);
    var txn := NodeTxn(cp, inputs);
    var u := NodeRun(t, id, resume, now).0;
    TxnOwn(id, cp, inputs);
    OutcomeOwn(id, cp, inputs, Redispatches(t.tasks, txn), now);
    TxnLocal(t.tasks, id, now, txn);
    TxnKeyed(t.tasks, id, now, txn);
    forall j: Id ensures EffectsOf(t, j) == EffectsOf(u, j) {
    }
  }

  // Commit what a node does to the queue.
  method RunTxn(db: Database, txn: Txn, now: Time) returns (redispatched: bool)
    modifies db`tasks
    ensures db.tasks == ApplyTxn(old(db.tasks), now, txn)
    ensures redispatched == Redispatches(old(db.tasks), txn)
  {
    redispatched := false;
    match txn
    case NoTxn =>
    case Dispatch(key, queue, payload) =>
      var _ := db.Enqueue(now, key, queue, payload);
    case Redispatch(key, payload) =>
      redispatched := db.CancelPending(key, "redispatched to fallback");
      if redispatched {
        var _ := db.Enqueue(now, FallbackOf(key), FallbackQueue, payload);
      }
  }

  // Run the thread's node once and write its checkpoint.
  method RunNodeOnce(db: Database, id: Id, resume: Option<Resume>, now: Time) returns (outcome: Outcome)
    requires id in db.threads
    modifies db`tasks, db`threads
    ensures (db.Now(), outcome) == NodeRun(old(db.Now()), id, resume, now)
  {
    var cp := db.threads[id];
    var inputs := InputsOf(cp, resume);
    var redispatched := RunTxn(db, NodeTxn(cp, inputs), now);
    outcome := NodeOutcome(cp, inputs, redispatched, now);
    if !outcome.Raise? {
      db.threads := db.threads[id := outcome.cp];
    }
  }

  datatype Invoked = Invoked(tables: Contents, out: Option<Checkpoint>, nodes: nat)

  // Run the thread until it parks, ends or raises (`None`), n nodes having run already.
  function Invoke(t: Contents, id: Id, resume: Option<Resume>, clock: Clock, n: nat): Invoked
    requires id in t.threads
    decreases t.threads[id].node.Ahead()
  {
    var cp := t.threads[id];
    if cp.node.End? then Invoked(t, Some(cp), n + 1)
    else
      var (u, outcome) := NodeRun(t, id, resume, clock(n + 1));
      match outcome
      case Raise => Invoked(u, None, n + 1)
      case Park(next) => Invoked(u, Some(next), n + 1)
      case Advance(next) => if next.node.End? then Invoked(u, Some(next), n + 1) else Invoke(u, id, None, clock, n + 1)
  }

  method Ainvoke(db: Database, id: Id, resume: Option<Resume>, clock: Clock, n: nat)
    returns (out: Option<Checkpoint>, nodes: nat)
    requires id in db.threads
    modifies db`tasks, db`threads
    ensures Invoked(db.Now(), out, nodes) == Invoke(old(db.Now()), id, resume, clock, n)
    decreases db.threads[id].node.Ahead()
  {
    if db.threads[id].node.End? {
      return Some(db.threads[id]), n + 1;
    }
    var outcome := RunNodeOnce(db, id, resume, clock(n + 1));
    match outcome
    case Raise => out, nodes := None, n + 1;
    case Park(next) => out, nodes := Some(next), n + 1;
    case Advance(next) =>
      if next.node.End? {
        return Some(next), n + 1;
      }
      out, nodes := Ainvoke(db, id, None, clock, n + 1);
  }

  function FinishedAs(caller: Caller, out: Option<Checkpoint>): Option<Actor> {
    if out.Some? then Some(Returned(caller, out.value)) else None
  }

  lemma {:induction false} EndInStep(t: Contents, id: Id, s: Rows, caller: Caller, resume: Option<Resume>, now: Time)
    requires id in t.threads && t.threads[id].node.End?
    requires InStep(t, id, s, Some(Invoking(caller, resume)))
    ensures InStep(t, id, DoCommit(DoRunNode(s, now, 0), 0), Some(Returned(caller, t.threads[id])))
  {
  }

  // The first node run of an invocation.
  lemma {:induction false} TurnOn(t: Contents, id: Id, resume: Option<Resume>, clock: Clock, n: nat)
    returns (u: Contents, outcome: Outcome)
    requires Keyed(t) && id in t.threads && !t.threads[id].node.End?
    ensures (u, outcome) == NodeRun(t, id, resume, clock(n + 1))
    ensures Keyed(u) && Elsewhere(t, u, id) && id in u.threads
    ensures outcome.Advance? ==>
              u.threads[id] == outcome.cp && outcome.cp.node.Ahead() < t.threads[id].node.Ahead()
    ensures Invoke(t, id, resume, clock, n)
            == if outcome.Advance? && !outcome.cp.node.End? then Invoke(u, id, None, clock, n + 1)
               else Invoked(u, if outcome.Raise? then None else Some(outcome.cp), n + 1)
  {
    var r := NodeRun(t, id, resume, clock(n + 1));
    u, outcome := r.0, r.1;
    NodeElsewhere(t, id, resume, clock(n + 1));
  }

  lemma {:induction false} ElsewhereNowhere(t: Contents, id: Id)
    ensures Elsewhere(t, t, id)
  {
  }

  // An invocation touches no other ticket.
  lemma {:induction false} InvokeElsewhere(t: Contents, id: Id, resume: Option<Resume>, clock: Clock, n: nat)
    returns (r: Invoked)
    requires Keyed(t) && id in t.threads
    ensures r == Invoke(t, id, resume, clock, n)
    ensures Keyed(r.tables) && Elsewhere(t, r.tables, id)
    decreases t.threads[id].node.Ahead()
  {
    if t.threads[id].node.End? {
      r := Invoked(t, Some(t.threads[id]), n + 1);
      ElsewhereNowhere(t, id);
    } else {
      var u, outcome := TurnOn(t, id, resume, clock, n);
      if outcome.Advance? && !outcome.cp.node.End? {
        r := InvokeElsewhere(u, id, None, clock, n + 1);
        ElsewhereTransitive(t, u, r.tables, id);
      } else {
        r := Invoked(u, if outcome.Raise? then None else Some(outcome.cp), n + 1);
      }
    }
  }

  // One turn: the tables, the engine's rows and the outcome it leads to.
  lemma {:induction false} OneTurn(
    t: Contents, id: Id, s: Rows, caller: Caller, resume: Option<Resume>, clock: Clock, n: nat)
    returns (u: Contents, v: Rows, outcome: Outcome)
    requires Keyed(t) && id in t.threads && !t.threads[id].node.End?
    requires InStep(t, id, s, Some(Invoking(caller, resume)))
    ensures v == DoCommit(DoRunNode(s, clock(n + 1), 0), 0) && InStep(u, id, v, ActorAfter(caller, outcome)) && Keyed(u)
    ensures id in u.threads && (outcome.Advance? ==> u.threads[id] == outcome.cp)
    ensures outcome.Advance? ==> outcome.cp.node.Ahead() < t.threads[id].node.Ahead()
    ensures Invoke(t, id, resume, clock, n)
            == if outcome.Advance? && !outcome.cp.node.End? then Invoke(u, id, None, clock, n + 1)
               else Invoked(u, if outcome.Raise? then None else Some(outcome.cp), n + 1)
  {
    u, outcome := TurnOn(t, id, resume, clock, n);
    v := DoCommit(DoRunNode(s, clock(n + 1), 0), 0);
    NodeInStep(t, id, s, caller, resume, clock(n + 1));
  }

  /** An invocation is the engine's node runs, one after the other. */
  lemma {:induction false} InvokeInStep(
    t: Contents, id: Id, s: Rows, caller: Caller, resume: Option<Resume>, clock: Clock, n: nat)
    requires Keyed(t) && id in t.threads
    requires InStep(t, id, s, Some(Invoking(caller, resume)))
    ensures var r := Invoke(t, id, resume, clock, n);
            n < r.nodes && InStep(r.tables, id, NodeRuns(s, n, r.nodes, clock), FinishedAs(caller, r.out))
    decreases t.threads[id].node.Ahead()
  {
    if t.threads[id].node.End? {
      EndInStep(t, id, s, caller, resume, clock(n + 1));
      NodeRunsOnce(s, n, clock);
    } else {
      var u, v, outcome := OneTurn(t, id, s, caller, resume, clock, n);
      if outcome.Advance? && !outcome.cp.node.End? {
        InvokeInStep(u, id, v, caller, None, clock, n + 1);
      } else {
        NodeRunsOnce(s, n, clock);
      }
    }
  }

  lemma {:induction false} NodeRunsOnce(s: Rows, n: nat, clock: Clock)
    ensures NodeRuns(s, n, n + 1, clock) == DoCommit(DoRunNode(s, clock(n + 1), 0), 0)
  {
    var v := DoCommit(DoRunNode(s, clock(n + 1), 0), 0);
    assert NodeRuns(v, n + 1, n + 1, clock) == v;
  }

  // An invocation touches the queue and the threads alone.
  lemma {:induction false} InvokeTouches(t: Contents, id: Id, resume: Option<Resume>, clock: Clock, n: nat)
    requires id in t.threads
    ensures var u := Invoke(t, id, resume, clock, n).tables; u == t.(tasks := u.tasks, threads := u.threads)
    decreases t.threads[id].node.Ahead()
  {
    if !t.threads[id].node.End? {
      var (u, outcome) := NodeRun(t, id, resume, clock(n + 1));
      if outcome.Advance? && !outcome.cp.node.End? {
        InvokeTouches(u, id, None, clock, n + 1);
      }
    }
  }
}
