/** When a task's attempts pass its limit: exactly when a lease that runs out at the limit is
    reclaimed and the task is then leased again. */
module AttemptLimits {
  import opened Models
  import opened TaskQueue
  import opened Graph
  import opened Engine
  import opened Safety
  import opened SafetySteps
  import opened Deliveries
  import opened EngineDeliveries

  // The first delivery is always made.
  function Limit(row: Task): nat { if row.maxAttempts < 1 then 1 else row.maxAttempts }

  predicate OverLimit(q: Table, key: Key) {
    key in q.rows && q.rows[key].attempts > Limit(q.rows[key])
  }

  predicate SameRow(q: Table, t: Table, key: Key) {
    key in q.rows && key in t.rows && q.rows[key].id == t.rows[key].id
  }

  // Between two tables the row is leased.
  predicate Leases(q: Table, t: Table, key: Key) {
    SameRow(q, t, key) && q.rows[key].status.Pending? && t.rows[key].status.Leased?
  }

  // Between two tables the row loses its lease for another delivery although it has had them all.
  predicate ReturnsAtLimit(q: Table, t: Table, key: Key) {
    SameRow(q, t, key) && q.rows[key].status.Leased? && t.rows[key].status.Pending?
    && q.rows[key].attempts >= Limit(q.rows[key])
  }

  // What any one step may do to the row.
  predicate Moves(q: Table, t: Table, key: Key) {
    && q.nextId <= t.nextId
    && (key in q.rows ==> q.rows[key].id < q.nextId)
    && (key in t.rows ==> if SameRow(q, t, key) then RowMoves(q, t, key)
                          else t.rows[key].id >= q.nextId && t.rows[key].attempts == 0)
  }

  predicate RowMoves(q: Table, t: Table, key: Key)
    requires SameRow(q, t, key)
  {
    var a, b := q.rows[key], t.rows[key];
    && b.maxAttempts == a.maxAttempts
    && b.attempts == a.attempts + (if Leases(q, t, key) then 1 else 0)
    && (b.status.Pending? && !a.status.Pending? ==> a.status.Leased?)
  }

  // ----- any sequence of tables linked by such steps

  ghost predicate Chain(qs: seq<Table>, key: Key) {
    && qs != [] && key !in qs[0].rows
    && forall k :: 0 <= k < |qs| - 1 ==> Moves(qs[k], qs[k + 1], key)
  }

  predicate LeasedPastLimit(qs: seq<Table>, key: Key, i: nat, j: nat) {
    && i < j < |qs| - 1
    && ReturnsAtLimit(qs[i], qs[i + 1], key) && Leases(qs[j], qs[j + 1], key) && SameRow(qs[i], qs[j], key)
  }

  // A row that waits with all its attempts used was put back.
  lemma {:induction false} WaitingWasReturned(qs: seq<Table>, key: Key, n: nat) returns (i: nat)
    requires Chain(qs, key) && n < |qs| && key in qs[n].rows
    requires qs[n].rows[key].status.Pending? && qs[n].rows[key].attempts >= Limit(qs[n].rows[key])
    ensures i < n && ReturnsAtLimit(qs[i], qs[i + 1], key) && SameRow(qs[i], qs[n], key)
  {
    i := n - 1;
    assert Moves(qs[i], qs[i + 1], key);
    if !ReturnsAtLimit(qs[i], qs[i + 1], key) {
      i := WaitingWasReturned(qs, key, n - 1);
    }
  }

  lemma {:induction false} OverWasLeased(qs: seq<Table>, key: Key, n: nat) returns (i: nat, j: nat)
    requires Chain(qs, key) && n < |qs| && OverLimit(qs[n], key)
    ensures LeasedPastLimit(qs, key, i, j)
  {
    j := n - 1;
    assert Moves(qs[j], qs[j + 1], key);
    if OverLimit(qs[j], key) {
      i, j := OverWasLeased(qs, key, n - 1);
    } else {
      i := WaitingWasReturned(qs, key, j);
    }
  }

  lemma {:induction false} SerialsClimb(qs: seq<Table>, key: Key, i: nat, j: nat)
    requires Chain(qs, key) && i <= j < |qs|
    ensures qs[i].nextId <= qs[j].nextId
  {
    if i < j {
      SerialsClimb(qs, key, i, j - 1);
      assert Moves(qs[j - 1], qs[j - 1 + 1], key);
    }
  }

  // A row that is still there has been there all along, and its attempts have not shrunk.
  lemma {:induction false} AttemptsClimb(qs: seq<Table>, key: Key, i: nat, j: nat)
    requires Chain(qs, key) && i <= j < |qs| && i < |qs| - 1 && SameRow(qs[i], qs[j], key)
    ensures qs[i].rows[key].attempts <= qs[j].rows[key].attempts
    ensures qs[i].rows[key].maxAttempts == qs[j].rows[key].maxAttempts
  {
    if i < j {
      assert Moves(qs[i], qs[i + 1], key);
      SerialsClimb(qs, key, i, j - 1);
      assert Moves(qs[j - 1], qs[j - 1 + 1], key);
      AttemptsClimb(qs, key, i, j - 1);
    }
  }

  lemma {:induction false} LeasedIsOver(qs: seq<Table>, key: Key, i: nat, j: nat)
    requires Chain(qs, key) && LeasedPastLimit(qs, key, i, j)
    ensures OverLimit(qs[j + 1], key)
  {
    AttemptsClimb(qs, key, i, j);
    assert Moves(qs[j], qs[j + 1], key);
  }

  lemma {:induction false} ChainExactly(qs: seq<Table>, key: Key)
    requires Chain(qs, key)
    ensures (exists n :: 0 <= n < |qs| && OverLimit(qs[n], key)) <==>
            (exists i: nat, j: nat :: LeasedPastLimit(qs, key, i, j))
  {
    if n :| 0 <= n < |qs| && OverLimit(qs[n], key) {
      var i, j := OverWasLeased(qs, key, n);
    }
    if i: nat, j: nat :| LeasedPastLimit(qs, key, i, j) {
      LeasedIsOver(qs, key, i, j);
    }
  }

  // ----- queue statements

  ghost predicate IdsBelow(q: Table) {
    forall key :: key in q.rows ==> q.rows[key].id < q.nextId
  }

  lemma {:induction false} InsertMoves(
    q: Table, now: Time, k: Key, queue: Queue, payload: Payload, maxAttempts: nat, availableAt: Time, key: Key)
    requires IdsBelow(q)
    ensures var t := EnqueueWith(q, now, k, queue, payload, maxAttempts, availableAt);
            IdsBelow(t) && Moves(q, t, key) && (key in q.rows ==> key in t.rows && t.rows[key] == q.rows[key])
  {
  }

  lemma {:induction false} StatementMoves(q: Table, now: Time, op: QueueOp, key: Key)
    requires IdsBelow(q) && !op.Insert?
    ensures Moves(q, StepTable(q, now, op), key)
  {
  }

  lemma {:induction false} StatementKeepsIds(q: Table, now: Time, op: QueueOp)
    requires IdsBelow(q) && !op.Insert?
    ensures IdsBelow(StepTable(q, now, op))
  {
  }

  lemma {:induction false} StepMoves(q: Table, now: Time, op: QueueOp, key: Key)
    requires IdsBelow(q)
    ensures IdsBelow(StepTable(q, now, op)) && Moves(q, StepTable(q, now, op), key)
  {
    if op.Insert? {
      InsertMoves(q, now, op.key, op.queue, op.payload, op.maxAttempts, op.availableAt, key);
    } else {
      StatementMoves(q, now, op, key);
      StatementKeepsIds(q, now, op);
    }
  }

  /** The two moves, in terms of the statements and their guards: only the reclaim returns a row at
      its limit, because only it does not look at the limit; only the dequeue leases. */
  lemma {:induction false} StatementsOf(q: Table, now: Time, op: QueueOp, key: Key)
    ensures ReturnsAtLimit(q, StepTable(q, now, op), key) <==>
              op.Reclaim? && key in q.rows && LeaseExpired(q.rows[key], now)
              && q.rows[key].attempts >= Limit(q.rows[key])
    ensures Leases(q, StepTable(q, now, op), key) <==>
              op.Dequeue? && op.key == key && key in q.rows && Due(q.rows[key], now, op.queue)
  {
  }

  function Tables(steps: seq<QueueStep>): (qs: seq<Table>)
    ensures |qs| == |steps| + 1 && forall k :: 0 <= k < |qs| ==> qs[k] == TableAfter(steps[..k])
  {
    seq(|steps| + 1, k requires 0 <= k <= |steps| => TableAfter(steps[..k]))
  }

  lemma {:induction false} NextTable(steps: seq<QueueStep>, k: nat)
    requires k < |steps|
    ensures TableAfter(steps[..k + 1]) == StepTable(TableAfter(steps[..k]), steps[k].now, steps[k].op)
  {
    assert steps[..k + 1][..k] == steps[..k];
  }

  lemma {:induction false} IdsStayBelow(steps: seq<QueueStep>, k: nat)
    requires k <= |steps|
    ensures IdsBelow(TableAfter(steps[..k]))
  {
    if k > 0 {
      IdsStayBelow(steps, k - 1);
      NextTable(steps, k - 1);
      StepMoves(TableAfter(steps[..k - 1]), steps[k - 1].now, steps[k - 1].op, Key("", Classify, false));
    }
  }

  lemma {:induction false} TablesChain(steps: seq<QueueStep>, key: Key)
    ensures Chain(Tables(steps), key)
  {
    var qs := Tables(steps);
    assert steps[..0] == [];
    forall k | 0 <= k < |qs| - 1 ensures Moves(qs[k], qs[k + 1], key) {
      IdsStayBelow(steps, k);
      NextTable(steps, k);
      StepMoves(qs[k], steps[k].now, steps[k].op, key);
    }
  }

  // The i-th statement reclaims the row's lease when it has run out at the limit.
  predicate ReclaimedAtLimit(steps: seq<QueueStep>, i: nat, key: Key) {
    && i < |steps| && steps[i].op.Reclaim?
    && (var q := TableAfter(steps[..i]);
        key in q.rows && LeaseExpired(q.rows[key], steps[i].now) && q.rows[key].attempts >= Limit(q.rows[key]))
  }

  // The j-th statement leases the row.
  predicate LeasedAt(steps: seq<QueueStep>, j: nat, key: Key) {
    && j < |steps| && steps[j].op.Dequeue? && steps[j].op.key == key
    && (var q := TableAfter(steps[..j]); key in q.rows && Due(q.rows[key], steps[j].now, steps[j].op.queue))
  }

  /** A task's attempts pass its limit somewhere in a run exactly when a lease of it that ran out at
      the limit is reclaimed and the same row is leased again. */
  lemma {:induction false} LimitExactly(steps: seq<QueueStep>, key: Key)
    ensures (exists n: nat :: n <= |steps| && OverLimit(TableAfter(steps[..n]), key)) <==>
            (exists i: nat, j: nat ::
               i < j && ReclaimedAtLimit(steps, i, key) && LeasedAt(steps, j, key)
               && SameRow(TableAfter(steps[..i]), TableAfter(steps[..j]), key))
  {
    var qs := Tables(steps);
    TablesChain(steps, key);
    ChainExactly(qs, key);
    forall i: nat, j: nat
      ensures LeasedPastLimit(qs, key, i, j) <==>
              && i < j && ReclaimedAtLimit(steps, i, key) && LeasedAt(steps, j, key)
              && SameRow(TableAfter(steps[..i]), TableAfter(steps[..j]), key)
    {
      PairIsStatements(steps, key, i, j);
    }
    if n: nat :| n <= |steps| && OverLimit(TableAfter(steps[..n]), key) {
      assert OverLimit(qs[n], key);
    }
    if n :| 0 <= n < |qs| && OverLimit(qs[n], key) {
      assert OverLimit(TableAfter(steps[..n]), key);
    }
  }

  lemma {:induction false} PairIsStatements(steps: seq<QueueStep>, key: Key, i: nat, j: nat)
    ensures LeasedPastLimit(Tables(steps), key, i, j) <==>
              i < j && ReclaimedAtLimit(steps, i, key) && LeasedAt(steps, j, key)
              && SameRow(TableAfter(steps[..i]), TableAfter(steps[..j]), key)
  {
    if i < j < |steps| {
      NextTable(steps, i);
      NextTable(steps, j);
      StatementsOf(TableAfter(steps[..i]), steps[i].now, steps[i].op, key);
      StatementsOf(TableAfter(steps[..j]), steps[j].now, steps[j].op, key);
    }
  }

  // ----- the engine

  lemma {:induction false} RedispatchMoves(q: Table, now: Time, k: Key, payload: Payload, key: Key)
    requires IdsBelow(q)
    ensures var t := ApplyTxn(q, now, Redispatch(k, payload));
            Moves(q, t, key) && !ReturnsAtLimit(q, t, key) && !Leases(q, t, key)
  {
    if IsPending(q, k) {
      var m := CancelPending(q, k, "redispatched to fallback");
      StatementMoves(q, now, Cancel(k, "redispatched to fallback"), key);
      StatementKeepsIds(q, now, Cancel(k, "redispatched to fallback"));
      InsertMoves(m, now, FallbackOf(k), FallbackQueue, payload, MAX_ATTEMPTS, now, key);
    }
  }

  lemma {:induction false} NodeMoves(q: Table, now: Time, txn: Txn, key: Key)
    requires IdsBelow(q)
    ensures var t := ApplyTxn(q, now, txn);
            Moves(q, t, key) && !ReturnsAtLimit(q, t, key) && !Leases(q, t, key)
  {
    match txn
    case NoTxn =>
    case Dispatch(k, queue, payload) => InsertMoves(q, now, k, queue, payload, MAX_ATTEMPTS, now, key);
    case Redispatch(k, payload) => RedispatchMoves(q, now, k, payload, key);
  }

  lemma {:induction false} NodeTables(s: Rows, now: Time, a: nat)
    ensures DoRunNode(s, now, a).tasks == s.tasks
            || exists txn :: DoRunNode(s, now, a).tasks == ApplyTxn(s.tasks, now, txn)
  {
    if At(s, a) && s.actors[a].Invoking? && s.cp.Some? && !s.cp.value.node.End? {
      var txn := NodeTxn(s.cp.value, InputsOf(s.cp.value, s.actors[a].resume));
      assert DoRunNode(s, now, a).tasks == ApplyTxn(s.tasks, now, txn);
    }
  }

  // The engine reclaims the row's lease when it has run out at the limit.
  predicate EngineReclaims(s: Rows, now: Time, e: Event, key: Key) {
    e.ReclaimTasks? && key in s.tasks.rows && LeaseExpired(s.tasks.rows[key], now)
    && s.tasks.rows[key].attempts >= Limit(s.tasks.rows[key])
  }

  // A worker of the engine leases the row.
  predicate EngineLeases(s: Rows, now: Time, e: Event, key: Key) {
    e.Dequeue? && e.a !in s.actors && e.key == key && key in s.tasks.rows && Due(s.tasks.rows[key], now, e.queue)
  }

  lemma {:induction false} EngineMoves(s: Rows, now: Time, e: Event, key: Key)
    requires IdsBelow(s.tasks)
    ensures var t := Apply(s, now, e).tasks;
            && Moves(s.tasks, t, key)
            && (ReturnsAtLimit(s.tasks, t, key) <==> EngineReclaims(s, now, e, key))
            && (Leases(s.tasks, t, key) <==> EngineLeases(s, now, e, key))
  {
    if e.RunNode? {
      NodeTables(s, now, e.a);
      if DoRunNode(s, now, e.a).tasks != s.tasks {
        var txn :| DoRunNode(s, now, e.a).tasks == ApplyTxn(s.tasks, now, txn);
        NodeMoves(s.tasks, now, txn, key);
      }
    } else {
      OtherMoves(s, now, e, key);
    }
  }

  lemma {:induction false} OneOpMoves(q: Table, now: Time, ops: seq<QueueOp>, key: Key)
    requires IdsBelow(q) && |ops| <= 1
    ensures var t := RunOps(q, now, ops);
            && Moves(q, t, key)
            && (ReturnsAtLimit(q, t, key) <==>
                  ops != [] && ops[0].Reclaim? && key in q.rows && LeaseExpired(q.rows[key], now)
                  && q.rows[key].attempts >= Limit(q.rows[key]))
            && (Leases(q, t, key) <==>
                  ops != [] && ops[0].Dequeue? && ops[0].key == key && key in q.rows
                  && Due(q.rows[key], now, ops[0].queue))
  {
    if |ops| == 1 {
      OneOp(q, now, ops[0]);
      StepMoves(q, now, ops[0], key);
      StatementsOf(q, now, ops[0], key);
    }
  }

  lemma {:induction false} OtherMoves(s: Rows, now: Time, e: Event, key: Key)
    requires IdsBelow(s.tasks) && !e.RunNode?
    ensures var t := Apply(s, now, e).tasks;
            && Moves(s.tasks, t, key)
            && (ReturnsAtLimit(s.tasks, t, key) <==> EngineReclaims(s, now, e, key))
            && (Leases(s.tasks, t, key) <==> EngineLeases(s, now, e, key))
  {
    StepIsOps(s, now, e);
    OneOpMoves(s.tasks, now, OpsOf(s, now, e), key);
    OpsSay(s, now, e);
  }

  lemma {:induction false} OpsSay(s: Rows, now: Time, e: Event)
    requires !e.RunNode?
    ensures OpsOf(s, now, e) != [] && OpsOf(s, now, e)[0].Reclaim? <==> e.ReclaimTasks?
    ensures OpsOf(s, now, e) != [] && OpsOf(s, now, e)[0].Dequeue? <==> e.Dequeue? && e.a !in s.actors
    ensures e.Dequeue? && e.a !in s.actors ==> OpsOf(s, now, e)[0] == QueueOp.Dequeue(e.key, e.queue, e.owner)
  {
  }

  function EngineTables(id: Id, steps: seq<Step>): (qs: seq<Table>)
    ensures |qs| == |steps| + 1 && forall k :: 0 <= k < |qs| ==> qs[k] == After(Fresh(id), steps[..k]).tasks
  {
    seq(|steps| + 1, k requires 0 <= k <= |steps| => After(Fresh(id), steps[..k]).tasks)
  }

  lemma {:induction false} EngineIds(id: Id, steps: seq<Step>)
    ensures IdsBelow(After(Fresh(id), steps).tasks)
  {
    AlwaysInv(id, steps);
    var s := After(Fresh(id), steps);
    forall key | key in s.tasks.rows ensures s.tasks.rows[key].id < s.tasks.nextId {
      assert RowOk(s.id, s.tasks.nextId, s.log.final, s.fx.result, key, s.tasks.rows[key]);
    }
  }

  lemma {:induction false} NextRows(id: Id, steps: seq<Step>, k: nat)
    requires k < |steps|
    ensures After(Fresh(id), steps[..k + 1]) == Apply(After(Fresh(id), steps[..k]), steps[k].now, steps[k].event)
  {
    assert steps[..k + 1][..k] == steps[..k];
  }

  lemma {:induction false} EngineChain(id: Id, steps: seq<Step>, key: Key)
    ensures Chain(EngineTables(id, steps), key)
  {
    var qs := EngineTables(id, steps);
    assert steps[..0] == [];
    forall k | 0 <= k < |qs| - 1 ensures Moves(qs[k], qs[k + 1], key) {
      EngineIds(id, steps[..k]);
      NextRows(id, steps, k);
      EngineMoves(After(Fresh(id), steps[..k]), steps[k].now, steps[k].event, key);
    }
  }

  // The i-th step reclaims the row's lease at the limit; the j-th leases it.
  predicate ReclaimsAt(id: Id, steps: seq<Step>, i: nat, key: Key) {
    i < |steps| && EngineReclaims(After(Fresh(id), steps[..i]), steps[i].now, steps[i].event, key)
  }

  predicate LeasesAt(id: Id, steps: seq<Step>, j: nat, key: Key) {
    j < |steps| && EngineLeases(After(Fresh(id), steps[..j]), steps[j].now, steps[j].event, key)
  }

  predicate DeliversPastLimit(id: Id, steps: seq<Step>, key: Key, i: nat, j: nat) {
    i < j && ReclaimsAt(id, steps, i, key) && LeasesAt(id, steps, j, key)
    && SameRow(After(Fresh(id), steps[..i]).tasks, After(Fresh(id), steps[..j]).tasks, key)
  }

  lemma {:induction false} PairIsSteps(id: Id, steps: seq<Step>, key: Key, i: nat, j: nat)
    ensures LeasedPastLimit(EngineTables(id, steps), key, i, j) <==> DeliversPastLimit(id, steps, key, i, j)
  {
    if i < j < |steps| {
      PairMoves(id, steps, key, i);
      PairMoves(id, steps, key, j);
    }
  }

  lemma {:induction false} PairMoves(id: Id, steps: seq<Step>, key: Key, k: nat)
    requires k < |steps|
    ensures var qs := EngineTables(id, steps);
            && (ReturnsAtLimit(qs[k], qs[k + 1], key) <==> ReclaimsAt(id, steps, k, key))
            && (Leases(qs[k], qs[k + 1], key) <==> LeasesAt(id, steps, k, key))
  {
    EngineIds(id, steps[..k]);
    NextRows(id, steps, k);
    EngineMoves(After(Fresh(id), steps[..k]), steps[k].now, steps[k].event, key);
  }

  /** In every run of the engine a task is delivered more than three times exactly when the janitor
      reclaims a lease that ran out on the third or a later delivery and a worker leases the row
      again: the guard `attempts < max_attempts` that `fail` has and `reclaim_expired` has not. */
  lemma {:induction false} EngineLimitExactly(id: Id, steps: seq<Step>, key: Key)
    ensures (exists n: nat :: n <= |steps| && OverLimit(After(Fresh(id), steps[..n]).tasks, key)) <==>
            (exists i: nat, j: nat :: DeliversPastLimit(id, steps, key, i, j))
  {
    var qs := EngineTables(id, steps);
    EngineChain(id, steps, key);
    ChainExactly(qs, key);
    forall i: nat, j: nat ensures LeasedPastLimit(qs, key, i, j) <==> DeliversPastLimit(id, steps, key, i, j) {
      PairIsSteps(id, steps, key, i, j);
    }
    if n: nat :| n <= |steps| && OverLimit(After(Fresh(id), steps[..n]).tasks, key) {
      assert OverLimit(qs[n], key);
    }
    if n :| 0 <= n < |qs| && OverLimit(qs[n], key) {
      assert OverLimit(After(Fresh(id), steps[..n]).tasks, key);
    }
  }

  /** Every task of the engine has the limit three. */
  lemma {:induction false} EngineLimitIsThree(id: Id, steps: seq<Step>, key: Key)
    requires key in After(Fresh(id), steps).tasks.rows
    ensures Limit(After(Fresh(id), steps).tasks.rows[key]) == MAX_ATTEMPTS
  {
    RunIsQueueRun(id, steps);
    RunInsertsDefault(id, steps);
    EveryTaskGetsThree(QueueRun(id, steps));
  }
}
