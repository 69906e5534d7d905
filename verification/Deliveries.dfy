/** How often a task row is delivered and how far apart, over every run of queue statements. */
module Deliveries {
  import opened Wrappers
  import opened Numbers
  import opened Models
  import opened TaskQueue

  datatype QueueOp =
    | Insert(key: Key, queue: Queue, payload: Payload, maxAttempts: nat, availableAt: Time)
    | Dequeue(key: Key, queue: Queue, owner: string)
    | CompleteTask(id: nat, result: TaskResult)
    | FailTask(id: nat, error: string, permanent: bool)
    | Cancel(key: Key, reason: string)
    | Reclaim
    | Prune(maxAge: Time)
    | Skip(n: nat)   // serial numbers drawn elsewhere

  datatype QueueStep = QueueStep(now: Time, op: QueueOp)

  function StepTable(q: Table, now: Time, op: QueueOp): Table {
    match op
    case Insert(key, queue, payload, maxAttempts, availableAt) =>
      EnqueueWith(q, now, key, queue, payload, maxAttempts, availableAt)
    case Dequeue(key, queue, owner) =>
      if key in q.rows && Due(q.rows[key], now, queue) then Lease(q, now, key, owner) else q
    case CompleteTask(id, result) => Complete(q, id, result)
    case FailTask(id, error, permanent) => Fail(q, now, id, error, permanent)
    case Cancel(key, reason) => CancelPending(q, key, reason)
    case Reclaim => ReclaimExpired(q, now)
    case Prune(maxAge) => PruneSettled(q, now, maxAge)
    case Skip(n) => q.(nextId := q.nextId + n)
  }

  // ----- the same run with a history beside each row

  datatype History = History(
    retried: nat,        // failures that put the row back to pending
    reclaimed: nat,      // expired leases that did
    leases: seq<Time>,   // when each lease began
    answered: bool)      // settled by `complete` or `fail`

  datatype Audited = Audited(row: Task, log: History)

  // What is seen of a row changes its history, whatever statement was meant to do it.
  function Observed(log: History, now: Time, op: QueueOp, row: Task, after: Task): History {
    if row.status.Pending? && after.status.Leased? then log.(leases := log.leases + [now])
    else if !row.status.Leased? then log
    else if Settled(after) then log.(answered := true)
    else if !after.status.Pending? then log
    else if op.Reclaim? then log.(reclaimed := log.reclaimed + 1)
    else log.(retried := log.retried + 1)
  }

  // What a statement does to one existing row.
  function RowAfter(row: Task, now: Time, key: Key, op: QueueOp): Task {
    match op
    case Insert(_, _, _, _, _) => row
    case Dequeue(k, queue, owner) => if k == key && Due(row, now, queue) then LeaseRow(row, now, owner) else row
    case CompleteTask(id, result) => CompleteRow(row, id, result)
    case FailTask(id, error, permanent) => FailRow(row, now, id, error, permanent)
    case Cancel(k, reason) => if k == key then CancelRow(row, reason) else row
    case Reclaim => ReclaimRow(row, now)
    case Prune(_) => row
    case Skip(_) => row
  }

  function StepRow(x: Audited, now: Time, key: Key, op: QueueOp): Audited {
    var after := RowAfter(x.row, now, key, op);
    Audited(after, Observed(x.log, now, op, x.row, after))
  }

  datatype AuditedTable = AuditedTable(rows: map<Key, Audited>, nextId: nat)

  function StepAudited(q: AuditedTable, now: Time, op: QueueOp): AuditedTable {
    var kept := map key | key in q.rows && !(op.Prune? && Prunable(q.rows[key].row, now, op.maxAge)) ::
                  StepRow(q.rows[key], now, key, op);
    if op.Insert? then
      AuditedTable(
        if op.key in q.rows then kept
        else kept[op.key := Audited(NewRow(q.nextId, now, op.queue, op.payload, op.maxAttempts, op.availableAt),
                                    History(0, 0, [], false))],
        q.nextId + 1)
    else AuditedTable(kept, q.nextId + (if op.Skip? then op.n else 0))
  }

  function Erase(q: AuditedTable): Table {
    Table(map key | key in q.rows :: q.rows[key].row, q.nextId)
  }

  function TableAfter(steps: seq<QueueStep>): Table {
    if steps == [] then EmptyTable
    else StepTable(TableAfter(steps[..|steps| - 1]), steps[|steps| - 1].now, steps[|steps| - 1].op)
  }

  function AuditedAfter(steps: seq<QueueStep>): AuditedTable {
    if steps == [] then AuditedTable(map[], 0)
    else StepAudited(AuditedAfter(steps[..|steps| - 1]), steps[|steps| - 1].now, steps[|steps| - 1].op)
  }

  lemma {:induction false} InsertErases(q: AuditedTable, now: Time, op: QueueOp)
    requires op.Insert?
    ensures Erase(StepAudited(q, now, op)) == StepTable(Erase(q), now, op)
  {
    var a, b := Erase(StepAudited(q, now, op)), StepTable(Erase(q), now, op);
    assert a.rows.Keys == b.rows.Keys;
    assert forall key :: key in a.rows ==> a.rows[key] == b.rows[key];
  }

  lemma {:induction false} RowErases(q: AuditedTable, now: Time, op: QueueOp, key: Key)
    requires !op.Insert? && key in q.rows
    ensures var b := StepTable(Erase(q), now, op).rows;
            if op.Prune? && Prunable(q.rows[key].row, now, op.maxAge) then key !in b
            else key in b && b[key] == StepRow(q.rows[key], now, key, op).row
  {
  }

  lemma {:induction false} StepErases(q: AuditedTable, now: Time, op: QueueOp)
    ensures Erase(StepAudited(q, now, op)) == StepTable(Erase(q), now, op)
  {
    if op.Insert? {
      InsertErases(q, now, op);
    } else {
      StatementErases(q, now, op);
    }
  }

  lemma {:induction false} StatementErases(q: AuditedTable, now: Time, op: QueueOp)
    requires !op.Insert?
    ensures Erase(StepAudited(q, now, op)) == StepTable(Erase(q), now, op)
  {
    var a, b := Erase(StepAudited(q, now, op)), StepTable(Erase(q), now, op);
    assert a.rows.Keys <= q.rows.Keys && b.rows.Keys <= q.rows.Keys;
    forall key | key in q.rows
      ensures key in a.rows <==> key in b.rows
      ensures key in a.rows ==> a.rows[key] == b.rows[key]
    {
      RowErases(q, now, op, key);
      ErasedRow(q, now, op, key);
    }
    SameRows(a.rows, b.rows);
  }

  lemma {:induction false} ErasedRow(q: AuditedTable, now: Time, op: QueueOp, key: Key)
    requires !op.Insert? && key in q.rows
    ensures var a := Erase(StepAudited(q, now, op)).rows;
            if op.Prune? && Prunable(q.rows[key].row, now, op.maxAge) then key !in a
            else key in a && a[key] == StepRow(q.rows[key], now, key, op).row
  {
  }

  lemma {:induction false} SameRows(a: map<Key, Task>, b: map<Key, Task>)
    requires forall key :: (key in a <==> key in b) && (key in a ==> a[key] == b[key])
    ensures a == b
  {
  }

  /** The audited run is the run itself, with the history beside it. */
  lemma {:induction false} AuditErases(steps: seq<QueueStep>)
    ensures Erase(AuditedAfter(steps)) == TableAfter(steps)
  {
    if steps != [] {
      var n := |steps| - 1;
      AuditErases(steps[..n]);
      StepErases(AuditedAfter(steps[..n]), steps[n].now, steps[n].op);
    }
  }

  // ----- what every audited row satisfies

  // Deliveries add up, and the columns agree with the status.
  predicate Accounted(x: Audited) {
    var row := x.row;
    && row.attempts == x.log.retried + x.log.reclaimed + (if row.status.Leased? || x.log.answered then 1 else 0)
    && row.attempts == |x.log.leases|
    && (x.log.retried > 0 ==> x.log.retried < row.maxAttempts)
    && row.attempts <= Max(1, row.maxAttempts) + x.log.reclaimed
    && (x.log.answered ==> Settled(row)) && (row.status.Done? ==> x.log.answered)
    && (row.leaseOwner.Some? <==> row.status.Leased?) && (row.leaseExpiresAt.Some? <==> row.status.Leased?)
    && (row.result.Some? <==> row.status.Done?)
    && (row.permanent ==> row.status.Failed?)
  }

  lemma {:induction false} StepAccounted(x: Audited, now: Time, key: Key, op: QueueOp)
    requires Accounted(x)
    ensures Accounted(StepRow(x, now, key, op))
  {
  }

  predicate Spaced(leases: seq<Time>) {
    forall k :: 0 <= k < |leases| - 1 ==> leases[k + 1] - leases[k] >= Min(Pow2(k + 1), LEASE)
  }

  // Without reclaims the backoffs add up: the n-th lease starts 2^n - 2 after the first.
  predicate BackedOff(leases: seq<Time>) {
    forall k :: 0 <= k < |leases| ==> leases[k] - leases[0] >= Pow2(k + 1) - 2
  }

  // When a pending row may be leased again.
  predicate Cooling(x: Audited, clock: Time) {
    var n := |x.log.leases|;
    n > 0 ==>
      var last := x.log.leases[n - 1];
      && last <= clock
      && (x.row.status.Leased? ==> x.row.leaseExpiresAt == Some(last + LEASE))
      && (x.row.status.Pending? ==>
            x.row.availableAt >= last + Pow2(n) || (clock >= last + LEASE && x.log.reclaimed > 0))
  }

  predicate Timed(x: Audited, clock: Time) {
    Spaced(x.log.leases) && (x.log.reclaimed == 0 ==> BackedOff(x.log.leases)) && Cooling(x, clock)
  }

  lemma {:induction false} LeaseTimed(x: Audited, clock: Time, now: Time, owner: string)
    requires Accounted(x) && Timed(x, clock) && clock <= now && x.row.status.Pending? && x.row.availableAt <= now
    ensures Timed(Audited(LeaseRow(x.row, now, owner), x.log.(leases := x.log.leases + [now])), now)
  {
    var n := |x.log.leases|;
    assert Pow2(1) == 2 * Pow2(0) && Pow2(n + 1) == 2 * Pow2(n);
    if n > 0 {
      assert now - x.log.leases[n - 1] >= Min(Pow2(n), LEASE);
      assert x.log.leases[n - 1] - x.log.leases[0] >= Pow2(n) - 2 || x.log.reclaimed > 0;
    }
  }

  lemma {:induction false} StepTimed(x: Audited, clock: Time, now: Time, key: Key, op: QueueOp)
    requires Accounted(x) && Timed(x, clock) && clock <= now
    ensures Timed(StepRow(x, now, key, op), now)
  {
    if op.Dequeue? && op.key == key && Due(x.row, now, op.queue) {
      LeaseTimed(x, clock, now, op.owner);
    } else {
      assert StepRow(x, now, key, op).log.leases == x.log.leases;
      assert x.row.status.Leased? ==> |x.log.leases| == x.row.attempts > 0;
    }
  }

  ghost predicate AllRows(q: AuditedTable, clock: Time) {
    forall key :: key in q.rows ==> Accounted(q.rows[key]) && Timed(q.rows[key], clock)
  }

  predicate Monotone(steps: seq<QueueStep>) {
    forall i, j :: 0 <= i < j < |steps| ==> steps[i].now <= steps[j].now
  }

  lemma {:induction false} StepAllRows(q: AuditedTable, clock: Time, now: Time, op: QueueOp)
    requires AllRows(q, clock) && clock <= now
    ensures AllRows(StepAudited(q, now, op), now)
  {
    var t := StepAudited(q, now, op);
    forall key | key in t.rows ensures Accounted(t.rows[key]) && Timed(t.rows[key], now) {
      if key in q.rows {
        StepAccounted(q.rows[key], now, key, op);
        StepTimed(q.rows[key], clock, now, key, op);
      }
    }
  }

  lemma {:induction false} EveryRow(steps: seq<QueueStep>)
    requires Monotone(steps)
    ensures AllRows(AuditedAfter(steps), if steps == [] then 0 else steps[|steps| - 1].now)
  {
    if steps != [] {
      var n := |steps| - 1;
      EveryRow(steps[..n]);
      StepAllRows(AuditedAfter(steps[..n]), if n
          == 0 then steps[0].now else steps[n - 1].now, steps[n].now, steps[n].op);
    }
  }

  /** Over any run, a row's attempts are its retried failures, its reclaims and the delivery it is
      in or was settled by; hence they exceed `max_attempts` by at most the reclaims. A lease is
      recorded exactly while leased, a result exactly when done, and only failed rows are
      permanent. */
  lemma {:induction false} DeliveryAccounting(steps: seq<QueueStep>, key: Key)
    requires Monotone(steps) && key in TableAfter(steps).rows
    ensures key in AuditedAfter(steps).rows
    ensures var row := TableAfter(steps).rows[key];
            var log := AuditedAfter(steps).rows[key].log;
            && row.attempts == log.retried + log.reclaimed + (if row.status.Leased? || log.answered then 1 else 0)
            && row.attempts <= Max(1, row.maxAttempts) + log.reclaimed
            && (row.leaseOwner.Some? <==> row.status.Leased?) && (row.leaseExpiresAt.Some? <==> row.status.Leased?)
            && (row.result.Some? <==> row.status.Done?) && (row.permanent ==> row.status.Failed?)
  {
    AuditErases(steps);
    EveryRow(steps);
  }

  /** A failure of the leased row sends it back exactly when an attempt is left and neither the row
      nor the error is permanent, to be available 2^attempts seconds on; otherwise it settles it. */
  lemma {:induction false} FailureExactly(x: Audited, now: Time, key: Key, id: nat, error: string, permanent: bool)
    requires x.row.id == id && x.row.status.Leased?
    ensures var y := StepRow(x, now, key, FailTask(id, error, permanent));
            var again := x.row.attempts < x.row.maxAttempts && !x.row.permanent && !permanent;
            && y.row == x.row.(status := if again then Pending else Failed,
                               availableAt := if again then now + Pow2(x.row.attempts) else x.row.availableAt,
                               error := Some(error), permanent := x.row.permanent || permanent,
                               leaseOwner := None, leaseExpiresAt := None)
            && y.log == if again then x.log.(retried := x.log.retried + 1) else x.log.(answered := true)
  {
  }

  /** Successive leases of a row start at least `min(2^k, 30)` seconds apart, and with no reclaim
      the n-th starts at least `2^n - 2` seconds after the first. */
  lemma {:induction false} RedeliverySpacing(steps: seq<QueueStep>, key: Key)
    requires Monotone(steps) && key in AuditedAfter(steps).rows
    ensures var log := AuditedAfter(steps).rows[key].log;
            && (forall k :: 0 <= k < |log.leases| - 1 ==> log.leases[k + 1] - log.leases[k] >= Min(Pow2(k + 1), LEASE))
            && (log.reclaimed == 0 ==> forall n :: 1 <= n <= |log.leases| ==>
                log.leases[n - 1] - log.leases[0] >= Pow2(n) - 2)
  {
    EveryRow(steps);
    var log := AuditedAfter(steps).rows[key].log;
    if log.reclaimed == 0 {
      forall n | 1 <= n <= |log.leases| ensures log.leases[n - 1] - log.leases[0] >= Pow2(n) - 2 {
        var k := n - 1;
        assert log.leases[k] - log.leases[0] >= Pow2(k + 1) - 2;
      }
    }
  }

  /** A settled row is left as it is by every statement but pruning, which removes it whole. */
  lemma {:induction false} SettledIsFrozen(q: Table, now: Time, op: QueueOp, key: Key)
    requires key in q.rows && Settled(q.rows[key])
    ensures var t := StepTable(q, now, op);
            if op.Prune? && Prunable(q.rows[key], now, op.maxAge) then key !in t.rows
            else key in t.rows && t.rows[key] == q.rows[key]
  {
  }

  // ----- the limit on attempts

  // Insert a task, then n times lease it as soon as it is available and fail it with a transient error.
  function Struggling(key: Key, queue: Queue, payload: Payload, maxAttempts: nat, n: nat): (r: seq<QueueStep>)
    ensures |r| == 2 * n + 1
  {
    if n == 0 then [QueueStep(0, Insert(key, queue, payload, maxAttempts, 0))]
    else
      Struggling(key, queue, payload, maxAttempts, n - 1)
      + [QueueStep(Pow2(n) - 2, Dequeue(key, queue, "")), QueueStep(Pow2(n) - 2, FailTask(0, "", false))]
  }

  /** A task that only meets transient errors is delivered max_attempts times, each delivery backed
      off from the one before, and then failed. */
  lemma {:induction false} TransientErrorsUseTheLimit(
    key: Key, queue: Queue, payload: Payload, maxAttempts: nat, n: nat)
    requires n <= maxAttempts && maxAttempts >= 1
    ensures var q := TableAfter(Struggling(key, queue, payload, maxAttempts, n));
            && q.rows.Keys == {key} && q.rows[key].id == 0 && q.rows[key].attempts == n
            && q.rows[key].maxAttempts == maxAttempts && q.rows[key].queue == queue && !q.rows[key].permanent
            && (if n < maxAttempts then q.rows[key].status.Pending? && q.rows[key].availableAt == Pow2(n + 1) - 2
                else q.rows[key].status.Failed?)
  {
    var steps := Struggling(key, queue, payload, maxAttempts, n);
    if n == 0 {
      assert steps[..0] == [] && Pow2(1) == 2 * Pow2(0);
    } else {
      TransientErrorsUseTheLimit(key, queue, payload, maxAttempts, n - 1);
      var before := Struggling(key, queue, payload, maxAttempts, n - 1);
      assert steps[..2 * n] == before + [steps[2 * n - 1]];
      assert steps[..2 * n][..2 * n - 1] == before;
      var q, now := TableAfter(before), Pow2(n) - 2;
      assert TableAfter(steps) == StepTable(StepTable(q, now, Dequeue(key, queue, "")), now, FailTask(0, "", false));
      TransientError(q, now, key, queue);
      assert Pow2(n + 1) == now + Pow2(n) + 2;
    }
  }

  lemma {:induction false} TransientError(q: Table, now: Time, key: Key, queue: Queue)
    requires q.rows.Keys == {key} && Due(q.rows[key], now, queue) && !q.rows[key].permanent
    requires q.rows[key].attempts < q.rows[key].maxAttempts
    ensures var row := q.rows[key];
            var t := StepTable(StepTable(q, now, Dequeue(key, queue, "")), now, FailTask(row.id, "", false));
            && t.rows.Keys == {key} && t.nextId == q.nextId
            && (var again := row.attempts + 1 < row.maxAttempts;
                t.rows[key] == row.(status := if again then Pending else Failed, attempts := row.attempts + 1,
                                    availableAt := if again then now + Pow2(row.attempts + 1) else row.availableAt,
                                    error := Some(""), leaseOwner := None, leaseExpiresAt := None))
  {
    var leased := StepTable(q, now, Dequeue(key, queue, ""));
    assert leased.rows.Keys == {key};
  }

  // Insert a task, then lease it n times, each lease left to run out.
  function Flapping(key: Key, queue: Queue, payload: Payload, n: nat): (r: seq<QueueStep>)
    ensures |r| == 2 * n + 1
  {
    if n == 0 then [QueueStep(0, Insert(key, queue, payload, MAX_ATTEMPTS, 0))]
    else
      Flapping(key, queue, payload, n - 1)
      + [QueueStep(n * (LEASE + 1), Dequeue(key, queue, "")), QueueStep((n + 1) * (LEASE + 1), Reclaim)]
  }

  lemma {:induction false} LeaseRunsOut(q: Table, now: Time, key: Key, queue: Queue)
    requires key in q.rows && Due(q.rows[key], now - LEASE - 1, queue)
    ensures var t := StepTable(StepTable(q, now, Dequeue(key, queue, "")), now + LEASE + 1, Reclaim);
            key in t.rows && t.rows[key].attempts == q.rows[key].attempts + 1 && Due(t.rows[key], now, queue)
  {
  }

  /** Reclaiming ignores `max_attempts`: a lease that keeps running out is handed out again any
      number of times. */
  lemma {:induction false} AttemptsUnbounded(key: Key, queue: Queue, payload: Payload, n: nat)
    ensures var q := TableAfter(Flapping(key, queue, payload, n));
            key in q.rows && q.rows[key].attempts == n && Due(q.rows[key], n * (LEASE + 1), queue)
  {
    var steps := Flapping(key, queue, payload, n);
    if n == 0 {
      assert steps[..0] == [];
    } else {
      AttemptsUnbounded(key, queue, payload, n - 1);
      var before := Flapping(key, queue, payload, n - 1);
      assert steps[..2 * n] == before + [steps[2 * n - 1]];
      assert steps[..2 * n][..2 * n - 1] == before;
      LeaseRunsOut(TableAfter(before), n * (LEASE + 1), key, queue);
    }
  }
}
