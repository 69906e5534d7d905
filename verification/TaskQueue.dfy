/** The `task_queue` table and the statements that change it. Each SQL `UPDATE` is a row
    function guarded by its `WHERE`, applied to every row. */
module TaskQueue {
  import opened Wrappers
  import opened Models

  datatype TaskStatus = Pending | Leased | Done | Failed

  datatype Task = Task(
    id: nat, queue: Queue, payload: Payload, status: TaskStatus,
    attempts: nat, maxAttempts: nat, availableAt: Time, enqueuedAt: Time,
    leaseOwner: Option<string>, leaseExpiresAt: Option<Time>,
    result: Option<TaskResult>, error: Option<string>, permanent: bool)

  // `nextId` is the table's serial; it may skip numbers but never repeats one.
  datatype Table = Table(rows: map<Key, Task>, nextId: nat)

  const EmptyTable := Table(map[], 0)

  function Pow2(n: nat): nat {
    if n == 0 then 1 else 2 * Pow2(n - 1)
  }

  predicate Settled(row: Task) {
    row.status.Done? || row.status.Failed?
  }

  // ----- row functions

  function NewRow(id: nat, now: Time, queue: Queue, payload: Payload, maxAttempts: nat, availableAt: Time): Task {
    Task(id, queue, payload, Pending, 0, maxAttempts, availableAt, now, None, None, None, None, false)
  }

  predicate Due(row: Task, now: Time, queue: Queue) {
    row.queue == queue && row.status.Pending? && row.availableAt <= now
  }

  function LeaseRow(row: Task, now: Time, owner: string): Task {
    row.(status := Leased, leaseOwner := Some(owner), leaseExpiresAt := Some(now + LEASE), attempts := row.attempts + 1)
  }

  function CancelRow(row: Task, reason: string): Task {
    if row.status.Pending? then row.(status := Failed, error := Some(reason), permanent := true) else row
  }

  function CompleteRow(row: Task, id: nat, result: TaskResult): Task {
    if row.id == id && row.status.Leased? then
      row.(status := Done, result := Some(result), error := None, leaseOwner := None, leaseExpiresAt := None)
    else row
  }

  function FailRow(row: Task, now: Time, id: nat, error: string, permanent: bool): Task {
    if row.id == id && row.status.Leased? then
      var retry := row.attempts < row.maxAttempts && !(row.permanent || permanent);
      row.(status := if retry then Pending else Failed,
           availableAt := if retry then now + Pow2(row.attempts) else row.availableAt,
           error := Some(error), permanent := row.permanent || permanent,
           leaseOwner := None, leaseExpiresAt := None)
    else row
  }

  predicate LeaseExpired(row: Task, now: Time) {
    row.status.Leased? && row.leaseExpiresAt.Some? && row.leaseExpiresAt.value < now
  }

  function ReclaimRow(row: Task, now: Time): Task {
    if LeaseExpired(row, now) then row.(status := Pending, leaseOwner := None, leaseExpiresAt := None) else row
  }

  predicate Prunable(row: Task, now: Time, maxAge: Time) {
    Settled(row) && row.enqueuedAt < now - maxAge
  }

  // ----- statements

  function Enqueue(q: Table, now: Time, key: Key, queue: Queue, payload: Payload): Table {
    EnqueueWith(q, now, key, queue, payload, MAX_ATTEMPTS, now)
  }

  // A conflicting insert still draws a serial number.
  function EnqueueWith(
    q: Table, now: Time, key: Key, queue: Queue, payload: Payload, maxAttempts: nat, availableAt: Time): Table
  {
    if key in q.rows then q.(nextId := q.nextId + 1)
    else Table(q.rows[key := NewRow(q.nextId, now, queue, payload, maxAttempts, availableAt)], q.nextId + 1)
  }

  predicate IsPending(q: Table, key: Key) {
    key in q.rows && q.rows[key].status.Pending?
  }

  function CancelPending(q: Table, key: Key, reason: string): Table {
    if IsPending(q, key) then q.(rows := q.rows[key := CancelRow(q.rows[key], reason)]) else q
  }

  function Lease(q: Table, now: Time, key: Key, owner: string): Table
    requires key in q.rows
  {
    q.(rows := q.rows[key := LeaseRow(q.rows[key], now, owner)])
  }

  // Ids are a primary key.
  predicate UniqueIds(q: Table) {
    forall k, l :: k in q.rows && l in q.rows && q.rows[k].id == q.rows[l].id ==> k == l
  }

  predicate LeasedId(q: Table, id: nat) {
    exists key :: key in q.rows && q.rows[key].id == id && q.rows[key].status.Leased?
  }

  function Complete(q: Table, id: nat, result: TaskResult): Table {
    q.(rows := map key | key in q.rows :: CompleteRow(q.rows[key], id, result))
  }

  function Fail(q: Table, now: Time, id: nat, error: string, permanent: bool): Table {
    q.(rows := map key | key in q.rows :: FailRow(q.rows[key], now, id, error, permanent))
  }

  function ReclaimExpired(q: Table, now: Time): Table {
    q.(rows := map key | key in q.rows :: ReclaimRow(q.rows[key], now))
  }

  function PruneSettled(q: Table, now: Time, maxAge: Time): Table {
    q.(rows := map key | key in q.rows && !Prunable(q.rows[key], now, maxAge) :: q.rows[key])
  }
}
