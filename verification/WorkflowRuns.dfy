/** Rows of `workflow_run`, `workflow_run_archive` and `pending_signal`. */
module WorkflowRuns {
  import opened Wrappers
  import opened Models

  datatype Run = Run(
    status: Status, wakeupAt: Option<Time>,
    leaseOwner: Option<string>, leaseExpiresAt: Option<Time>,
    createdAt: Time, updatedAt: Time)

  // An `approval_decision` signal. Serial ids grow with `created_at`.
  datatype Signal = Signal(workflowId: Id, payload: Decision, consumed: bool, consumedAt: Option<Time>)

  function NewRun(now: Time, status: Status, wakeupAt: Option<Time>): Run {
    Run(status, wakeupAt, None, None, now, now)
  }

  predicate WakeupDue(run: Run, now: Time) {
    run.wakeupAt.Some? && run.wakeupAt.value <= now
  }

  predicate Claimable(run: Run, now: Time) {
    && (!run.status.Terminal() || WakeupDue(run, now))
    && (run.leaseExpiresAt.None? || run.leaseExpiresAt.value < now)
    && (run.wakeupAt.None? || run.wakeupAt.value <= now)
  }

  function ClaimRow(run: Run, now: Time, owner: string): Run {
    run.(leaseOwner := Some(owner), leaseExpiresAt := Some(now + LEASE), updatedAt := now)
  }

  predicate RunLeaseExpired(run: Run, now: Time) {
    run.leaseExpiresAt.Some? && run.leaseExpiresAt.value < now
  }

  function ReclaimRunRow(run: Run, now: Time): Run {
    if RunLeaseExpired(run, now) then
      run.(leaseOwner := None, leaseExpiresAt := None, updatedAt := now)
    else run
  }

  // Not fenced: whoever saves releases the lease, its own or not.
  function SaveRow(run: Run, now: Time, status: Status, wakeupAt: Option<Time>): Run {
    run.(status := status, wakeupAt := wakeupAt, leaseOwner := None, leaseExpiresAt := None, updatedAt := now)
  }

  function WakeRow(run: Run, now: Time): Run {
    run.(wakeupAt := Some(now), updatedAt := now)
  }

  predicate Archivable(run: Run, now: Time, maxAge: Time) {
    run.status.Terminal() && run.updatedAt < now - maxAge
  }

  predicate Unconsumed(signals: map<nat, Signal>, id: nat, workflowId: Id) {
    id in signals && signals[id].workflowId == workflowId && !signals[id].consumed
  }

  // `ORDER BY created_at, id LIMIT 1` over the unconsumed signals numbered from `lo` up.
  function OldestUnconsumed(signals: map<nat, Signal>, workflowId: Id, lo: nat, next: nat): (r: Option<nat>)
    ensures r.Some? ==> lo <= r.value < next && Unconsumed(signals, r.value, workflowId)
    ensures r.Some? ==> forall i: nat | lo <= i < r.value :: !Unconsumed(signals, i, workflowId)
    ensures r.None? ==> forall i: nat | lo <= i < next :: !Unconsumed(signals, i, workflowId)
    decreases next - lo
  {
    if lo >= next then None
    else if Unconsumed(signals, lo, workflowId) then Some(lo)
    else OldestUnconsumed(signals, workflowId, lo + 1, next)
  }

  function Consume(signals: map<nat, Signal>, now: Time, id: nat): map<nat, Signal> {
    if id in signals then signals[id := signals[id].(consumed := true, consumedAt := Some(now))] else signals
  }

  predicate PrunableSignal(signal: Signal, now: Time, maxAge: Time) {
    signal.consumed && signal.consumedAt.Some? && signal.consumedAt.value < now - maxAge
  }

  function PruneConsumed(signals: map<nat, Signal>, now: Time, maxAge: Time): map<nat, Signal> {
    map id | id in signals && !PrunableSignal(signals[id], now, maxAge) :: signals[id]
  }
}
