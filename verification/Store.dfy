/** The database as the programs see it: one method per transaction. */
module Store {
  import opened Wrappers
  import opened Models
  import opened TaskQueue
  import opened WorkflowRuns
  import opened Graph
  import opened SideEffects
  import opened Engine
  import opened Tables

  lemma {:induction false} LeastExists<K>(keys: set<K>, time: K -> Time) returns (least: K)
    requires keys != {}
    ensures least in keys && forall k :: k in keys ==> time(least) <= time(k)
  {
    least :| least in keys;
    if keys != {least} {
      var other := LeastExists(keys - {least}, time);
      assert forall k :: k in keys ==> k == least || k in keys - {least};
      if time(other) < time(least) {
        least := other;
      }
    }
  }

  predicate IsDue(q: Table, now: Time, queue: Queue, key: Key) {
    key in q.rows && Due(q.rows[key], now, queue)
  }

  /** Due is: pending on this queue and available. Leasing is for 30 seconds and counts an attempt. */
  lemma {:induction false} LeasesTheDue(q: Table, now: Time, queue: Queue, key: Key, worker: string)
    requires key in q.rows
    ensures var row := q.rows[key];
            && (IsDue(q, now, queue, key) <==> row.queue == queue && row.status.Pending? && row.availableAt <= now)
            && Lease(q, now, key, worker)
               == q.(rows := q.rows[key := row.(status := Leased, leaseOwner := Some(worker),
                                                leaseExpiresAt := Some(now + 30), attempts := row.attempts + 1)])
  {
  }

  predicate IsClaimable(runs: map<Id, Run>, now: Time, id: Id) {
    id in runs && Claimable(runs[id], now)
  }

  /** Claimable is: due if it has a timer, unleased or past its lease, and not finished unless a
      timer is due. A claim is a lease of 30 seconds. */
  lemma {:induction false} ClaimsTheReady(runs: map<Id, Run>, now: Time, id: Id, worker: string)
    requires id in runs
    ensures var run := runs[id];
            && (IsClaimable(runs, now, id) <==>
                && (run.wakeupAt.Some? ==> run.wakeupAt.value <= now)
                && (run.leaseExpiresAt.Some? ==> run.leaseExpiresAt.value < now)
                && (run.status.Resolved? || run.status.Rejected? || run.status.Escalated? ==> run.wakeupAt.Some?))
            && ClaimRow(run, now, worker)
               == run.(leaseOwner := Some(worker), leaseExpiresAt := Some(now + 30), updatedAt := now)
  {
  }

  predicate HasUnconsumed(signals: map<nat, Signal>, id: Id) {
    exists i :: i in signals && Unconsumed(signals, i, id)
  }

  // Threads with no run row whose state has been materialised.
  function Stranded(t: Contents): set<Id> {
    set id | id in t.threads && id !in t.runs && !t.threads[id].node.Start?
  }

  function DueForArchive(runs: map<Id, Run>, now: Time, maxAge: Time): set<Id> {
    set id | id in runs && Archivable(runs[id], now, maxAge)
  }

  function Without<K, V>(m: map<K, V>, gone: set<K>): map<K, V> {
    map k | k in m && k !in gone :: m[k]
  }

  function Among<K, V>(m: map<K, V>, keys: set<K>): map<K, V>
    requires keys <= m.Keys
  {
    map k | k in keys :: m[k]
  }

  // What `fail` may leave of the leased row it matches.
  predicate FailedTo(row: Task, after: Task, now: Time, error: string, permanent: bool) {
    && after == row.(status := after.status, availableAt := after.availableAt, error := Some(error),
                     permanent := row.permanent || permanent, leaseOwner := None, leaseExpiresAt := None)
    && (if row.attempts < row.maxAttempts && !row.permanent && !permanent
        then after.status.Pending? && after.availableAt == now + Pow2(row.attempts)
        else after.status.Failed? && after.availableAt == row.availableAt)
  }

  // Every row but the leased one with this id stays.
  predicate FailedOnly(q: Table, t: Table, now: Time, id: nat, error: string, permanent: bool) {
    && t.rows.Keys == q.rows.Keys && t.nextId == q.nextId
    && forall key :: key in q.rows ==>
         var row, after := q.rows[key], t.rows[key];
         if row.id == id && row.status.Leased? then FailedTo(row, after, now, error, permanent) else after == row
  }

  predicate LeftAs(q: Table, t: Table, id: nat, status: TaskStatus) {
    forall key :: key in q.rows && q.rows[key].id == id && q.rows[key].status.Leased? ==>
        key in t.rows && t.rows[key].status == status
  }

  datatype RetentionResult = RetentionResult(runs: int, checkpointThreads: int, signals: int, tasks: int)

  lemma {:induction false} MatchIsOnly(q: Table, now: Time, id: nat, error: string, permanent: bool)
    requires UniqueIds(q)
    ensures LeftAs(q, TaskQueue.Fail(q, now, id, error, permanent), id,
                   if FailsForGood(q, id, permanent) then Failed else TaskStatus.Pending)
  {
  }

  lemma {:induction false} FailsAs(q: Table, now: Time, id: nat, error: string, permanent: bool)
    ensures FailedOnly(q, TaskQueue.Fail(q, now, id, error, permanent), now, id, error, permanent)
  {
  }

  class Database {
    var tasks: Table
    var runs: map<Id, Run>
    var archive: map<Id, Run>
    var signals: map<nat, Signal>
    var nextSignal: nat
    var threads: map<Id, Checkpoint>
    var refunds: map<Id, real>
    var sentReplies: map<Id, SentReply>
    var results: map<Id, TicketResult>
    var refundAttempts: seq<(Id, nat)>
    var replyAttempts: seq<(Id, nat)>

    constructor ()
      ensures Now() == Contents(EmptyTable, map[], map[], map[], 0, map[], map[], map[], map[], [], [])
    {
      tasks, runs, archive, signals, nextSignal := EmptyTable, map[], map[], map[], 0;
      threads, refunds, sentReplies, results := map[], map[], map[], map[];
      refundAttempts, replyAttempts := [], [];
    }

    function Now(): Contents
      reads this
    {
      Contents(tasks, runs, archive, signals, nextSignal, threads, refunds, sentReplies, results,
               refundAttempts, replyAttempts)
    }

    // ----- task queue

    method Enqueue(
      now: Time, key: Key, queue: Queue, payload: Payload, maxAttempts: nat := MAX_ATTEMPTS,
      availableAt: Option<Time> := None)
      returns (id: Option<nat>)
      modifies this`tasks
      ensures tasks == EnqueueWith(old(tasks), now, key, queue, payload, maxAttempts,
                                   if availableAt.Some? then availableAt.value else now)
      ensures id == if key in old(tasks).rows then None else Some(old(tasks).nextId)
      ensures tasks.nextId == old(tasks).nextId + 1
      ensures id.None? ==> tasks.rows == old(tasks).rows
      ensures id.Some? ==>
                tasks.rows == old(tasks).rows[key := Task(id.value, queue, payload, Pending, 0, maxAttempts,
                                                          if availableAt.Some? then availableAt.value else now, now,
                                                          None, None, None, None, false)]
    {
      var serial := tasks.nextId;
      tasks := tasks.(nextId := serial + 1);
      if key in tasks.rows {
        return None;
      }
      var due := if availableAt.Some? then availableAt.value else now;
      tasks := tasks.(rows := tasks.rows[key := NewRow(serial, now, queue, payload, maxAttempts, due)]);
      id := Some(serial);
    }

    method CancelPending(key: Key, reason: string) returns (cancelled: bool)
      modifies this`tasks
      ensures tasks == TaskQueue.CancelPending(old(tasks), key, reason)
      ensures cancelled <==> key in old(tasks).rows && old(tasks).rows[key].status.Pending?
      ensures !cancelled ==> tasks == old(tasks)
      ensures cancelled ==>
                var row := old(tasks).rows[key].(status := Failed, error := Some(reason), permanent := true);
                tasks == old(tasks).(rows := old(tasks).rows[key := row])
    {
      cancelled := IsPending(tasks, key);
      if cancelled {
        var row := tasks.rows[key].(status := Failed, error := Some(reason), permanent := true);
        tasks := tasks.(rows := tasks.rows[key := row]);
      }
    }

    // Leases the due task that has been available longest.
    method Dequeue(now: Time, queue: Queue, worker: string) returns (task: Option<Key>)
      modifies this`tasks
      ensures task.None? ==> tasks == old(tasks) && forall key :: !IsDue(tasks, now, queue, key)
      ensures task.Some? ==>
                && IsDue(old(tasks), now, queue, task.value)
                && (forall key :: IsDue(old(tasks), now, queue, key) ==>
                      old(tasks).rows[task.value].availableAt <= old(tasks).rows[key].availableAt)
                && tasks == Lease(old(tasks), now, task.value, worker)
    {
      var due := set key | key in tasks.rows && Due(tasks.rows[key], now, queue);
      if due == {} {
        assert forall key :: IsDue(tasks, now, queue, key) ==> key in due;
        return None;
      }
      ghost var rows := tasks.rows;
      ghost var least := LeastExists(due, key => if key in rows then rows[key].availableAt else 0);
      var key :| key in due && forall k :: k in due ==> tasks.rows[key].availableAt <= tasks.rows[k].availableAt;
      assert forall k :: IsDue(tasks, now, queue, k) ==> k in due;
      tasks := tasks.(rows := tasks.rows[key := LeaseRow(tasks.rows[key], now, worker)]);
      task := Some(key);
    }

    method Complete(id: nat, result: TaskResult) returns (done: bool)
      modifies this`tasks
      ensures tasks == TaskQueue.Complete(old(tasks), id, result)
      ensures done == LeasedId(old(tasks), id)
      ensures tasks.rows.Keys == old(tasks).rows.Keys && tasks.nextId == old(tasks).nextId
      ensures forall key :: key in tasks.rows ==>
                var row := old(tasks).rows[key];
                tasks.rows[key] == if row.id == id && row.status.Leased? then
                                     row.(status := Done, result := Some(result), error := None, leaseOwner := None,
                                          leaseExpiresAt := None)
                                   else row
    {
      var matching := set key | key in tasks.rows && tasks.rows[key].id == id && tasks.rows[key].status.Leased?;
      done := matching != {};
      assert forall key :: key in tasks.rows && tasks.rows[key].id == id && tasks.rows[key].status.Leased? ==>
              key in matching;
      tasks := tasks.(rows := map key | key in tasks.rows :: CompleteRow(tasks.rows[key], id, result));
    }

    // The status the leased row is left with, if one matched.
    method Fail(now: Time, id: nat, error: string, permanent: bool) returns (status: Option<TaskStatus>)
      modifies this`tasks
      ensures tasks == TaskQueue.Fail(old(tasks), now, id, error, permanent)
      ensures status.Some? <==> LeasedId(old(tasks), id)
      ensures status == Some(Failed) <==> FailsForGood(old(tasks), id, permanent)
      ensures status.Some? ==> status.value.Failed? || status.value.Pending?
      ensures FailedOnly(old(tasks), tasks, now, id, error, permanent)
      // Ids are a primary key, so this is the status of the one row that matched.
      ensures UniqueIds(old(tasks)) && status.Some? ==> LeftAs(old(tasks), tasks, id, status.value)
    {
      ghost var q := tasks;
      status := if !LeasedId(tasks, id) then None
                else if FailsForGood(tasks, id, permanent) then Some(Failed) else Some(TaskStatus.Pending);
      tasks := tasks.(rows := map key | key in tasks.rows :: FailRow(tasks.rows[key], now, id, error, permanent));
      FailsAs(q, now, id, error, permanent);
      if UniqueIds(q) {
        MatchIsOnly(q, now, id, error, permanent);
      }
    }

    method ReclaimExpired(now: Time) returns (reclaimed: nat)
      modifies this`tasks
      ensures tasks == TaskQueue.ReclaimExpired(old(tasks), now)
      ensures reclaimed == |set key | key in old(tasks).rows && LeaseExpired(old(tasks).rows[key], now)|
      ensures tasks.rows.Keys == old(tasks).rows.Keys && tasks.nextId == old(tasks).nextId
      ensures forall key :: key in tasks.rows ==>
                var row := old(tasks).rows[key];
                tasks.rows[key] == if row.status.Leased? && row.leaseExpiresAt.Some? && row.leaseExpiresAt.value < now
                                   then row.(status := Pending, leaseOwner := None, leaseExpiresAt := None)
                                   else row
    {
      reclaimed := |set key | key in tasks.rows && LeaseExpired(tasks.rows[key], now)|;
      tasks := tasks.(rows := map key | key in tasks.rows :: ReclaimRow(tasks.rows[key], now));
    }

    method PruneSettled(now: Time, maxAge: Time) returns (pruned: nat)
      modifies this`tasks
      ensures tasks == TaskQueue.PruneSettled(old(tasks), now, maxAge)
      ensures pruned == |old(tasks).rows| - |tasks.rows|
      ensures tasks.nextId == old(tasks).nextId
      ensures forall key :: key in tasks.rows ==> key in old(tasks).rows && tasks.rows[key] == old(tasks).rows[key]
      ensures forall key :: key in old(tasks).rows ==>
                var row := old(tasks).rows[key];
                (key !in tasks.rows <==> (row.status.Done? || row.status.Failed?) && row.enqueuedAt < now - maxAge)
    {
      ghost var before := tasks.rows;
      var stale := set key | key in tasks.rows && Prunable(tasks.rows[key], now, maxAge);
      pruned := |stale|;
      tasks := tasks.(rows := Without(tasks.rows, stale));
      CountRemoved(before, stale);
    }

    // ----- workflow runs

    // Leases the claimable run created first; the row as it stood goes to the caller.
    method ClaimRun(now: Time, worker: string) returns (claimed: Option<Id>)
      modifies this`runs
      ensures claimed.None? ==> runs == old(runs) && forall id :: !IsClaimable(runs, now, id)
      ensures claimed.Some? ==>
                && IsClaimable(old(runs), now, claimed.value)
                && (forall id :: IsClaimable(old(runs), now, id) ==>
                      old(runs)[claimed.value].createdAt <= old(runs)[id].createdAt)
                && runs == old(runs)[claimed.value := ClaimRow(old(runs)[claimed.value], now, worker)]
    {
      var ready := set id | id in runs && Claimable(runs[id], now);
      if ready == {} {
        assert forall id :: IsClaimable(runs, now, id) ==> id in ready;
        return None;
      }
      ghost var rows := runs;
      ghost var first := LeastExists(ready, id => if id in rows then rows[id].createdAt else 0);
      var id :| id in ready && forall j :: j in ready ==> runs[id].createdAt <= runs[j].createdAt;
      assert forall j :: IsClaimable(runs, now, j) ==> j in ready;
      runs := runs[id := ClaimRow(runs[id], now, worker)];
      claimed := Some(id);
    }

    method ReclaimExpiredRuns(now: Time) returns (reclaimed: nat)
      modifies this`runs
      ensures runs == map id | id in old(runs) :: ReclaimRunRow(old(runs)[id], now)
      ensures reclaimed == |set id | id in old(runs) && RunLeaseExpired(old(runs)[id], now)|
      ensures runs.Keys == old(runs).Keys
      ensures forall id :: id in runs ==>
                var run := old(runs)[id];
                runs[id] == if run.leaseExpiresAt.Some? && run.leaseExpiresAt.value < now
                            then run.(leaseOwner := None, leaseExpiresAt := None, updatedAt := now) else run
    {
      reclaimed := |set id | id in runs && RunLeaseExpired(runs[id], now)|;
      runs := map id | id in runs :: ReclaimRunRow(runs[id], now);
    }

    method SaveRun(now: Time, id: Id, status: Status, wakeupAt: Option<Time>, consumed: Option<nat>)
      modifies this`runs, this`signals
      ensures runs == if id !in old(runs) then old(runs)
                      else old(runs)[id := SaveRow(old(runs)[id], now, status, wakeupAt)]
      ensures signals == if consumed.Some? then Consume(old(signals), now, consumed.value) else old(signals)
      ensures id in old(runs) ==>
                runs[id] == Run(status, wakeupAt, None, None, old(runs)[id].createdAt, now)
      ensures signals.Keys == old(signals).Keys
      ensures forall i :: i in signals ==>
                signals[i] == if consumed == Some(i) then old(signals)[i].(consumed := true, consumedAt := Some(now))
                              else old(signals)[i]
    {
      if id in runs {
        runs := runs[id := runs[id].(status := status, wakeupAt := wakeupAt, leaseOwner := None,
                                     leaseExpiresAt := None, updatedAt := now)];
      }
      if consumed.Some? && consumed.value in signals {
        var signal := signals[consumed.value];
        signals := signals[consumed.value := signal.(consumed := true, consumedAt := Some(now))];
      }
    }

    method CreateRun(now: Time, id: Id, status: Status, wakeupAt: Option<Time>)
      modifies this`runs
      ensures runs == if id in old(runs) then old(runs) else old(runs)[id := NewRun(now, status, wakeupAt)]
      ensures id !in old(runs) ==> runs[id] == Run(status, wakeupAt, None, None, now, now)
    {
      if id !in runs {
        runs := runs[id := Run(status, wakeupAt, None, None, now, now)];
      }
    }

    method WakeRun(now: Time, id: Id)
      modifies this`runs
      ensures runs == if id in old(runs) then old(runs)[id := WakeRow(old(runs)[id], now)] else old(runs)
      ensures id in old(runs) ==> runs[id] == old(runs)[id].(wakeupAt := Some(now), updatedAt := now)
    {
      if id in runs {
        runs := runs[id := runs[id].(wakeupAt := Some(now), updatedAt := now)];
      }
    }

    // The API's only way in for a decision. `None` is its conflict.
    method AddPendingSignalIfWaiting(now: Time, id: Id, decision: Decision) returns (signal: Option<nat>)
      modifies this`runs, this`signals, this`nextSignal
      ensures signal.Some? <==>
                && id in old(runs) && old(runs)[id].status.AwaitingApproval?
                && !HasUnconsumed(old(signals), id)
      ensures signal.Some? ==>
                && signal.value == old(nextSignal) && nextSignal == old(nextSignal) + 1
                && signals == old(signals)[signal.value := Signal(id, decision, false, None)]
                && runs == old(runs)[id := WakeRow(old(runs)[id], now)]
                && runs[id] == old(runs)[id].(wakeupAt := Some(now), updatedAt := now)
      ensures HasUnconsumed(old(signals), id) <==>
                exists i :: i in old(signals) && old(signals)[i].workflowId == id && !old(signals)[i].consumed
      ensures signal.None? ==> runs == old(runs) && signals == old(signals) && old(nextSignal) <= nextSignal
    {
      if id !in runs || !runs[id].status.AwaitingApproval? {
        return None;
      }
      var serial := nextSignal;
      nextSignal := serial + 1;
      var open := set i | i in signals && Unconsumed(signals, i, id);
      if open != {} {
        return None;
      }
      assert forall i :: i in signals && Unconsumed(signals, i, id) ==> i in open;
      signals := signals[serial := Signal(id, decision, false, None)];
      runs := runs[id := runs[id].(wakeupAt := Some(now), updatedAt := now)];
      signal := Some(serial);
    }

    // `None` is the failure of the whole move on an id that is archived already.
    method ArchiveTerminalRuns(now: Time, maxAge: Time) returns (moved: Option<set<Id>>)
      modifies this`runs, this`archive
      ensures moved.None? <==> DueForArchive(old(runs), now, maxAge) * old(archive).Keys != {}
      ensures moved.None? ==> runs == old(runs) && archive == old(archive)
      ensures moved.Some? ==>
                && moved.value == DueForArchive(old(runs), now, maxAge)
                && runs == Without(old(runs), moved.value)
                && archive == old(archive) + Among(old(runs), moved.value)
      ensures forall id :: id in DueForArchive(old(runs), now, maxAge) <==>
                id in old(runs)
                && (var run := old(runs)[id];
                    && (run.status.Resolved? || run.status.Rejected? || run.status.Escalated?)
                    && run.updatedAt < now - maxAge)
      ensures moved.Some? ==>
                forall id :: id in old(runs) && id !in moved.value ==> id in runs && runs[id] == old(runs)[id]
    {
      var due := DueForArchive(runs, now, maxAge);
      if due * archive.Keys != {} {
        return None;
      }
      archive := archive + (map id | id in due :: runs[id]);
      runs := Without(runs, due);
      moved := Some(due);
    }

    method PruneConsumedSignals(now: Time, maxAge: Time) returns (pruned: nat)
      modifies this`signals
      ensures signals == PruneConsumed(old(signals), now, maxAge)
      ensures pruned == |old(signals)| - |signals|
      ensures forall i :: i in signals ==> i in old(signals) && signals[i] == old(signals)[i]
      ensures forall i :: i in old(signals) ==>
                var signal := old(signals)[i];
                (i !in signals <==>
                 signal.consumed && signal.consumedAt.Some? && signal.consumedAt.value < now - maxAge)
    {
      ghost var before := signals;
      var stale := set i | i in signals && PrunableSignal(signals[i], now, maxAge);
      pruned := |stale|;
      signals := Without(signals, stale);
      CountRemoved(before, stale);
    }

    // ----- ledgers and results

    method RecordRefund(id: Id, amount: real, attempt: nat) returns (first: bool)
      modifies this`refunds, this`refundAttempts
      ensures first == (id !in old(refunds))
      ensures refunds == if first then old(refunds)[id := amount] else old(refunds)
      ensures refundAttempts == old(refundAttempts) + [(id, attempt)]
    {
      refundAttempts := refundAttempts + [(id, attempt)];
      first := id !in refunds;
      if first {
        refunds := refunds[id := amount];
      }
    }

    method RecordSentReply(id: Id, reply: SentReply, attempt: nat) returns (first: bool)
      modifies this`sentReplies, this`replyAttempts
      ensures first == (id !in old(sentReplies))
      ensures sentReplies == if first then old(sentReplies)[id := reply] else old(sentReplies)
      ensures replyAttempts == old(replyAttempts) + [(id, attempt)]
    {
      replyAttempts := replyAttempts + [(id, attempt)];
      first := id !in sentReplies;
      if first {
        sentReplies := sentReplies[id := reply];
      }
    }

    method SaveResult(result: TicketResult)
      modifies this`results
      ensures results == old(results)[result.ticketId := result]
      ensures LoadResult(result.ticketId) == Some(result)
    {
      results := results[result.ticketId := result];
    }

    function LoadResult(id: Id): Option<TicketResult>
      reads this
    {
      Lookup(results, id)
    }
  }

  lemma {:induction false} CountRemoved<K, V>(m: map<K, V>, gone: set<K>)
    requires gone <= m.Keys
    ensures |Without(m, gone)| == |m| - |gone|
  {
    assert Without(m, gone).Keys == m.Keys - gone;
    assert |m.Keys - gone| == |m.Keys| - |gone|;
  }
}
