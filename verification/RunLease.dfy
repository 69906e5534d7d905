/** Mutual exclusion of runners on one ticket, from a lease that no save, wake or insert checks. */
module RunLease {
  import opened Wrappers
  import opened Models
  import opened Engine

  predicate ByRunner(caller: Caller) { caller.Runner? }

  // A runner between its claim and its save.
  predicate Active(x: Actor) {
    x.Claimed? || x.Looked? || x.Saving? || (x.Invoking? && ByRunner(x.caller)) || (x.Ran? && ByRunner(x.caller))
  }

  function ClaimedAt(x: Actor): Time
    requires Active(x)
  {
    if x.Invoking? || x.Ran? then x.caller.claimedAt else x.claimedAt
  }

  ghost predicate OneRunner(s: Rows) {
    forall a, b :: a in s.actors && b in s.actors && Active(s.actors[a]) && Active(s.actors[b]) ==> a == b
  }

  // The lease an active runner took is still on the row, and the row is no older than the claim.
  ghost predicate Holds(s: Rows, clock: Time) {
    forall a :: a in s.actors && Active(s.actors[a]) ==>
      && s.run.Some? && s.run.value.leaseExpiresAt == Some(ClaimedAt(s.actors[a]) + LEASE)
      && ClaimedAt(s.actors[a]) <= s.run.value.updatedAt && ClaimedAt(s.actors[a]) <= clock
  }

  // No active runner has outlived its lease, and retention spares rows younger than a lease.
  ghost predicate InTime(s: Rows, now: Time, e: Event) {
    && (forall a :: a in s.actors && Active(s.actors[a]) ==> now <= ClaimedAt(s.actors[a]) + LEASE)
    && (e.Archive? ==> e.maxAge >= LEASE)
  }

  // The step gives no actor a runner it did not have, with the same claim, and leaves the row's lease.
  ghost predicate KeepsLease(s: Rows, t: Rows) {
    && (forall a :: a in t.actors && Active(t.actors[a]) ==>
          a in s.actors && Active(s.actors[a]) && ClaimedAt(t.actors[a]) == ClaimedAt(s.actors[a]))
    && (s.run.Some? ==> t.run.Some? && t.run.value.leaseExpiresAt == s.run.value.leaseExpiresAt
                        && t.run.value.updatedAt >= s.run.value.updatedAt)
  }

  lemma {:induction false} SeedLease(s: Rows, a: nat, ticket: Ticket)
    ensures KeepsLease(s, DoSeed(s, a, ticket))
  {
  }

  lemma {:induction false} NodeLease(s: Rows, now: Time, a: nat)
    ensures KeepsLease(s, DoRunNode(s, now, a))
  {
  }

  lemma {:induction false} CommitLease(s: Rows, a: nat)
    ensures KeepsLease(s, DoCommit(s, a))
  {
  }

  lemma {:induction false} GraphStepLease(s: Rows, now: Time, e: Event)
    requires GraphEvent(e)
    ensures KeepsLease(s, ApplyGraph(s, now, e))
  {
    match e
    case SeedTicket(a, ticket) => SeedLease(s, a, ticket);
    case RunNode(a) => NodeLease(s, now, a);
    case Commit(a) => CommitLease(s, a);
  }

  lemma {:induction false} InsertStepLease(s: Rows, now: Time, e: Event)
    requires InsertEvent(e) && (s.run.Some? ==> s.run.value.updatedAt <= now)
    ensures KeepsLease(s, ApplyInsert(s, now, e))
  {
  }

  lemma {:induction false} ReadStepLease(s: Rows, a: nat)
    ensures KeepsLease(s, DoLook(s, a)) && KeepsLease(s, DoChoose(s, a))
  {
  }

  lemma {:induction false} WorkStepLease(s: Rows, now: Time, e: Event)
    requires WorkEvent(e) && !e.SideEffect? && (s.run.Some? ==> s.run.value.updatedAt <= now)
    ensures KeepsLease(s, ApplyWork(s, now, e))
  {
  }

  lemma {:induction false} SideEffectLease(s: Rows, a: nat)
    ensures KeepsLease(s, DoSideEffect(s, a))
  {
  }

  lemma {:induction false} UpkeepStepLease(s: Rows, now: Time, e: Event)
    requires UpkeepEvent(e) && !e.ReclaimRuns? && !e.Archive?
    ensures KeepsLease(s, ApplyUpkeep(s, now, e))
  {
  }

  lemma {:induction false} KeptLeaseHolds(s: Rows, t: Rows, clock: Time, now: Time)
    requires OneRunner(s) && Holds(s, clock) && clock <= now && KeepsLease(s, t)
    ensures OneRunner(t) && Holds(t, now)
  {
  }

  ghost predicate Fenced(s: Rows, clock: Time) {
    OneRunner(s) && Holds(s, clock) && (s.run.Some? ==> s.run.value.updatedAt <= clock)
  }

  lemma {:induction false} KeptLeaseFenced(s: Rows, t: Rows, clock: Time, now: Time)
    requires Fenced(s, clock) && clock <= now && KeepsLease(s, t)
    requires t.run.Some? ==> t.run.value.updatedAt <= now
    ensures Fenced(t, now)
  {
    KeptLeaseHolds(s, t, clock, now);
  }

  // The four statements that do touch a lease or the row.
  lemma {:induction false} ClaimFenced(s: Rows, clock: Time, now: Time, a: nat, owner: string)
    requires Fenced(s, clock) && clock <= now
    requires forall b :: b in s.actors && Active(s.actors[b]) ==> now <= ClaimedAt(s.actors[b]) + LEASE
    ensures Fenced(DoClaim(s, now, a, owner), now)
  {
  }

  lemma {:induction false} SaveFenced(s: Rows, clock: Time, now: Time, a: nat)
    requires Fenced(s, clock) && clock <= now
    ensures Fenced(DoSave(s, now, a), now)
  {
  }

  lemma {:induction false} ReclaimFenced(s: Rows, clock: Time, now: Time)
    requires Fenced(s, clock) && clock <= now
    requires forall b :: b in s.actors && Active(s.actors[b]) ==> now <= ClaimedAt(s.actors[b]) + LEASE
    ensures Fenced(DoReclaimRuns(s, now), now)
  {
  }

  lemma {:induction false} ArchiveFenced(s: Rows, clock: Time, now: Time, a: nat, maxAge: Time, conflict: bool)
    requires Fenced(s, clock) && clock <= now && maxAge >= LEASE
    requires forall b :: b in s.actors && Active(s.actors[b]) ==> now <= ClaimedAt(s.actors[b]) + LEASE
    ensures Fenced(DoArchive(s, now, a, maxAge, conflict), now)
  {
  }

  lemma {:induction false} RunnerFenced(s: Rows, clock: Time, now: Time, e: Event)
    requires Fenced(s, clock) && clock <= now && InTime(s, now, e) && RunnerEvent(e)
    ensures Fenced(ApplyRunner(s, now, e), now)
  {
    match e
    case Claim(a, owner) => ClaimFenced(s, clock, now, a, owner);
    case Save(a) => SaveFenced(s, clock, now, a);
    case Look(a) =>
      ReadStepLease(s, a);
      KeptLeaseFenced(s, DoLook(s, a), clock, now);
    case Choose(a) =>
      ReadStepLease(s, a);
      KeptLeaseFenced(s, DoChoose(s, a), clock, now);
  }

  lemma {:induction false} UpkeepFenced(s: Rows, clock: Time, now: Time, e: Event)
    requires Fenced(s, clock) && clock <= now && InTime(s, now, e) && UpkeepEvent(e)
    ensures Fenced(ApplyUpkeep(s, now, e), now)
  {
    if e.ReclaimRuns? {
      ReclaimFenced(s, clock, now);
    } else if e.Archive? {
      ArchiveFenced(s, clock, now, e.a, e.maxAge, e.conflict);
    } else {
      UpkeepStepLease(s, now, e);
      KeptLeaseFenced(s, ApplyUpkeep(s, now, e), clock, now);
    }
  }

  lemma {:induction false} WorkFenced(s: Rows, clock: Time, now: Time, e: Event)
    requires Fenced(s, clock) && clock <= now && WorkEvent(e)
    ensures Fenced(ApplyWork(s, now, e), now)
  {
    if e.SideEffect? {
      SideEffectLease(s, e.a);
    } else {
      WorkStepLease(s, now, e);
    }
    KeptLeaseFenced(s, ApplyWork(s, now, e), clock, now);
  }

  lemma {:induction false} OtherFenced(s: Rows, clock: Time, now: Time, e: Event)
    requires Fenced(s, clock) && clock <= now
    ensures GraphEvent(e) ==> Fenced(ApplyGraph(s, now, e), now)
    ensures InsertEvent(e) ==> Fenced(ApplyInsert(s, now, e), now)
  {
    if GraphEvent(e) {
      GraphStepLease(s, now, e);
      KeptLeaseFenced(s, ApplyGraph(s, now, e), clock, now);
    } else if InsertEvent(e) {
      InsertStepLease(s, now, e);
      KeptLeaseFenced(s, ApplyInsert(s, now, e), clock, now);
    }
  }

  lemma {:induction false} StepFenced(s: Rows, clock: Time, now: Time, e: Event)
    requires Fenced(s, clock) && clock <= now && InTime(s, now, e)
    ensures Fenced(Apply(s, now, e), now)
  {
    var t;
    if RunnerEvent(e) {
      RunnerFenced(s, clock, now, e);
      t := ApplyRunner(s, now, e);
    } else if WorkEvent(e) {
      WorkFenced(s, clock, now, e);
      t := ApplyWork(s, now, e);
    } else if UpkeepEvent(e) {
      UpkeepFenced(s, clock, now, e);
      t := ApplyUpkeep(s, now, e);
    } else if GraphEvent(e) {
      OtherFenced(s, clock, now, e);
      t := ApplyGraph(s, now, e);
    } else {
      OtherFenced(s, clock, now, e);
      t := ApplyInsert(s, now, e);
    }
    assert t == Apply(s, now, e) && Fenced(t, now);
  }

  // The clock never goes back, every runner takes its next step within its lease, and
  // retention spares rows younger than a lease.
  ghost predicate Punctual(id: Id, steps: seq<Step>) {
    && (forall i, j :: 0 <= i < j < |steps| ==> steps[i].now <= steps[j].now)
    && forall i :: 0 <= i < |steps| ==> InTime(After(Fresh(id), steps[..i]), steps[i].now, steps[i].event)
  }

  lemma {:induction false} PunctualFront(id: Id, steps: seq<Step>)
    requires Punctual(id, steps) && steps != []
    ensures var n := |steps| - 1;
            Punctual(id, steps[..n]) && InTime(After(Fresh(id), steps[..n]), steps[n].now, steps[n].event)
  {
    var n := |steps| - 1;
    assert forall i :: 0 <= i < n ==> steps[..n][..i] == steps[..i];
  }

  lemma {:induction false} PunctualFenced(id: Id, steps: seq<Step>)
    requires Punctual(id, steps)
    ensures steps == [] ==> forall clock :: Fenced(After(Fresh(id), steps), clock)
    ensures steps != [] ==> Fenced(After(Fresh(id), steps), steps[|steps| - 1].now)
  {
    if steps != [] {
      var n := |steps| - 1;
      var front := steps[..n];
      PunctualFront(id, steps);
      PunctualFenced(id, front);
      StepFenced(After(Fresh(id), front), if front
          == [] then steps[n].now else front[n - 1].now, steps[n].now, steps[n].event);
    }
  }

  ghost predicate Alone(s: Rows, a: nat) {
    a in s.actors && Active(s.actors[a]) ==>
      && s.run.Some? && s.run.value.leaseExpiresAt == Some(ClaimedAt(s.actors[a]) + LEASE)
      && forall b :: b in s.actors && Active(s.actors[b]) ==> a == b
  }

  lemma {:induction false} FencedAlone(s: Rows, clock: Time, a: nat)
    requires Fenced(s, clock)
    ensures Alone(s, a)
  {
  }

  /** If every runner finishes within its lease, no two runners are between claim and save of
      one ticket at the same time, and the one that is still owns the lease it took. */
  lemma {:induction false} RunnersExclude(id: Id, steps: seq<Step>, a: nat)
    requires Punctual(id, steps)
    ensures Alone(After(Fresh(id), steps), a)
  {
    PunctualFenced(id, steps);
    FencedAlone(After(Fresh(id), steps), if steps == [] then 0 else steps[|steps| - 1].now, a);
  }

  /** The bound is exact: while one runner is active, a second claim goes through exactly when
      the first lease has run out (and the run is otherwise due). */
  lemma {:induction false} SecondClaim(s: Rows, clock: Time, a: nat, b: nat, now: Time, owner: string)
    requires Fenced(s, clock) && a in s.actors && Active(s.actors[a]) && b !in s.actors
    ensures var t := DoClaim(s, now, b, owner);
            (b in t.actors && Active(t.actors[b])) <==>
              && now > ClaimedAt(s.actors[a]) + LEASE
              && (s.run.value.wakeupAt.None? || s.run.value.wakeupAt.value <= now)
              && (s.run.value.status.Terminal() ==> s.run.value.wakeupAt.Some?)
  {
  }
}
