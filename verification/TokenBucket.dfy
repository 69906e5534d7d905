/** The agent worker's rate limit. `acquire` runs under a first-in first-out lock, so calls are
    served in the order of the times they read; a call that must wait sleeps until its grant. */
module TokenBucketModel {
  import opened Wrappers
  import opened Numbers

  function Ceiling(x: real): int { -((-x).Floor) }

  class TokenBucket {
    const ratePerSecond: real
    var nextAvailable: Option<real>

    predicate Valid() { ratePerSecond > 0.0 }

    // A rate that is not positive is rejected before a bucket exists.
    static method Make(rate: real) returns (bucket: Option<TokenBucket>)
      ensures bucket.Some? <==> rate > 0.0
      ensures bucket.Some? ==> fresh(bucket.value) && bucket.value.Valid() && bucket.value.ratePerSecond == rate
                               && bucket.value.nextAvailable.None?
    {
      if rate <= 0.0 {
        return None;
      }
      var b := new TokenBucket(rate);
      bucket := Some(b);
    }

    constructor (rate: real)
      requires rate > 0.0
      ensures Valid() && ratePerSecond == rate && nextAvailable.None?
    {
      ratePerSecond := rate;
      nextAvailable := None;
    }

    // `grant` is when the caller goes on: at once, or after the sleep.
    method Acquire(now: real) returns (grant: real)
      requires Valid()
      modifies this`nextAvailable
      ensures grant == Grant(old(nextAvailable), now)
      ensures nextAvailable == Some(grant + 1.0 / ratePerSecond)
    {
      var interval := 1.0 / ratePerSecond;
      if nextAvailable.None? || now >= nextAvailable.value {
        nextAvailable := Some(now + interval);
        return now;
      }
      var waitFor := nextAvailable.value - now;
      nextAvailable := Some(nextAvailable.value + interval);
      grant := now + waitFor;
    }
  }

  function Grant(next: Option<real>, now: real): real {
    if next.None? || now >= next.value then now else next.value
  }

  // The grants of a bucket's calls, arriving at these times.
  function Schedule(next: Option<real>, interval: real, arrivals: seq<real>): (grants: seq<real>)
    ensures |grants| == |arrivals|
    decreases arrivals
  {
    if arrivals == [] then []
    else
      var g := Grant(next, arrivals[0]);
      [g] + Schedule(Some(g + interval), interval, arrivals[1..])
  }

  lemma {:induction false} ScheduleExtends(next: Option<real>, interval: real, arrivals: seq<real>, arrival: real)
    ensures var grants := Schedule(next, interval, arrivals);
            var free := if grants == [] then next else Some(grants[|grants| - 1] + interval);
            Schedule(next, interval, arrivals + [arrival]) == grants + [Grant(free, arrival)]
    decreases arrivals
  {
    if arrivals == [] {
      assert arrivals + [arrival] == [arrival];
    } else {
      var g := Grant(next, arrivals[0]);
      ScheduleExtends(Some(g + interval), interval, arrivals[1..], arrival);
      assert (arrivals + [arrival])[1..] == arrivals[1..] + [arrival];
    }
  }

  // How `process_one_task` ended: having found a task or not, or with an error of its own.
  datatype TaskEnd = Processed(found: bool) | Raised

  datatype Ended = Ended(task: nat, end: TaskEnd)

  predicate SomeRaised(done: seq<Ended>) {
    exists k :: 0 <= k < |done| && done[k].end.Raised?
  }

  predicate SomeFound(done: seq<Ended>) {
    exists k :: 0 <= k < |done| && done[k].end == Processed(true)
  }

  function TaskIds(done: seq<Ended>): set<nat> {
    if done == [] then {} else TaskIds(done[..|done| - 1]) + {done[|done| - 1].task}
  }

  lemma {:induction false} OneMoreEnded(done: seq<Ended>, k: nat, inFlight: set<nat>)
    requires k < |done|
    ensures inFlight - TaskIds(done[..k + 1]) == inFlight - TaskIds(done[..k]) - {done[k].task}
    ensures SomeFound(done[..k + 1]) <==> SomeFound(done[..k]) || done[k].end == Processed(true)
    ensures SomeRaised(done[..k + 1]) <==> SomeRaised(done[..k]) || done[k].end.Raised?
  {
    var more := done[..k + 1];
    assert more[..k] == done[..k] && more[k] == done[k];
    assert forall i :: 0 <= i < k ==> more[i] == done[..k][i];
  }

  // Take what a wait reports done out of the tasks in flight. The first error goes on to the caller.
  method WaitForOne(inFlight: set<nat>, done: seq<Ended>) returns (left: set<nat>, processed: bool, raised: bool)
    ensures left <= inFlight && |left| <= |inFlight|
    ensures raised <==> SomeRaised(done)
    ensures !raised ==> left == inFlight - TaskIds(done) && (processed <==> SomeFound(done))
  {
    left, processed, raised := inFlight, false, false;
    for k := 0 to |done|
      invariant left == inFlight - TaskIds(done[..k]) && |left| <= |inFlight|
      invariant (processed <==> SomeFound(done[..k])) && !SomeRaised(done[..k])
    {
      OneMoreEnded(done, k, inFlight);
      StillFewer(left, {done[k].task});
      left := left - {done[k].task};
      if done[k].end.Raised? {
        return left, processed, true;
      }
      processed := done[k].end.found || processed;
    }
    assert done[..|done|] == done;
  }

  lemma {:induction false} StillFewer(a: set<nat>, b: set<nat>)
    ensures |a - b| <= |a|
  {
    assert a == (a - b) + (a * b);
  }

  // Start the task that arrives next, after acquiring from the bucket if there is one.
  method StartNext(
    bucket: Option<TokenBucket>, clock: seq<real>, inFlight: set<nat>, started: seq<real>, ghost first: Option<real>,
    ghost before: set<nat>, ghost begun: nat)
    returns (more: set<nat>, starts: seq<real>)
    requires bucket.Some? ==> bucket.value.Valid()
    requires |started| < |clock| && Paced(bucket, first, clock[..|started|], started)
    requires Joined(before, inFlight, begun, |started|)
    modifies if bucket.Some? then {bucket.value} else {}
    ensures |starts| == |started| + 1 && Paced(bucket, first, clock[..|starts|], starts)
    ensures Joined(before, more, begun, |starts|) && |more| == |inFlight| + 1
  {
    var now := clock[|started|];
    var grant := now;
    if bucket.Some? {
      ScheduleExtends(first, 1.0 / bucket.value.ratePerSecond, clock[..|started|], now);
      grant := bucket.value.Acquire(now);
    }
    assert clock[..|started|] + [now] == clock[..|started| + 1];
    OneMoreStarted(before, inFlight, begun, |started|);
    more, starts := inFlight + {|started|}, started + [grant];
  }

  // Start tasks until the bound is reached or no more arrive.
  method Fill(
    bucket: Option<TokenBucket>, maxConcurrent: nat, clock: seq<real>, before: set<nat>, begun: seq<real>,
    ghost first: Option<real>)
    returns (inFlight: set<nat>, started: seq<real>)
    requires bucket.Some? ==> bucket.value.Valid()
    requires |begun| <= |clock| && |before| <= maxConcurrent && Joined(before, before, |begun|, |begun|)
    requires Paced(bucket, first, clock[..|begun|], begun)
    modifies if bucket.Some? then {bucket.value} else {}
    ensures |begun| <= |started| <= |clock| && |inFlight| <= maxConcurrent
    ensures |inFlight| == maxConcurrent || |started| == |clock|
    ensures Joined(before, inFlight, |begun|, |started|)
    ensures Paced(bucket, first, clock[..|started|], started)
  {
    inFlight, started := before, begun;
    while |inFlight| < maxConcurrent && |started| < |clock|
      invariant |begun| <= |started| <= |clock| && |inFlight| <= maxConcurrent
      invariant Joined(before, inFlight, |begun|, |started|)
      invariant Paced(bucket, first, clock[..|started|], started)
      decreases |clock| - |started|
    {
      inFlight, started := StartNext(bucket, clock, inFlight, started, first, before, |begun|);
    }
  }

  // The tasks numbered from..to have joined those in flight.
  ghost predicate Joined(before: set<nat>, inFlight: set<nat>, from: nat, to: nat) {
    && inFlight == before + Numbered(from, to) && |inFlight| <= to && from <= to
    && forall n :: n in inFlight ==> n < to
  }

  lemma {:induction false} OneMoreStarted(before: set<nat>, inFlight: set<nat>, from: nat, to: nat)
    requires Joined(before, inFlight, from, to)
    ensures Joined(before, inFlight + {to}, from, to + 1) && |inFlight + {to}| == |inFlight| + 1
  {
    assert to !in inFlight && Numbered(from, to + 1) == Numbered(from, to) + {to};
  }

  // What is in flight when a wait begins, and how many tasks have been started by then.
  datatype Wait = Wait(inFlight: set<nat>, begun: nat)

  function Numbered(from: nat, to: nat): set<nat> {
    if to <= from then {} else Numbered(from, to - 1) + {to - 1}
  }

  // Each wait has what the one before it left and what was started since, as many as the bound allows.
  ghost predicate KeptFull(waits: seq<Wait>, finished: seq<seq<Ended>>, maxConcurrent: nat, total: nat)
    requires |waits| <= |finished|
  {
    forall r :: 0 <= r < |waits| ==> FullAt(waits, finished, r, maxConcurrent, total)
  }

  predicate FullAt(waits: seq<Wait>, finished: seq<seq<Ended>>, r: nat, maxConcurrent: nat, total: nat)
    requires r < |waits| <= |finished|
  {
    Refilled(LeftBefore(waits, finished, r), waits[r], maxConcurrent, total)
  }

  predicate Refilled(left: Wait, next: Wait, maxConcurrent: nat, total: nat) {
    && |next.inFlight| <= maxConcurrent && left.begun <= next.begun <= total
    && (|next.inFlight| == maxConcurrent || next.begun == total)
    && next.inFlight == left.inFlight + Numbered(left.begun, next.begun)
  }

  // What the wait before the r-th left in flight.
  function LeftBefore(waits: seq<Wait>, finished: seq<seq<Ended>>, r: nat): Wait
    requires r <= |waits| <= |finished|
  {
    if r == 0 then Wait({}, 0) else Wait(waits[r - 1].inFlight - TaskIds(finished[r - 1]), waits[r - 1].begun)
  }

  /** The drain loop: fill up to `maxConcurrent` tasks, each after acquiring from the bucket if there
      is one, then wait until some end, one of them perhaps with an error, which stops the loop.
      `clock[n]` is the time the n-th start reads and `finished[r]` what the r-th wait reports done;
      the loop is stopped when either runs out. `None` is the rejection of a bound that is not
      positive. Whenever it waits it is full, or has started all there is. */
  method RunForever(bucket: Option<TokenBucket>, maxConcurrent: int, clock: seq<real>, finished: seq<seq<Ended>>)
    returns (starts: Option<seq<real>>, raised: bool, ghost waits: seq<Wait>)
    requires bucket.Some? ==> bucket.value.Valid()
    modifies if bucket.Some? then {bucket.value} else {}
    ensures starts.None? <==> maxConcurrent <= 0
    ensures starts.Some? ==>
              && (raised <==> exists r :: 0 <= r < |finished| && SomeRaised(finished[r]))
              && Drained(waits, finished, raised, |starts.value|, maxConcurrent, |clock|)
    ensures starts.Some? ==>
              && |starts.value| <= |clock|
              && starts.value == (if bucket.Some? then
                                    Schedule(old(bucket.value.nextAvailable), 1.0 / bucket.value.ratePerSecond,
                                             clock[..|starts.value|])
                                  else clock[..|starts.value|])
  {
    raised, waits := false, [];
    if maxConcurrent <= 0 {
      return None, false, [];
    }
    var inFlight: set<nat> := {};
    var started := [];
    ghost var first := if bucket.Some? then bucket.value.nextAvailable else None;
    for r := 0 to |finished|
      invariant |started| <= |clock| && |inFlight| <= maxConcurrent
      invariant Joined(inFlight, inFlight, |started|, |started|)
      invariant Paced(bucket, first, clock[..|started|], started)
      invariant !raised && Draining(waits, finished, r, inFlight, |started|, maxConcurrent, |clock|)
    {
      ghost var next;
      inFlight, started, raised, next := Round(bucket, maxConcurrent, clock, inFlight, started, finished[r], first);
      if raised {
        StopsDraining(waits, finished, r, next, maxConcurrent, |clock|);
        return Some(started), true, waits + [next];
      }
      GoesOnDraining(waits, finished, r, next, inFlight, maxConcurrent, |clock|);
      waits := waits + [next];
    }
    starts := Some(started);
  }

  // r waits are over, none of them with an error, and have left this in flight.
  ghost predicate Draining(
    waits: seq<Wait>, finished: seq<seq<Ended>>, r: nat, inFlight: set<nat>, begun: nat, maxConcurrent: nat, total: nat)
    requires r <= |finished|
  {
    && |waits| == r && KeptFull(waits, finished, maxConcurrent, total)
    && LeftBefore(waits, finished, r) == Wait(inFlight, begun)
    && forall i :: 0 <= i < r ==> !SomeRaised(finished[i])
  }

  // The waits of a whole run: all of them, or up to the first that ends with an error.
  ghost predicate Drained(
    waits: seq<Wait>, finished: seq<seq<Ended>>, raised: bool, begun: nat, maxConcurrent: nat, total: nat)
  {
    && |waits| <= |finished| && KeptFull(waits, finished, maxConcurrent, total)
    && (forall r :: 0 <= r < |waits| - 1 ==> !SomeRaised(finished[r]))
    && (if raised then waits != [] && SomeRaised(finished[|waits| - 1]) else |waits| == |finished|)
    && begun == if waits == [] then 0 else waits[|waits| - 1].begun
  }

  lemma {:induction false} GoesOnDraining(
    waits: seq<Wait>, finished: seq<seq<Ended>>, r: nat, next: Wait, left: set<nat>, maxConcurrent: nat, total: nat)
    requires r < |finished| && |waits| == r && !SomeRaised(finished[r]) && left == next.inFlight - TaskIds(finished[r])
    requires var before := LeftBefore(waits, finished, r);
             && Draining(waits, finished, r, before.inFlight, before.begun, maxConcurrent, total)
             && Refilled(before, next, maxConcurrent, total)
    ensures Draining(waits + [next], finished, r + 1, left, next.begun, maxConcurrent, total)
  {
    StillFull(waits, finished, maxConcurrent, total, next);
  }

  lemma {:induction false} StopsDraining(
    waits: seq<Wait>, finished: seq<seq<Ended>>, r: nat, next: Wait, maxConcurrent: nat, total: nat)
    requires r < |finished| && |waits| == r && SomeRaised(finished[r])
    requires var before := LeftBefore(waits, finished, r);
             && Draining(waits, finished, r, before.inFlight, before.begun, maxConcurrent, total)
             && Refilled(before, next, maxConcurrent, total)
    ensures Drained(waits + [next], finished, true, next.begun, maxConcurrent, total)
  {
    StillFull(waits, finished, maxConcurrent, total, next);
  }

  // Fill up, then wait for what ends next.
  method Round(
    bucket: Option<TokenBucket>, maxConcurrent: nat, clock: seq<real>, inFlight: set<nat>, begun: seq<real>,
    done: seq<Ended>, ghost first: Option<real>)
    returns (left: set<nat>, started: seq<real>, raised: bool, ghost wait: Wait)
    requires bucket.Some? ==> bucket.value.Valid()
    requires |begun| <= |clock| && |inFlight| <= maxConcurrent && Joined(inFlight, inFlight, |begun|, |begun|)
    requires Paced(bucket, first, clock[..|begun|], begun)
    modifies if bucket.Some? then {bucket.value} else {}
    ensures |started| == wait.begun && Refilled(Wait(inFlight, |begun|), wait, maxConcurrent, |clock|)
    ensures Paced(bucket, first, clock[..|started|], started)
    ensures raised <==> SomeRaised(done)
    ensures !raised ==> left == wait.inFlight - TaskIds(done)
    ensures |left| <= maxConcurrent && Joined(left, left, |started|, |started|)
  {
    var full;
    full, started := Fill(bucket, maxConcurrent, clock, inFlight, begun, first);
    wait := Wait(full, |started|);
    var processed;
    left, processed, raised := WaitForOne(full, done);
    assert Numbered(|started|, |started|) == {};
  }

  lemma {:induction false} StillFull(
    waits: seq<Wait>, finished: seq<seq<Ended>>, maxConcurrent: nat, total: nat, next: Wait)
    requires |waits| < |finished| && KeptFull(waits, finished, maxConcurrent, total)
    requires Refilled(LeftBefore(waits, finished, |waits|), next, maxConcurrent, total)
    ensures KeptFull(waits + [next], finished, maxConcurrent, total)
  {
    var more := waits + [next];
    forall r | 0 <= r < |more| ensures FullAt(more, finished, r, maxConcurrent, total) {
      if r < |waits| {
        assert FullAt(waits, finished, r, maxConcurrent, total);
      }
      assert LeftBefore(more, finished, r) == LeftBefore(waits, finished, r);
    }
  }

  // What has been started so far, and where it leaves the bucket.
  ghost predicate Paced(bucket: Option<TokenBucket>, first: Option<real>, times: seq<real>, started: seq<real>)
    requires bucket.Some? ==> bucket.value.Valid()
    reads if bucket.Some? then {bucket.value} else {}
  {
    if bucket.Some? then
      var interval := 1.0 / bucket.value.ratePerSecond;
      && started == Schedule(first, interval, times)
      && bucket.value.nextAvailable == (if started == [] then first else Some(started[|started| - 1] + interval))
    else started == times
  }

  predicate Apart(grants: seq<real>, interval: real) {
    forall i :: 0 <= i < |grants| - 1 ==> grants[i + 1] >= grants[i] + interval
  }

  predicate After(grants: seq<real>, arrivals: seq<real>)
    requires |grants| == |arrivals|
  {
    forall i :: 0 <= i < |grants| ==> grants[i] >= arrivals[i]
  }

  predicate NotBefore(grants: seq<real>, next: Option<real>) {
    next.Some? && grants != [] ==> grants[0] >= next.value
  }

  /** No call is let through before it arrives, and successive calls, in arrival order, are let
      through at least one interval apart. */
  lemma {:induction false} ScheduleIsLegal(next: Option<real>, interval: real, arrivals: seq<real>)
    ensures var grants := Schedule(next, interval, arrivals);
            After(grants, arrivals) && Apart(grants, interval) && NotBefore(grants, next)
    decreases arrivals
  {
    if arrivals != [] {
      var g := Grant(next, arrivals[0]);
      var rest := Schedule(Some(g + interval), interval, arrivals[1..]);
      ScheduleIsLegal(Some(g + interval), interval, arrivals[1..]);
      var grants := Schedule(next, interval, arrivals);
      assert grants == [g] + rest;
      forall i | 0 <= i < |grants| ensures grants[i] >= arrivals[i] {
        if i > 0 {
          assert rest[i - 1] >= arrivals[1..][i - 1];
        }
      }
      forall i | 0 <= i < |grants| - 1 ensures grants[i + 1] >= grants[i] + interval {
        if i > 0 {
          assert rest[i] >= rest[i - 1] + interval;
        }
      }
    }
  }

  /** Every schedule that lets no call through early and keeps the interval is at least as late,
      call by call: the bucket wastes no time. */
  lemma {:induction false} ScheduleIsEarliest(
    next: Option<real>, interval: real, arrivals: seq<real>, other: seq<real>, i: nat)
    requires |other| == |arrivals| && i < |arrivals|
    requires After(other, arrivals) && Apart(other, interval) && NotBefore(other, next)
    ensures Schedule(next, interval, arrivals)[i] <= other[i]
    decreases i
  {
    var g := Grant(next, arrivals[0]);
    assert g <= other[0];
    if i > 0 {
      var rest := other[1..];
      assert other[1] >= other[0] + interval;
      assert forall j :: 0 <= j < |rest| ==> rest[j] == other[j + 1] && arrivals[1..][j] == arrivals[j + 1];
      ScheduleIsEarliest(Some(g + interval), interval, arrivals[1..], rest, i - 1);
    }
  }

  // How many calls are let through in the half-open window [from, to).
  function InWindow(grants: seq<real>, from: real, to: real): nat {
    if grants == [] then 0
    else (if from <= grants[0] < to then 1 else 0) + InWindow(grants[1..], from, to)
  }

  // The bound on calls in a window of this length; none fit in an empty one.
  function Room(rate: real, length: real): int {
    if length > 0.0 then Ceiling(length * rate) else 0
  }

  lemma {:induction false} RoomIsNat(rate: real, length: real)
    requires rate > 0.0
    ensures Room(rate, length) >= 0
  {
    if length > 0.0 {
      assert length * rate > 0.0;
    }
  }

  // One call uses up one interval of the room.
  lemma {:induction false} RoomForOneMore(rate: real, left: real, length: real)
    requires rate > 0.0 && 0.0 < left <= length
    ensures 1 + Room(rate, left - 1.0 / rate) <= Room(rate, length)
  {
    assert left * rate <= length * rate && left * rate > 0.0;
    assert (left - 1.0 / rate) * rate == left * rate - 1.0;
    assert Ceiling(left * rate - 1.0) == Ceiling(left * rate) - 1;
  }

  // All grants are at `low` or later, so only the window from there on is left.
  lemma {:induction false} WindowFrom(rate: real, grants: seq<real>, from: real, to: real, low: real)
    requires rate > 0.0 && Apart(grants, 1.0 / rate) && from <= low
    requires grants != [] ==> low <= grants[0]
    ensures InWindow(grants, from, to) <= Room(rate, to - low)
    decreases grants
  {
    RoomIsNat(rate, to - low);
    if grants != [] {
      var g := grants[0];
      var interval := 1.0 / rate;
      assert interval > 0.0;
      var rest := grants[1..];
      assert forall i :: 0 <= i < |rest| ==> rest[i] == grants[i + 1];
      WindowFrom(rate, rest, from, to, g + interval);
      assert to - (g + interval) == (to - g) - interval;
      if g < to {
        RoomForOneMore(rate, to - g, to - low);
      }
    }
  }

  lemma {:induction false} WindowOfSpaced(rate: real, grants: seq<real>, from: real, to: real)
    requires rate > 0.0 && Apart(grants, 1.0 / rate)
    ensures InWindow(grants, from, to) <= Room(rate, to - from)
    decreases grants
  {
    if grants == [] || from <= grants[0] {
      WindowFrom(rate, grants, from, to, from);
    } else {
      assert forall i :: 0 <= i < |grants[1..]| ==> grants[1..][i] == grants[i + 1];
      WindowOfSpaced(rate, grants[1..], from, to);
    }
  }

  /** Any half-open window of length L holds at most ceil(L * rate) grants. */
  lemma {:induction false} WindowBound(rate: real, arrivals: seq<real>, from: real, length: real)
    requires rate > 0.0 && length >= 0.0
    ensures InWindow(Schedule(None, 1.0 / rate, arrivals), from, from + length) <= Ceiling(length * rate)
  {
    ScheduleIsLegal(None, 1.0 / rate, arrivals);
    WindowOfSpaced(rate, Schedule(None, 1.0 / rate, arrivals), from, from + length);
    RoomIsCeiling(rate, length);
    assert from + length - from == length;
  }

  lemma {:induction false} RoomIsCeiling(rate: real, length: real)
    requires rate > 0.0 && length >= 0.0
    ensures Room(rate, length) == Ceiling(length * rate)
  {
    assert length == 0.0 ==> length * rate == 0.0;
  }
}
