/** Schema migrations: validation, one transactional `bootstrap`, and what a history of them
    executes. */
module Migrations {
  import opened Wrappers

  datatype Migration = Migration(version: string, statements: seq<string>)

  // What a run sends to the database for one migration: its statements, then its marker.
  datatype Command = Statement(text: string) | Marker(version: string)

  datatype Error = NotUnique | NotOrdered | UnknownVersions(versions: set<string>) | CommandFailed

  // The committed state: the version markers and every command that took effect, in order.
  datatype Schema = Schema(applied: set<string>, executed: seq<Command>)

  const EmptySchema := Schema({}, [])

  function Versions(ms: seq<Migration>): set<string> {
    set i | 0 <= i < |ms| :: ms[i].version
  }

  // ----- `_validate_migrations`

  predicate Before(a: string, b: string) {
    if a == [] then b != []
    else if b == [] then false
    else a[0] < b[0] || (a[0] == b[0] && Before(a[1..], b[1..]))
  }

  predicate Unique(ms: seq<Migration>) {
    forall i, j :: 0 <= i < j < |ms| ==> ms[i].version != ms[j].version
  }

  // `versions == sorted(versions)`
  predicate Ordered(ms: seq<Migration>) {
    forall i, j :: 0 <= i < j < |ms| ==> !Before(ms[j].version, ms[i].version)
  }

  function Validate(ms: seq<Migration>): Option<Error> {
    if !Unique(ms) then Some(NotUnique) else if !Ordered(ms) then Some(NotOrdered) else None
  }

  lemma {:induction false} BeforeIrreflexive(a: string)
    ensures !Before(a, a)
  {
    if a != [] {
      BeforeIrreflexive(a[1..]);
    }
  }

  lemma {:induction false} BeforeTotal(a: string, b: string)
    ensures a == b || Before(a, b) || Before(b, a)
  {
    if a != [] && b != [] && a[0] == b[0] {
      BeforeTotal(a[1..], b[1..]);
      assert a[1..] == b[1..] ==> a == [a[0]] + a[1..] == [b[0]] + b[1..] == b;
    }
  }

  // The first place where a is smaller, everything before it equal.
  predicate SmallerAt(a: string, b: string, k: nat) {
    k < |a| && k < |b| && a[..k] == b[..k] && a[k] < b[k]
  }

  lemma {:induction false} SmallerIsBefore(a: string, b: string, k: nat)
    requires SmallerAt(a, b, k)
    ensures Before(a, b)
  {
    if k > 0 {
      assert a[0] == a[..k][0] == b[..k][0];
      assert a[1..][..k - 1] == a[..k][1..] && b[1..][..k - 1] == b[..k][1..];
      SmallerIsBefore(a[1..], b[1..], k - 1);
    }
  }

  lemma {:induction false} PrefixIsBefore(a: string, b: string)
    requires |a| < |b| && a == b[..|a|]
    ensures Before(a, b)
  {
    if a != [] {
      assert a[1..] == b[1..][..|a| - 1];
      PrefixIsBefore(a[1..], b[1..]);
    }
  }

  lemma {:induction false} BeforeSplits(a: string, b: string)
    requires Before(a, b)
    ensures (|a| < |b| && a == b[..|a|]) || exists k: nat :: SmallerAt(a, b, k)
  {
    if a != [] {
      if a[0] < b[0] {
        assert SmallerAt(a, b, 0);
      } else {
        BeforeSplits(a[1..], b[1..]);
        assert a == [a[0]] + a[1..] && b == [b[0]] + b[1..];
        if k: nat :| SmallerAt(a[1..], b[1..], k) {
          assert a[..k + 1] == [a[0]] + a[1..][..k] && b[..k + 1] == [b[0]] + b[1..][..k];
          assert SmallerAt(a, b, k + 1);
        }
      }
    }
  }

  /** Versions are ordered as strings are: a proper prefix first, then by the first character that
      differs. */
  lemma {:induction false} BeforeIsLexicographic(a: string, b: string)
    ensures Before(a, b) <==> (|a| < |b| && a == b[..|a|]) || exists k: nat :: SmallerAt(a, b, k)
  {
    if Before(a, b) {
      BeforeSplits(a, b);
    }
    if |a| < |b| && a == b[..|a|] {
      PrefixIsBefore(a, b);
    }
    if k: nat :| SmallerAt(a, b, k) {
      SmallerIsBefore(a, b, k);
    }
  }

  /** A list passes exactly when its versions strictly increase; a repeated version is reported first. */
  lemma {:induction false} ValidIncreasing(ms: seq<Migration>)
    ensures Validate(ms).None? <==> forall i, j :: 0 <= i < j < |ms| ==> Before(ms[i].version, ms[j].version)
    ensures Validate(ms) == Some(NotUnique) <==> exists i, j :: 0 <= i < j < |ms| && ms[i].version == ms[j].version
  {
    if Validate(ms).None? {
      forall i, j | 0 <= i < j < |ms| ensures Before(ms[i].version, ms[j].version) {
        BeforeTotal(ms[i].version, ms[j].version);
      }
    } else {
      if !Unique(ms) {
        var i, j :| 0 <= i < j < |ms| && ms[i].version == ms[j].version;
        BeforeIrreflexive(ms[i].version);
        assert !Before(ms[i].version, ms[j].version);
      } else {
        var i, j :| 0 <= i < j < |ms| && Before(ms[j].version, ms[i].version);
        BeforeAsymmetric(ms[j].version, ms[i].version);
      }
    }
  }

  lemma {:induction false} BeforeAsymmetric(a: string, b: string)
    requires Before(a, b)
    ensures !Before(b, a)
  {
    if a != [] && b != [] && a[0] == b[0] {
      BeforeAsymmetric(a[1..], b[1..]);
    }
  }

  // ----- `bootstrap`

  // The first k commands of a migration; the marker comes last.
  function CommandsTo(m: Migration, k: nat): (r: seq<Command>)
    requires k <= |m.statements| + 1
    ensures |r| == k
  {
    if k == 0 then []
    else CommandsTo(m, k - 1) + [if k <= |m.statements| then Statement(m.statements[k - 1]) else Marker(m.version)]
  }

  function Commands(m: Migration): seq<Command> {
    CommandsTo(m, |m.statements| + 1)
  }

  /** A migration is its statements, in the order they are listed, and then its marker. */
  lemma {:induction false} StatementsThenMarker(m: Migration)
    ensures |Commands(m)| == |m.statements| + 1 && Commands(m)[|m.statements|] == Marker(m.version)
    ensures forall k :: 0 <= k < |m.statements| ==> Commands(m)[k] == Statement(m.statements[k])
  {
    forall k | 0 <= k < |m.statements| ensures Commands(m)[k] == Statement(m.statements[k]) {
      CommandAt(m, |m.statements| + 1, k);
    }
  }

  lemma {:induction false} CommandAt(m: Migration, n: nat, k: nat)
    requires k < n <= |m.statements| + 1 && k < |m.statements|
    ensures CommandsTo(m, n)[k] == Statement(m.statements[k])
  {
    if k < n - 1 {
      CommandAt(m, n - 1, k);
    }
  }

  // The commands of the first n migrations that are not applied yet, in order.
  function PendingTo(applied: set<string>, ms: seq<Migration>, n: nat): seq<Command>
    requires n <= |ms|
  {
    if n == 0 then []
    else if ms[n - 1].version in applied then PendingTo(applied, ms, n - 1)
    else PendingTo(applied, ms, n - 1) + Commands(ms[n - 1])
  }

  function Pending(applied: set<string>, ms: seq<Migration>): seq<Command> {
    PendingTo(applied, ms, |ms|)
  }

  lemma {:induction false} PendingOfPrefix(applied: set<string>, ms: seq<Migration>, m: nat, n: nat)
    requires n <= m <= |ms|
    ensures PendingTo(applied, ms[..m], n) == PendingTo(applied, ms, n)
  {
    if n > 0 {
      PendingOfPrefix(applied, ms, m, n - 1);
    }
  }

  /** One run. `failAt` is the place among the run's commands at which one raises, the place after
      the last being the commit; a run that raises anywhere is rolled back. */
  function Bootstrap(schema: Schema, ms: seq<Migration>, failAt: Option<nat>): (Schema, Option<Error>) {
    var invalid := Validate(ms);
    var unknown := schema.applied - Versions(ms);
    var pending := Pending(schema.applied, ms);
    if invalid.Some? then (schema, invalid)
    else if unknown != {} then (schema, Some(UnknownVersions(unknown)))
    else if failAt.Some? && failAt.value <= |pending| then (schema, Some(CommandFailed))
    else (Schema(schema.applied + Versions(ms), schema.executed + pending), None)
  }

  class SchemaStore {
    var applied: set<string>      // rows of `schema_migrations`
    var executed: seq<Command>    // commands committed so far

    constructor ()
      ensures Contents() == EmptySchema
    {
      applied, executed := {}, [];
    }

    function Contents(): Schema
      reads this
    {
      Schema(applied, executed)
    }

    // One migration's statements and its marker, inside the transaction.
    static method Execute(before: seq<Command>, m: Migration, failAt: Option<nat>)
      returns (ran: seq<Command>, ok: bool)
      requires failAt.Some? ==> |before| <= failAt.value
      ensures ok ==> ran == before + Commands(m)
      ensures ok <==> failAt.Some? ==> |before| + |Commands(m)| <= failAt.value
    {
      ran := before;
      for j := 0 to |m.statements|
        invariant ran == before + CommandsTo(m, j)
        invariant failAt.Some? ==> |ran| <= failAt.value
      {
        if failAt == Some(|ran|) {
          return ran, false;
        }
        ran := ran + [Statement(m.statements[j])];
      }
      if failAt == Some(|ran|) {
        return ran, false;
      }
      ran := ran + [Marker(m.version)];
      ok := true;
    }

    method ApplyMigrations(ms: seq<Migration>, failAt: Option<nat>) returns (error: Option<Error>)
      modifies this
      ensures (Contents(), error) == Bootstrap(old(Contents()), ms, failAt)
    {
      var invalid := Validate(ms);
      if invalid.Some? {
        return invalid;
      }
      var appliedVersions := applied;
      var unknown := appliedVersions - Versions(ms);
      if unknown != {} {
        return Some(UnknownVersions(unknown));
      }
      // The transaction's own view; it reaches the fields only on commit.
      var marked := appliedVersions;
      var ran: seq<Command> := [];
      for i := 0 to |ms|
        invariant ran == PendingTo(appliedVersions, ms, i)
        invariant marked == appliedVersions + Versions(ms[..i])
        invariant failAt.Some? ==> |ran| <= failAt.value
        invariant Contents() == old(Contents())
      {
        var migration := ms[i];
        VersionsStep(ms, i);
        PendingGrows(appliedVersions, ms, i + 1);
        if migration.version !in appliedVersions {
          var ok := false;
          ran, ok := Execute(ran, migration, failAt);
          if !ok {
            return Some(CommandFailed);
          }
          marked := marked + {migration.version};
        }
      }
      assert ms[..|ms|] == ms;
      if failAt == Some(|ran|) {
        return Some(CommandFailed);
      }
      applied, executed := marked, executed + ran;
      error := None;
    }
  }

  lemma {:induction false} VersionsStep(ms: seq<Migration>, i: nat)
    requires i < |ms|
    ensures Versions(ms[..i + 1]) == Versions(ms[..i]) + {ms[i].version}
  {
    var a := Versions(ms[..i + 1]);
    var b := Versions(ms[..i]) + {ms[i].version};
    forall v | v in b ensures v in a {
      if v == ms[i].version {
        assert ms[..i + 1][i].version == v;
      } else {
        var k :| 0 <= k < i && ms[..i][k].version == v;
        assert ms[..i + 1][k].version == v;
      }
    }
    forall v | v in a ensures v in b {
      var k :| 0 <= k < i + 1 && ms[..i + 1][k].version == v;
      if k < i {
        assert ms[..i][k].version == v;
      }
    }
  }

  lemma {:induction false} PendingGrows(applied: set<string>, ms: seq<Migration>, i: nat)
    requires i <= |ms|
    ensures |PendingTo(applied, ms, i)| <= |Pending(applied, ms)|
    decreases |ms| - i
  {
    if i < |ms| {
      PendingGrows(applied, ms, i + 1);
    }
  }

  // ----- a history of runs

  // Each run is given a prefix of the last list, of this length.
  datatype Attempt = Attempt(upTo: nat, failAt: Option<nat>)

  function Runs(schema: Schema, last: seq<Migration>, attempts: seq<Attempt>): Schema
    requires forall i :: 0 <= i < |attempts| ==> attempts[i].upTo <= |last|
  {
    if attempts == [] then schema
    else
      Bootstrap(Runs(schema, last, attempts[..|attempts| - 1]),
                last[..attempts[|attempts| - 1].upTo], attempts[|attempts| - 1].failAt).0
  }

  // The lists grow: each is a prefix of the next.
  predicate Growing(attempts: seq<Attempt>) {
    forall i, j :: 0 <= i < j < |attempts| ==> attempts[i].upTo <= attempts[j].upTo
  }

  // The database holds exactly the first n migrations.
  predicate Holds(schema: Schema, last: seq<Migration>, n: nat)
    requires n <= |last|
  {
    schema.applied == Versions(last[..n]) && schema.executed == PendingTo({}, last, n)
  }

  lemma {:induction false} PendingSplits(last: seq<Migration>, n: nat, m: nat)
    requires Unique(last) && n <= m <= |last|
    ensures PendingTo({}, last, m) == PendingTo({}, last, n) + PendingTo(Versions(last[..n]), last, m)
  {
    if m == n {
      NothingPending(last, n, n);
    } else {
      PendingSplits(last, n, m - 1);
      assert last[m - 1].version !in Versions(last[..n]);
      var first, rest := PendingTo({}, last, n), PendingTo(Versions(last[..n]), last, m - 1);
      assert first + rest + Commands(last[m - 1]) == first + (rest + Commands(last[m - 1]));
    }
  }

  lemma {:induction false} NothingPending(last: seq<Migration>, n: nat, m: nat)
    requires m <= n <= |last|
    ensures PendingTo(Versions(last[..n]), last, m) == []
  {
    if m > 0 {
      NothingPending(last, n, m - 1);
      assert last[..n][m - 1].version == last[m - 1].version;
    }
  }

  lemma {:induction false} VersionsGrow(last: seq<Migration>, n: nat, m: nat)
    requires n <= m <= |last|
    ensures Versions(last[..n]) <= Versions(last[..m])
  {
    forall v | v in Versions(last[..n]) ensures v in Versions(last[..m]) {
      var k :| 0 <= k < n && last[..n][k].version == v;
      assert last[..m][k].version == v;
    }
  }

  // From the first n migrations, a run of the first m >= n reaches m or changes nothing.
  lemma {:induction false} RunHolds(schema: Schema, last: seq<Migration>, n: nat, m: nat, failAt: Option<nat>)
    requires Validate(last).None? && n <= m <= |last| && Holds(schema, last, n)
    ensures var (after, error) := Bootstrap(schema, last[..m], failAt);
            if error.None? then Holds(after, last, m) else after == schema
    ensures failAt.None? ==> Bootstrap(schema, last[..m], failAt).1.None?
  {
    VersionsGrow(last, n, m);
    PendingSplits(last, n, m);
    PendingOfPrefix(schema.applied, last, m, m);
    assert Versions(last[..n]) + Versions(last[..m]) == Versions(last[..m]);
    assert Validate(last[..m]).None?;
  }

  lemma {:induction false} RunsHold(last: seq<Migration>, attempts: seq<Attempt>) returns (n: nat)
    requires Validate(last).None? && Growing(attempts)
    requires forall i :: 0 <= i < |attempts| ==> attempts[i].upTo <= |last|
    ensures n <= |last| && Holds(Runs(EmptySchema, last, attempts), last, n)
    ensures attempts == [] ==> n == 0
    ensures attempts != [] ==> n <= attempts[|attempts| - 1].upTo
  {
    if attempts == [] {
      n := 0;
    } else {
      var k := |attempts| - 1;
      n := RunsHold(last, attempts[..k]);
      if k > 0 {
        assert attempts[k - 1].upTo <= attempts[k].upTo;
      }
      var before := Runs(EmptySchema, last, attempts[..k]);
      RunHolds(before, last, n, attempts[k].upTo, attempts[k].failAt);
      if Bootstrap(before, last[..attempts[k].upTo], attempts[k].failAt).1.None? {
        n := attempts[k].upTo;
      }
    }
  }

  /** Any history of runs over growing lists, repeated and rolled back as it may be, that ends
      with an undisturbed run of the last list has executed exactly what one fresh run of that
      list executes: the same statements and markers, in the same order, once each. */
  lemma {:induction false} MigrationsCompose(last: seq<Migration>, attempts: seq<Attempt>)
    requires Validate(last).None? && Growing(attempts) && attempts != []
    requires forall i :: 0 <= i < |attempts| ==> attempts[i].upTo <= |last|
    requires attempts[|attempts| - 1] == Attempt(|last|, None)
    ensures Runs(EmptySchema, last, attempts) == Bootstrap(EmptySchema, last, None).0
    ensures Runs(EmptySchema, last, attempts).executed == Pending({}, last)
  {
    var k := |attempts| - 1;
    var n := RunsHold(last, attempts[..k]);
    assert last[..|last|] == last;
    RunHolds(Runs(EmptySchema, last, attempts[..k]), last, n, |last|, None);
    assert last[..0] == [];
    RunHolds(EmptySchema, last, 0, |last|, None);
  }

  /** A run changes nothing exactly when it raises or finds nothing to do; an applied version that
      the list does not know is one way to raise, whatever else the list holds. */
  lemma {:induction false} UnknownVersionChangesNothing(schema: Schema, ms: seq<Migration>, failAt: Option<nat>)
    requires Validate(ms).None?
    ensures var (after, error) := Bootstrap(schema, ms, failAt);
            && (!(schema.applied <= Versions(ms)) <==> error.Some? && error.value.UnknownVersions?)
            && (error.Some? ==> after == schema)
            && (after == schema <==> error.Some? || (Versions(ms) <= schema.applied))
  {
    var (after, error) := Bootstrap(schema, ms, failAt);
    assert schema.applied - Versions(ms) == {} <==> schema.applied <= Versions(ms) by {
      assert forall v :: v in schema.applied && v !in Versions(ms) ==> v in schema.applied - Versions(ms);
    }
    if error.None? {
      if Versions(ms) <= schema.applied {
        AllAppliedPending(schema.applied, ms);
        assert schema.applied + Versions(ms) == schema.applied;
      }
      assert Versions(ms) <= schema.applied + Versions(ms);
    }
  }

  lemma {:induction false} AllAppliedPending(applied: set<string>, ms: seq<Migration>)
    requires Versions(ms) <= applied
    ensures Pending(applied, ms) == []
  {
    if ms != [] {
      var n := |ms| - 1;
      assert ms[..n + 1] == ms;
      VersionsStep(ms, n);
      AllAppliedPending(applied, ms[..n]);
      PendingOfPrefix(applied, ms, n, n);
    }
  }
}
