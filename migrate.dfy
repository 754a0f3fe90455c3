/**
 The schema-migration runner `Up` and its lock-contention classifier
 `contains` (backend/internal/migrate/migrate.go).

 Every library call `Up` makes is an oracle: loading the embedded
 migration files, creating the postgres driver and the migrator, reading
 the applied version, setting `lock_timeout`, and each call of the
 migrator's apply step (`m.Up()`), which answers `Applied` (nil),
 `NoChange` (`migrate.ErrNoChange`) or `Err(text)`.

 `Up` is the imperative runner with its retry loop; `UpSpec` is the
 function it is proved against, built from the recursive `Retry` and
 `Backoff`; the lemmas at the end state what the runner promises.
 */
module Migrate {
  import Text
  import opened Outcome

  /** `maxRetries`: the apply step is called at most this many times. */
  const MaxAttempts: nat := 3

  // ---------------------------------------------------------------------
  // The classifier
  // ---------------------------------------------------------------------

  /** `contains(s, substr)`: case-insensitive (ASCII) substring test. */
  function ContainsFold(s: string, substr: string): bool
  {
    Text.Contains(Text.Lower(s), Text.Lower(substr))
  }

  /**
   The error text looks like lock contention: its lower case contains
   "timeout", "lock" or "can't acquire". The needles are already lower case,
   so they are searched for as they are; `IsLockErrorIsContainsFold` shows
   this is the source's three `contains` calls.
   */
  predicate IsLockError(text: string)
  {
    var lowered := Text.Lower(text);
    Text.Contains(lowered, "timeout") || Text.Contains(lowered, "lock") || Text.Contains(lowered, "can't acquire")
  }

  // ---------------------------------------------------------------------
  // Oracle answers and results
  // ---------------------------------------------------------------------

  /** The answer of one call of the migrator's apply step. */
  datatype ApplyOutcome = Applied | NoChange | Err(text: string)

  /** The answer of `m.Version()`: a version, `ErrNilVersion`, or another error. */
  datatype VersionRead = Version(version: nat, dirty: bool) | NilVersion | ReadFailed(error: string)

  /** Answers of the setup calls made before the apply loop. */
  datatype Deps = Deps(
    source: Step,             // iofs.New over the embedded files
    driver: Step,             // postgres.WithInstance
    migrator: Step,           // migrate.NewWithInstance
    versionBefore: VersionRead,
    lockTimeout: Step,        // SET lock_timeout = '30s'
    versionAfter: VersionRead)

  /** The errors `Up` returns. */
  datatype UpError =
    | NilPool
    | SourceLoad(cause: string)
    | DriverCreate(cause: string)
    | MigratorCreate(cause: string)
    | ApplyFailed(text: string)

  datatype UpResult = Success | Failure(error: UpError)

  /** Warnings `Up` logs and otherwise ignores. */
  datatype Warning = VersionUnreadable(error: string) | LockTimeoutNotSet(error: string)

  /** Resources `Up` closes through its deferred calls. */
  datatype Handle = MigrationConn | Migrator

  /** Everything observable about one run of `Up`. */
  datatype Run = Run(
    result: UpResult,
    calls: nat,            // how many times the apply step was called
    waits: seq<nat>,       // the sleeps, in seconds, in the order taken
    warnings: seq<Warning>,
    closed: seq<Handle>)   // deferred closes, in the order they run

  /** Where the apply loop stopped: the last answer and how many calls were made. */
  datatype Stop = Stop(last: ApplyOutcome, calls: nat)

  /** The text of each error, as the source formats it. */
  function Message(e: UpError): (m: string)
    ensures e.ApplyFailed? ==> m == e.text
    ensures e.SourceLoad? || e.DriverCreate? || e.MigratorCreate? ==>
              |e.cause| < |m| && m[|m| - |e.cause|..] == e.cause
  {
    match e
    case NilPool => "db pool is nil"
    case SourceLoad(c) => "open embedded migrations: " + c
    case DriverCreate(c) => "create postgres migration driver: " + c
    case MigratorCreate(c) => "create migrator: " + c
    case ApplyFailed(t) => t
  }

  // ---------------------------------------------------------------------
  // Specification
  // ---------------------------------------------------------------------

  /** The apply loop from `attempt` on (attempts are numbered from 1). */
  function Retry(answers: seq<ApplyOutcome>, attempt: nat): Stop
    requires 1 <= attempt <= MaxAttempts <= |answers|
    decreases MaxAttempts - attempt
  {
    var err := answers[attempt - 1];
    if !err.Err? then Stop(err, attempt)
    else if attempt < MaxAttempts && IsLockError(err.text) then Retry(answers, attempt + 1)
    else Stop(err, attempt)
  }

  /** The sleeps taken before attempts 2..n. */
  function Backoff(n: nat): seq<nat>
  {
    if n <= 1 then [] else Backoff(n - 1) + [(n - 1) * 5]
  }

  function Total(waits: seq<nat>): nat
  {
    if waits == [] then 0 else Total(waits[..|waits| - 1]) + waits[|waits| - 1]
  }

  /** The warnings of the setup chain, in the order they are logged. */
  function SetupWarnings(deps: Deps): seq<Warning>
  {
    (if deps.versionBefore.ReadFailed? then [VersionUnreadable(deps.versionBefore.error)] else [])
    + (if deps.lockTimeout.Failed? then [LockTimeoutNotSet(deps.lockTimeout.error)] else [])
  }

  /** What a call of `Up` does, given whether the pool is non-nil and the oracles' answers. */
  function UpSpec(hasPool: bool, deps: Deps, answers: seq<ApplyOutcome>): Run
    requires MaxAttempts <= |answers|
  {
    if !hasPool then Run(Failure(NilPool), 0, [], [], [])
    else if deps.source.Failed? then Run(Failure(SourceLoad(deps.source.error)), 0, [], [], [])
    else if deps.driver.Failed? then Run(Failure(DriverCreate(deps.driver.error)), 0, [], [], [MigrationConn])
    else if deps.migrator.Failed? then Run(Failure(MigratorCreate(deps.migrator.error)), 0, [], [], [MigrationConn])
    else
      var stop := Retry(answers, 1);
      var result := if stop.last.Err? then Failure(ApplyFailed(stop.last.text)) else Success;
      Run(result, stop.calls, Backoff(stop.calls), SetupWarnings(deps), [Migrator, MigrationConn])
  }

  // ---------------------------------------------------------------------
  // The runner
  // ---------------------------------------------------------------------

  /**
   The `for attempt` loop of `Up`: call the apply step, stop on success or
   on no change, retry a lock-classified error while attempts remain,
   otherwise stop with that error.
   */
  method ApplyWithRetry(answers: seq<ApplyOutcome>) returns (lastErr: ApplyOutcome, calls: nat, waits: seq<nat>)
    requires MaxAttempts <= |answers|
    ensures Stop(lastErr, calls) == Retry(answers, 1)
    ensures waits == Backoff(calls)
  {
    lastErr := Applied;
    calls := 0;
    waits := [];
    var attempt: nat := 1;
    while attempt <= MaxAttempts
      invariant 1 <= attempt <= MaxAttempts
      invariant calls == attempt - 1
      invariant waits == Backoff(attempt - 1)
      invariant Retry(answers, attempt) == Retry(answers, 1)
    {
      if attempt > 1 {
        waits := waits + [(attempt - 1) * 5];
      }
      var err := answers[attempt - 1];
      calls := calls + 1;
      if err.Applied? || err.NoChange? {
        lastErr := err;
        break;
      }
      if attempt < MaxAttempts && IsLockError(err.text) {
        lastErr := err;
        attempt := attempt + 1;
        continue;
      }
      lastErr := err;
      break;
    }
  }

  method Up(hasPool: bool, deps: Deps, answers: seq<ApplyOutcome>) returns (run: Run)
    requires MaxAttempts <= |answers|
    ensures run == UpSpec(hasPool, deps, answers)
  {
    if !hasPool {
      return Run(Failure(NilPool), 0, [], [], []);
    }
    if deps.source.Failed? {
      return Run(Failure(SourceLoad(deps.source.error)), 0, [], [], []);
    }
    // The raw connection is opened here; its close is deferred.
    var deferred: seq<Handle> := [MigrationConn];
    if deps.driver.Failed? {
      return Run(Failure(DriverCreate(deps.driver.error)), 0, [], [], deferred);
    }
    if deps.migrator.Failed? {
      return Run(Failure(MigratorCreate(deps.migrator.error)), 0, [], [], deferred);
    }
    deferred := [Migrator] + deferred;

    var warnings: seq<Warning> := [];
    if deps.versionBefore.ReadFailed? {
      warnings := warnings + [VersionUnreadable(deps.versionBefore.error)];
    }
    if deps.lockTimeout.Failed? {
      warnings := warnings + [LockTimeoutNotSet(deps.lockTimeout.error)];
    }

    assert warnings == SetupWarnings(deps);

    var lastErr, calls, waits := ApplyWithRetry(answers);
    var result := if lastErr.Err? then Failure(ApplyFailed(lastErr.text)) else Success;
    return Run(result, calls, waits, warnings, deferred);
  }

  // ---------------------------------------------------------------------
  // The classifier's properties
  // ---------------------------------------------------------------------

  /** `contains` holds exactly when lower(substr) occurs in lower(s). */
  lemma ContainsFoldIffOccurs(s: string, substr: string)
    ensures ContainsFold(s, substr) <==> Text.Occurs(Text.Lower(s), Text.Lower(substr))
  {
    Text.ContainsIffOccurs(Text.Lower(s), Text.Lower(substr));
  }

  /** Lower-casing either argument first changes nothing. */
  lemma ContainsFoldIgnoresCase(s: string, substr: string)
    ensures ContainsFold(Text.Lower(s), substr) == ContainsFold(s, substr)
    ensures ContainsFold(s, Text.Lower(substr)) == ContainsFold(s, substr)
  {
    Text.LowerIdempotent(s);
    Text.LowerIdempotent(substr);
  }

  /** The empty needle matches every text. */
  lemma ContainsFoldEmpty(s: string)
    ensures ContainsFold(s, "")
  {
    Text.ContainsEmpty(Text.Lower(s));
  }

  /** A match survives any text added around it, so needles match inside longer words. */
  lemma ContainsFoldInContext(a: string, s: string, b: string, substr: string)
    requires ContainsFold(s, substr)
    ensures ContainsFold(a + s + b, substr)
  {
    Text.LowerConcat(a + s, b);
    Text.LowerConcat(a, s);
    Text.ContainsExtend(Text.Lower(a), Text.Lower(s), Text.Lower(b), Text.Lower(substr));
  }

  /** The classifier is `contains(errStr, "timeout") || contains(errStr, "lock") || contains(errStr, "can't acquire")`. */
  lemma IsLockErrorIsContainsFold(text: string)
    ensures IsLockError(text) <==>
              ContainsFold(text, "timeout") || ContainsFold(text, "lock") || ContainsFold(text, "can't acquire")
  {
    Text.LowerUnchanged("timeout");
    Text.LowerUnchanged("lock");
    Text.LowerUnchanged("can't acquire");
  }

  /** Any text with "lock" inside a word ("deadlock", "blocks", "unlocked") is classified as lock contention. */
  lemma LockInsideWord(before: string, after: string)
    ensures IsLockError(before + "lock" + after)
  {
    Text.LowerUnchanged("lock");
    assert ContainsFold("lock", "lock");
    ContainsFoldInContext(before, "lock", after, "lock");
    IsLockErrorIsContainsFold(before + "lock" + after);
  }

  /** The mixed-case message of a lock timeout matches "timeout", so it is classified as lock contention. */
  lemma LockTimeoutExceededIsLockError()
    ensures ContainsFold("Lock Timeout Exceeded", "timeout")
    ensures IsLockError("Lock Timeout Exceeded")
  {
    var s := "Lock Timeout Exceeded";
    Text.LowerUnchanged("timeout");
    assert Text.Lower(s)[5..12] == "timeout";
    assert Text.OccursAt(Text.Lower(s), "timeout", 5);
    Text.ContainsIffOccurs(Text.Lower(s), "timeout");
  }

  /**
   A text is not lock-classified when its lower case lacks a character of
   each needle: the "m" of "timeout", the "l" of "lock" and the quote of
   "can't acquire".
   */
  lemma NotLockError(text: string)
    requires 'm' !in Text.Lower(text) && 'l' !in Text.Lower(text) && '\'' !in Text.Lower(text)
    ensures !IsLockError(text)
  {
    var lowered := Text.Lower(text);
    if Text.Contains(lowered, "timeout") {
      Text.ContainsHasChars(lowered, "timeout", 2);
    }
    if Text.Contains(lowered, "lock") {
      Text.ContainsHasChars(lowered, "lock", 0);
    }
    if Text.Contains(lowered, "can't acquire") {
      Text.ContainsHasChars(lowered, "can't acquire", 3);
    }
  }

  /** A syntax error is not classified as lock contention. */
  lemma SyntaxErrorIsNotLockError()
    ensures !IsLockError("syntax error")
  {
    Text.LowerUnchanged("syntax error");
    NotLockError("syntax error");
  }

  // ---------------------------------------------------------------------
  // The retry loop's properties
  // ---------------------------------------------------------------------

  /**
   Where the loop started at `attempt` stops: after at most `MaxAttempts`
   calls, on the answer of its last call; every earlier answer was a
   lock-classified error; and it stops early on an error only when that
   error is not lock-classified.
   */
  lemma {:induction false} RetryShape(answers: seq<ApplyOutcome>, attempt: nat)
    requires 1 <= attempt <= MaxAttempts <= |answers|
    ensures attempt <= Retry(answers, attempt).calls <= MaxAttempts
    ensures Retry(answers, attempt).last == answers[Retry(answers, attempt).calls - 1]
    ensures forall k :: attempt - 1 <= k < Retry(answers, attempt).calls - 1 ==>
              answers[k].Err? && IsLockError(answers[k].text)
    ensures Retry(answers, attempt).last.Err? && Retry(answers, attempt).calls < MaxAttempts ==>
              !IsLockError(Retry(answers, attempt).last.text)
    decreases MaxAttempts - attempt
  {
    var err := answers[attempt - 1];
    if err.Err? && attempt < MaxAttempts && IsLockError(err.text) {
      RetryShape(answers, attempt + 1);
    }
  }

  /** The number of calls alone: between `attempt` and `MaxAttempts`. */
  lemma {:induction false} RetryCalls(answers: seq<ApplyOutcome>, attempt: nat)
    requires 1 <= attempt <= MaxAttempts <= |answers|
    ensures attempt <= Retry(answers, attempt).calls <= MaxAttempts
    decreases MaxAttempts - attempt
  {
    if attempt < MaxAttempts {
      RetryCalls(answers, attempt + 1);
    }
  }

  /**
   Conversely, if attempts 1..n-1 all failed with lock-classified errors
   and attempt n succeeded, found nothing to do, failed otherwise or was
   the last one allowed, the loop stops after exactly n calls.
   */
  lemma {:induction false} RetryStopsAt(answers: seq<ApplyOutcome>, attempt: nat, n: nat)
    requires 1 <= attempt <= n <= MaxAttempts <= |answers|
    requires forall k :: attempt - 1 <= k < n - 1 ==> answers[k].Err? && IsLockError(answers[k].text)
    requires answers[n - 1].Err? && n < MaxAttempts ==> !IsLockError(answers[n - 1].text)
    ensures Retry(answers, attempt) == Stop(answers[n - 1], n)
    decreases n - attempt
  {
    if attempt < n {
      RetryStopsAt(answers, attempt + 1, n);
    }
  }

  /** The sleeps before attempts 2..n are 5 s, 10 s, ...: (a - 1) * 5 s before attempt a. */
  lemma {:induction false} BackoffShape(n: nat)
    ensures |Backoff(n)| == if n == 0 then 0 else n - 1
    ensures forall i :: 0 <= i < |Backoff(n)| ==> Backoff(n)[i] == (i + 1) * 5
  {
    if n > 1 {
      BackoffShape(n - 1);
    }
  }

  /** In all, n attempts sleep 5 n (n - 1) / 2 seconds. */
  lemma {:induction false} BackoffSum(n: nat)
    requires n >= 1
    ensures 2 * Total(Backoff(n)) == 5 * n * (n - 1)
  {
    if n > 1 {
      BackoffSum(n - 1);
      BackoffShape(n - 1);
      var waits := Backoff(n);
      assert waits[..|waits| - 1] == Backoff(n - 1);
      assert 2 * Total(waits) == 2 * Total(Backoff(n - 1)) + 10 * (n - 1);
      NextSum(n - 1);
    }
  }

  /** The step of `BackoffSum`: 5 m (m - 1) + 10 m == 5 (m + 1) m. */
  lemma NextSum(m: int)
    ensures 5 * m * (m - 1) + 10 * m == 5 * (m + 1) * m
  {
  }

  /** With at most three attempts the sleeps are none, 5 s, or 5 s then 10 s: 0, 5 or 15 seconds in all. */
  lemma BackoffTotal(n: nat)
    requires 1 <= n <= MaxAttempts
    ensures Backoff(n) == if n == 1 then [] else if n == 2 then [5] else [5, 10]
    ensures Total(Backoff(n)) == if n == 1 then 0 else if n == 2 then 5 else 15
  {
    if n == 2 {
      assert Backoff(2) == [] + [5];
      assert Total([5]) == Total([]) + 5;
    } else if n == 3 {
      assert Backoff(2) == [] + [5];
      assert Backoff(3) == [5] + [10];
      assert [5, 10][..1] == [5];
      assert Total([5]) == Total([]) + 5;
    }
  }

  // ---------------------------------------------------------------------
  // Up's properties
  // ---------------------------------------------------------------------

  /** All setup steps that can fail fatally succeeded. */
  predicate SetupSucceeds(hasPool: bool, deps: Deps)
  {
    hasPool && deps.source.Done? && deps.driver.Done? && deps.migrator.Done?
  }

  /** A nil pool is refused before anything else happens. */
  lemma UpNilPool(deps: Deps, answers: seq<ApplyOutcome>)
    requires MaxAttempts <= |answers|
    ensures UpSpec(false, deps, answers) == Run(Failure(NilPool), 0, [], [], [])
  {
  }

  /**
   A failing fatal setup step is returned as an error and the apply step
   is never called; the migration connection, once opened, is still closed.
   */
  lemma UpSetupFailureNeverApplies(hasPool: bool, deps: Deps, answers: seq<ApplyOutcome>)
    requires MaxAttempts <= |answers|
    requires !SetupSucceeds(hasPool, deps)
    ensures UpSpec(hasPool, deps, answers).result.Failure?
    ensures UpSpec(hasPool, deps, answers).calls == 0 && UpSpec(hasPool, deps, answers).waits == []
    ensures hasPool && deps.source.Failed? ==>
              UpSpec(hasPool, deps, answers).result.error == SourceLoad(deps.source.error)
    ensures hasPool && deps.source.Done? && deps.driver.Failed? ==>
              UpSpec(hasPool, deps, answers).result.error == DriverCreate(deps.driver.error)
    ensures hasPool && deps.source.Done? && deps.driver.Done? && deps.migrator.Failed? ==>
              UpSpec(hasPool, deps, answers).result.error == MigratorCreate(deps.migrator.error)
    ensures UpSpec(hasPool, deps, answers).closed == if hasPool && deps.source.Done? then [MigrationConn] else []
  {
  }

  /**
   Once set up, the apply step is called one to three times; the sleeps
   are (a - 1) * 5 s before each attempt a > 1, so 0, 5 or 15 s in all;
   and both deferred closes run, the migrator's first.
   */
  lemma UpAttempts(hasPool: bool, deps: Deps, answers: seq<ApplyOutcome>)
    requires MaxAttempts <= |answers|
    requires SetupSucceeds(hasPool, deps)
    ensures var run := UpSpec(hasPool, deps, answers);
      && 1 <= run.calls <= MaxAttempts
      && |run.waits| == run.calls - 1
      && (forall i :: 0 <= i < |run.waits| ==> run.waits[i] == (i + 1) * 5)
      && Total(run.waits) in {0, 5, 15}
      && run.closed == [Migrator, MigrationConn]
  {
    var calls := Retry(answers, 1).calls;
    RetryCalls(answers, 1);
    BackoffShape(calls);
    BackoffTotal(calls);
  }

  /**
   Up succeeds exactly when the last answer was `Applied` or `NoChange`;
   otherwise it returns the last error text unchanged. Every call before
   the last failed with a lock-classified error.
   */
  lemma UpResultIsLastAnswer(hasPool: bool, deps: Deps, answers: seq<ApplyOutcome>)
    requires MaxAttempts <= |answers|
    requires SetupSucceeds(hasPool, deps)
    ensures var run := UpSpec(hasPool, deps, answers);
      && 1 <= run.calls <= MaxAttempts
      && (run.result.Success? <==> !answers[run.calls - 1].Err?)
      && (run.result.Failure? ==> run.result.error == ApplyFailed(answers[run.calls - 1].text))
      && (forall k :: 0 <= k < run.calls - 1 ==> answers[k].Err? && IsLockError(answers[k].text))
  {
    RetryShape(answers, 1);
  }

  /** `Applied` or `NoChange` on attempt k + 1, after lock errors only, ends the loop there with success. */
  lemma UpStopsOnSuccess(hasPool: bool, deps: Deps, answers: seq<ApplyOutcome>, k: nat)
    requires MaxAttempts <= |answers|
    requires SetupSucceeds(hasPool, deps)
    requires k < MaxAttempts && !answers[k].Err?
    requires forall j :: 0 <= j < k ==> answers[j].Err? && IsLockError(answers[j].text)
    ensures UpSpec(hasPool, deps, answers).result == Success
    ensures UpSpec(hasPool, deps, answers).calls == k + 1
  {
    RetryStopsAt(answers, 1, k + 1);
  }

  /** An error that is not lock-classified is returned unchanged after the attempt that produced it. */
  lemma UpNonLockErrorReturned(hasPool: bool, deps: Deps, answers: seq<ApplyOutcome>, k: nat)
    requires MaxAttempts <= |answers|
    requires SetupSucceeds(hasPool, deps)
    requires k < MaxAttempts && answers[k].Err? && !IsLockError(answers[k].text)
    requires forall j :: 0 <= j < k ==> answers[j].Err? && IsLockError(answers[j].text)
    ensures UpSpec(hasPool, deps, answers).result == Failure(ApplyFailed(answers[k].text))
    ensures UpSpec(hasPool, deps, answers).calls == k + 1
    ensures UpSpec(hasPool, deps, answers).waits == Backoff(k + 1)
  {
    RetryStopsAt(answers, 1, k + 1);
  }

  /**
   A lock-classified error on attempt 1 or 2 leads to another attempt after
   a sleep of 5 s times that attempt's number; on attempt 3 it is the result.
   */
  lemma UpLockErrorRetried(hasPool: bool, deps: Deps, answers: seq<ApplyOutcome>, k: nat)
    requires MaxAttempts <= |answers|
    requires SetupSucceeds(hasPool, deps)
    requires k < MaxAttempts
    requires forall j :: 0 <= j <= k ==> answers[j].Err? && IsLockError(answers[j].text)
    ensures k + 1 < MaxAttempts ==>
              UpSpec(hasPool, deps, answers).calls > k + 1 &&
              UpSpec(hasPool, deps, answers).waits[k] == (k + 1) * 5
    ensures k + 1 == MaxAttempts ==>
              UpSpec(hasPool, deps, answers).result == Failure(ApplyFailed(answers[k].text)) &&
              UpSpec(hasPool, deps, answers).calls == MaxAttempts
  {
    if k == 0 {
      // The first answer is a lock error, so the loop goes on to a second call.
      RetryShape(answers, 1);
    } else {
      // The first two answers are lock errors, so the loop makes all three calls.
      RetryStopsAt(answers, 1, MaxAttempts);
    }
    BackoffTotal(Retry(answers, 1).calls);
  }

  /**
   Two lock errors (such as "Lock Timeout Exceeded") and then nothing to do:
   success on the third call, after sleeping 5 s and then 10 s.
   */
  lemma UpLockTwiceThenNoChange(deps: Deps, lockError: string)
    requires SetupSucceeds(true, deps) && IsLockError(lockError)
    ensures var run := UpSpec(true, deps, [Err(lockError), Err(lockError), NoChange]);
      run.result == Success && run.calls == 3 && run.waits == [5, 10]
  {
    RetryStopsAt([Err(lockError), Err(lockError), NoChange], 1, 3);
    BackoffTotal(3);
  }

  /** A syntax error on the first attempt is returned at once: one call, no sleep. */
  lemma UpSyntaxErrorNoRetry(deps: Deps, answers: seq<ApplyOutcome>)
    requires MaxAttempts <= |answers|
    requires SetupSucceeds(true, deps)
    requires answers[0] == Err("syntax error")
    ensures UpSpec(true, deps, answers) ==
              Run(Failure(ApplyFailed("syntax error")), 1, [], SetupWarnings(deps), [Migrator, MigrationConn])
  {
    SyntaxErrorIsNotLockError();
  }

  /**
   The version reads and `SET lock_timeout` only produce warnings: setup
   answers that differ in them give the same result, calls, sleeps and closes.
   */
  lemma UpWarningsOnly(hasPool: bool, d1: Deps, d2: Deps, answers: seq<ApplyOutcome>)
    requires MaxAttempts <= |answers|
    requires d1.source == d2.source && d1.driver == d2.driver && d1.migrator == d2.migrator
    ensures UpSpec(hasPool, d1, answers).result == UpSpec(hasPool, d2, answers).result
    ensures UpSpec(hasPool, d1, answers).calls == UpSpec(hasPool, d2, answers).calls
    ensures UpSpec(hasPool, d1, answers).waits == UpSpec(hasPool, d2, answers).waits
    ensures UpSpec(hasPool, d1, answers).closed == UpSpec(hasPool, d2, answers).closed
  {
  }

  /** Warnings are logged for a failed version read (a missing version is not one) and a failed `SET lock_timeout`. */
  lemma UpWarnings(hasPool: bool, deps: Deps, answers: seq<ApplyOutcome>)
    requires MaxAttempts <= |answers|
    requires SetupSucceeds(hasPool, deps)
    ensures var w := UpSpec(hasPool, deps, answers).warnings;
      && (exists e :: VersionUnreadable(e) in w) == deps.versionBefore.ReadFailed?
      && (exists e :: LockTimeoutNotSet(e) in w) == deps.lockTimeout.Failed?
  {
    var w := UpSpec(hasPool, deps, answers).warnings;
    if deps.versionBefore.ReadFailed? {
      assert VersionUnreadable(deps.versionBefore.error) in w;
    }
    if deps.lockTimeout.Failed? {
      assert LockTimeoutNotSet(deps.lockTimeout.error) in w;
    }
  }
}
