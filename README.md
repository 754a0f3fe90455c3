# Grainlify API bootstrap and migration runner, modelled in Dafny

This project models two pieces of sequential decision logic from the Go
backend of Grainlify: the schema-migration runner `migrate.Up` together with
its lock-contention classifier `contains`, and the service bootstrap `main`.
Every external call is an oracle answer that the model takes as input. This
covers connecting the database and the NATS bus, loading migrations, applying
them, reading the schema version, `SET lock_timeout`, the serve/signal race and
the graceful shutdown.

- `text.dfy` (module `Text`): ASCII `strings.ToLower` and `strings.Contains`.
  `Contains` is proved equal to an independent "occurs at some offset"
  definition.
- `outcome.dfy` (module `Outcome`): the answer of an external call that
  returns only an `error`.
- `migrate.dfy` (module `Migrate`):
  - `ContainsFold` is `contains`, and `IsLockError` is the retry classifier.
  - `Up` is the imperative runner. It follows the setup chain and its
    deferred closes, then runs the `for attempt` loop as `ApplyWithRetry`,
    with `break` and `continue` as in the source.
  - Both methods are proved against the functions `UpSpec`, `Retry` and
    `Backoff`. The lemmas state what the runner promises about them.
- `bootstrap.dfy` (module `Bootstrap`):
  - `Run` is `main` as a straight-line method. It has early `return 1`
    wherever the source calls `os.Exit(1)`. It keeps a stack of deferred
    closes that only the normal return runs.
  - `Boot` is the phase-by-phase specification of `Run`: each step is taken
    exactly when the phases before it passed.
  - `RunPlan` is an independent reading of the same program: execute the full
    plan and stop right after the first failing step. `BootRunsPlan` proves
    that the two readings agree.

The apply oracle is a sequence of at least three answers, one for each
attempt `Up` may make. `Bootstrap.WellFormed` requires this of the world.

Every fatal path of `main` calls `os.Exit(1)`, which skips the deferred
closes (backend/cmd/api/main.go:56-194). So the closes run only on the clean
return.

Any value received from `errCh` ends the process with exit code 1, including
nil (backend/cmd/api/main.go:176-182). So a server exit that arrives before a
signal always gives exit code 1.

## Model

| member | source | states |
|---|---|---|
| `Text.LowerChar` | backend/internal/migrate/migrate.go:162 | ASCII upper-case letters map to their lower-case letter, every other character is kept, and the result is never an upper-case letter |
| `Text.StartsWithIffPrefix` | backend/internal/migrate/migrate.go:162 | the character-by-character prefix test holds exactly when the needle fits and equals the haystack's prefix of its length |
| `Text.ContainsIffOccurs` | backend/internal/migrate/migrate.go:162 | `strings.Contains(s, t)` holds exactly when `t` occurs in `s` at some offset |
| `Text.LowerIdempotent` | backend/internal/migrate/migrate.go:162 | lower-casing twice is the same as lower-casing once |
| `Text.LowerUnchanged` | backend/internal/migrate/migrate.go:162 | a string without upper-case letters is its own lower case |
| `Text.LowerConcat` | backend/internal/migrate/migrate.go:162 | lower-casing distributes over concatenation |
| `Text.ContainsHasChars` | backend/internal/migrate/migrate.go:162 | every character of a contained needle occurs in the haystack |
| `Text.ContainsEmpty` | backend/internal/migrate/migrate.go:162 | every string contains the empty needle |
| `Text.ContainsExtend` | backend/internal/migrate/migrate.go:162 | a substring stays a substring when text is added on either side |
| `Migrate.ContainsFoldIffOccurs` | backend/internal/migrate/migrate.go:161-163 | `contains(s, substr)` holds exactly when lower(substr) occurs in lower(s) |
| `Migrate.ContainsFoldIgnoresCase` | backend/internal/migrate/migrate.go:161-163 | lower-casing either argument beforehand does not change the answer |
| `Migrate.ContainsFoldEmpty` | backend/internal/migrate/migrate.go:161-163 | `contains(s, "")` is always true |
| `Migrate.ContainsFoldInContext` | backend/internal/migrate/migrate.go:161-163 | a match survives any text added around it |
| `Migrate.LockInsideWord` | backend/internal/migrate/migrate.go:119 | any error text with "lock" inside a word ("deadlock", "unlocked") is classified as lock contention |
| `Migrate.IsLockErrorIsContainsFold` | backend/internal/migrate/migrate.go:119 | the classifier holds exactly when `contains` finds "timeout", "lock" or "can't acquire" in the error text |
| `Migrate.LockTimeoutExceededIsLockError` | backend/internal/migrate/migrate.go:119 | "Lock Timeout Exceeded" contains "timeout" ignoring case, so it is classified as lock contention |
| `Migrate.NotLockError` | backend/internal/migrate/migrate.go:119 | a text is not lock-classified when its lower case lacks the "m" of "timeout", the "l" of "lock" and the quote of "can't acquire" |
| `Migrate.SyntaxErrorIsNotLockError` | backend/internal/migrate/migrate.go:119 | "syntax error" is not classified as lock contention |
| `Migrate.Message` | backend/internal/migrate/migrate.go:19-64 | an apply error is returned with its text unchanged; a setup error's text ends with the underlying cause it wraps |
| `Migrate.ApplyWithRetry` | backend/internal/migrate/migrate.go:97-131 | the loop's last answer and number of calls are where `Retry` stops; its sleeps are `Backoff` of that number |
| `Migrate.Up` | backend/internal/migrate/migrate.go:19-158 | result, number of apply calls, sleeps, warnings and deferred closes are those of `UpSpec` |
| `Migrate.RetryShape` | backend/internal/migrate/migrate.go:98-131 | the loop makes at most 3 calls and stops on the answer of its last call; every earlier answer was a lock-classified error; it stops early on an error only when that error is not lock-classified |
| `Migrate.RetryCalls` | backend/internal/migrate/migrate.go:98-131 | the loop makes between 1 and 3 calls |
| `Migrate.RetryStopsAt` | backend/internal/migrate/migrate.go:98-131 | conversely, lock errors on attempts 1..n-1 and a final answer on attempt n make the loop stop after exactly n calls |
| `Migrate.BackoffShape` | backend/internal/migrate/migrate.go:100-109 | the sleeps before attempts 2..n are 5 s, 10 s, ..., (a-1)*5 s before attempt a |
| `Migrate.BackoffSum` | backend/internal/migrate/migrate.go:100-109 | n attempts sleep 5n(n-1)/2 s in all |
| `Migrate.BackoffTotal` | backend/internal/migrate/migrate.go:98-109 | with at most three attempts the sleeps are none, [5 s] or [5 s, 10 s], 0, 5 or 15 s in all |
| `Migrate.UpNilPool` | backend/internal/migrate/migrate.go:20-22 | a nil pool gives "db pool is nil" with no apply call, no sleep, no warning and nothing opened |
| `Migrate.UpSetupFailureNeverApplies` | backend/internal/migrate/migrate.go:25-68 | a failing source load, driver creation or migrator creation is returned as that error, and the apply step is never called; the migration connection is closed once it has been opened |
| `Migrate.UpAttempts` | backend/internal/migrate/migrate.go:98-109 | once set up, the apply step is called 1 to 3 times with sleeps (a-1)*5 s (0, 5 or 15 s in all), and the migrator is closed before the connection |
| `Migrate.UpResultIsLastAnswer` | backend/internal/migrate/migrate.go:111-157 | Up succeeds exactly when the last answer was nil or `ErrNoChange`, otherwise it returns the last error unchanged; every earlier answer was a lock-classified error |
| `Migrate.UpStopsOnSuccess` | backend/internal/migrate/migrate.go:111-115 | nil or `ErrNoChange` on an attempt ends the loop there and Up returns nil |
| `Migrate.UpNonLockErrorReturned` | backend/internal/migrate/migrate.go:117-139 | an error that is not lock-classified is returned unchanged after the attempt that produced it, with no further attempt or sleep |
| `Migrate.UpLockErrorRetried` | backend/internal/migrate/migrate.go:119-139 | a lock-classified error on attempt 1 or 2 leads to another attempt after a sleep of 5 s times that attempt's number; on attempt 3 it is the result |
| `Migrate.UpLockTwiceThenNoChange` | backend/internal/migrate/migrate.go:98-157 | two lock timeouts followed by `ErrNoChange` give success after three calls and sleeps of 5 s and 10 s |
| `Migrate.UpSyntaxErrorNoRetry` | backend/internal/migrate/migrate.go:117-139 | a syntax error on the first attempt is returned at once: one call, no sleep |
| `Migrate.UpWarningsOnly` | backend/internal/migrate/migrate.go:71-157 | the version reads and `SET lock_timeout` never change the result, the calls, the sleeps or the closes |
| `Migrate.UpWarnings` | backend/internal/migrate/migrate.go:71-95 | a warning is logged exactly for a failed version read (a missing version is not one) and for a failed `SET lock_timeout` |
| `Bootstrap.SkipReason` | backend/cmd/api/main.go:142-150 | "NATS configured (use external worker)" when a bus URL is set, otherwise "database not available" without a database, otherwise "unknown" |
| `Bootstrap.Run` | backend/cmd/api/main.go:21-198 | the exit code and the trace of steps of `main` are those of the phase-by-phase specification `Boot` |
| `Bootstrap.InTaken` | backend/cmd/api/main.go:48-161 | a step is in the trace of a phase exactly when that phase takes it |
| `Bootstrap.StopsInStartup` | backend/cmd/api/main.go:48-122 | when a startup phase fails, nothing after the startup steps happens and the exit code is 1 |
| `Bootstrap.ExecuteShape` | backend/cmd/api/main.go:48-195 | executing steps until the first failure runs a prefix of the plan: all of it when none fails, otherwise up to and including the first failing step |
| `Bootstrap.ExecuteStopsAt` | backend/cmd/api/main.go:48-195 | when the steps before step k pass and step k fails, execution stops right after step k |
| `Bootstrap.ExecuteAll` | backend/cmd/api/main.go:48-195 | when no step fails, every step runs |
| `Bootstrap.PlanConfigRefused` | backend/cmd/api/main.go:50-57 | an empty database URL outside "dev" exits with 1 before any connect, migration, bus connect, API initialisation or serving |
| `Bootstrap.PlanDbRefused` | backend/cmd/api/main.go:61-73 | a failed database connect exits with 1 right after it |
| `Bootstrap.PlanMigrationFailed` | backend/cmd/api/main.go:83-95 | a failed migration exits with 1 right after it, before the bus |
| `Bootstrap.PlanBusFailed` | backend/cmd/api/main.go:104-113 | a failed bus connect exits with 1 after the startup steps, before the API |
| `Bootstrap.PassesUntilServe` | backend/cmd/api/main.go:48-166 | once startup passed, no step before serving fails, and serving is the last step before the race |
| `Bootstrap.PlanServerExited` | backend/cmd/api/main.go:173-183 | a server exit before any signal exits with 1 after serving, with no shutdown and no close |
| `Bootstrap.PlanShutdownFailed` | backend/cmd/api/main.go:185-195 | a failed shutdown exits with 1 after the shutdown step, with no close |
| `Bootstrap.PlanClean` | backend/cmd/api/main.go:21-198 | a signal and a successful shutdown run every planned step, then the deferred closes, and exit with 0 |
| `Bootstrap.BootRunsPlan` | backend/cmd/api/main.go:21-198 | the phase-by-phase specification and the plan executed up to its first failing step agree on every configuration and every world |
| `Bootstrap.ExitCodes` | backend/cmd/api/main.go:21-198 | the exit code is 0 or 1, and it is 0 exactly when startup passed, a signal came first and the shutdown succeeded |
| `Bootstrap.DevWithoutDatabase` | backend/cmd/api/main.go:50-60 | without a database URL in "dev" there is no connect, no migration, no worker start and no database close; without a bus URL the process reaches serving and skips the worker with "database not available" |
| `Bootstrap.MigrationsRunIff` | backend/cmd/api/main.go:61-99 | migrations run exactly when a database URL is set, the connect succeeded and AutoMigrate is on |
| `Bootstrap.NilPoolMigrationExits` | backend/cmd/api/main.go:83-95 | a connected handle with a nil pool, with AutoMigrate on, fails in `migrate.Up` and exits with 1 |
| `Bootstrap.BusAttemptedIff` | backend/cmd/api/main.go:102-122 | the bus connect is attempted exactly when a bus URL is set and the database phases passed, whatever the environment tag; its failure exits with 1 |
| `Bootstrap.WorkerRule` | backend/cmd/api/main.go:130-136 | the worker starts exactly when startup passed, no bus URL is set, a database is configured and its pool is not nil |
| `Bootstrap.SkipReasonRule` | backend/cmd/api/main.go:140-151 | the logged skip reason follows the bus URL, then the database; "unknown" occurs only for a connected handle with a nil pool and AutoMigrate off |
| `Bootstrap.RaceOutcome` | backend/cmd/api/main.go:173-197 | once serving, a server exit gives exit 1 with no shutdown and no close; a signal leads to the shutdown, and the exit code is 0 if it succeeded and 1 if it failed |
| `Bootstrap.ClosesOnlyOnCleanExit` | backend/cmd/api/main.go:78-119 | closes happen only on exit 0, and then the bus is closed exactly when a bus URL is set and the database exactly when a database URL is set |
| `Bootstrap.TakenInOrder` | backend/cmd/api/main.go:48-161 | steps taken from a phase whose steps are in rank order stay in order and within the phase's ranks |
| `Bootstrap.PhaseOrder` | backend/cmd/api/main.go:48-197 | steps happen in the fixed order database, migrations, bus, API, worker decision, serve, shutdown, bus close, database close, and none happens twice |

## Left out

- Logging (`slog`) and the `%T` error typing are not modelled. They do not affect control flow.
- Configuration loading (`config.LoadDotenv`, `config.Load`, `cfg.LogLevel`) is not modelled. The four fields that `main` branches on are inputs.
- The collaborators are oracle answers in `Migrate.Deps`, `Bootstrap.World` and the apply answers. These are `db.Connect`, `natsbus.Connect`, `iofs.New`, `postgres.WithInstance`, `migrate.NewWithInstance`, `m.Up`, `m.Version`, `sqlDB.ExecContext`, `app.Listen` and `api.Shutdown`.
- `stdlib.OpenDB` (backend/internal/migrate/migrate.go:36) and `api.New` (backend/cmd/api/main.go:125) return no error. They cannot fail, so the model has no answer for them and always takes the step after them.
- The goroutines and the channels are not modelled. The race between a signal and the server's return is one input, `World.first`.
- Signals before `signal.Notify` are not modelled. The handler is registered only at backend/cmd/api/main.go:171. A SIGINT or SIGTERM that arrives earlier gets Go's default handling. That can happen during the database connect, the up-to-15 s migration backoff or the 100 ms pause. The process then dies with no shutdown and no closes, and its exit status is neither 0 nor 1. `World.first` models only signals that arrive after serving has started. So the exit code 0 or 1 of `Bootstrap.ExitCodes` holds only for such runs.
- The background worker's own behaviour (`syncjobs.Run`) is not modelled, because its result is discarded.
- The context timeouts (10 s, 120 s, 5 s) are not modelled. Their expiry shows up only as the failure answer of the call they bound. The migration context is not passed to the apply call. `defer cancel()` releases nothing observable.
- The migration runner's `time.Sleep` calls are recorded as durations in seconds. The 100 ms pause in `main` before waiting for the race is not modelled.
- `Text.LowerChar`: lower-cases only ASCII letters, while `strings.ToLower` also folds other Unicode letters. The classifier's needles are ASCII.
- Whether `SET lock_timeout` affects the pooled connection the migrator uses is not modelled. This depends on `database/sql` pooling. Its outcome only decides a warning.
- The version read after a successful apply is carried in `Migrate.Deps.versionAfter`. It only chooses between two info log lines, so it produces no warning.
- `Migrate.Up`: the result of the deferred `m.Close()` and `sqlDB.Close()` is discarded by the source. The model records only that the closes run, and in which order.
