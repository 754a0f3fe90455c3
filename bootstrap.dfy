/**
 The service bootstrap `main` (backend/cmd/api/main.go): connect the
 database, run migrations, connect the event bus, initialise the API,
 decide whether to start the in-process worker, serve, wait for a signal
 or a server exit, shut down.

 The configuration fields that drive the branches are inputs; every
 external call is an oracle answer in a `World`. `Run` is `main` written
 as the straight-line method it is, with early `return`s where the source
 calls `os.Exit(1)` and a stack of deferred closes that only a normal
 return runs. `Boot` is its specification, phase by phase: each step is
 taken exactly when the phases before it passed. `RunPlan` is an
 independent reading of the same program, the full plan of steps executed
 until the first one that fails, and `BootRunsPlan` shows the two agree.
 */
module Bootstrap {
  import opened Outcome
  import Migrate

  /** The environment tag under which a missing database URL is allowed. */
  const DevEnv: string := "dev"

  const NatsConfigured: string := "NATS configured (use external worker)"
  const DatabaseNotAvailable: string := "database not available"
  const UnknownReason: string := "unknown"

  /** The configuration fields `main` branches on. */
  datatype Config = Config(dbURL: string, env: string, autoMigrate: bool, natsURL: string)

  /** The answer of `db.Connect`: a handle whose `Pool` is or is not nil, or an error. */
  datatype DbConnect = DbConnected(hasPool: bool) | DbRefused(error: string)

  /** Which case of the final `select` fires first. */
  datatype Event = Signal | ServerExit

  /** The answers of every external call `main` makes. */
  datatype World = World(
    db: DbConnect,
    migration: Migrate.Deps,                 // the setup calls inside `migrate.Up`
    applies: seq<Migrate.ApplyOutcome>,      // the apply calls inside `migrate.Up`
    bus: Step,                               // natsbus.Connect
    first: Event,                            // signal.Notify versus app.Listen returning
    shutdown: Step)                          // api.Shutdown within its 5 s budget

  /** The apply oracle has an answer for every attempt `migrate.Up` may make. */
  predicate WellFormed(w: World)
  {
    Migrate.MaxAttempts <= |w.applies|
  }

  /** The externally visible steps of `main`, in the order they can happen. */
  datatype Action =
    | ConnectDb
    | RunMigrations
    | ConnectBus
    | InitApi
    | StartWorker
    | SkipWorker(reason: string)
    | Serve
    | Shutdown
    | CloseBus
    | CloseDb

  /** How the process ends: its exit code and the steps it took. */
  datatype Exit = Exit(code: int, trace: seq<Action>)

  /** The reason logged when the background worker is not started. */
  function SkipReason(natsConfigured: bool, haveDatabase: bool): (r: string)
    ensures natsConfigured ==> r == NatsConfigured
    ensures !natsConfigured && !haveDatabase ==> r == DatabaseNotAvailable
    ensures !natsConfigured && haveDatabase ==> r == UnknownReason
  {
    if natsConfigured then NatsConfigured
    else if !haveDatabase then DatabaseNotAvailable
    else UnknownReason
  }

  // ---------------------------------------------------------------------
  // Specification, phase by phase
  // ---------------------------------------------------------------------

  /** A missing database URL outside the development environment. */
  predicate DbRequiredMissing(cfg: Config)
  {
    cfg.dbURL == "" && cfg.env != DevEnv
  }

  /** The connect returned a handle with a non-nil pool. */
  predicate PoolPresent(w: World)
  {
    w.db.DbConnected? && w.db.hasPool
  }

  /** `migrate.Up` on the connected handle's pool returns an error. */
  predicate MigrationFails(w: World)
    requires WellFormed(w)
  {
    Migrate.UpSpec(PoolPresent(w), w.migration, w.applies).result.Failure?
  }

  /** Everything up to the bus phase passed: the database, if configured, connected and migrated. */
  predicate DbPhasesPass(cfg: Config, w: World)
    requires WellFormed(w)
  {
    && !DbRequiredMissing(cfg)
    && (cfg.dbURL != "" ==> w.db.DbConnected? && (cfg.autoMigrate ==> !MigrationFails(w)))
  }

  /** The phases before serving passed: the database phases and, if configured, the bus. */
  predicate StartupPasses(cfg: Config, w: World)
    requires WellFormed(w)
  {
    DbPhasesPass(cfg, w) && (cfg.natsURL != "" ==> w.bus.Done?)
  }

  /** Startup passed, a signal came before any server exit, and the shutdown succeeded. */
  predicate CleanExit(cfg: Config, w: World)
    requires WellFormed(w)
  {
    StartupPasses(cfg, w) && w.first == Signal && w.shutdown.Done?
  }

  /** The worker decision, taken once the database phases have passed. */
  function WorkerStep(cfg: Config, w: World): Action
  {
    if cfg.natsURL == "" && cfg.dbURL != "" && PoolPresent(w) then StartWorker
    else SkipWorker(SkipReason(cfg.natsURL != "", cfg.dbURL != ""))
  }

  /** One step of `main` in its fixed place, and whether this run takes it. */
  datatype Candidate = Candidate(taken: bool, step: Action)

  /** The steps taken, in order. */
  function Taken(cs: seq<Candidate>): seq<Action>
  {
    if cs == [] then []
    else (if cs[0].taken then [cs[0].step] else []) + Taken(cs[1..])
  }

  /** Connect, migrate, connect the bus: each taken when the phases before it passed. */
  function StartupSteps(cfg: Config, w: World): seq<Candidate>
    requires WellFormed(w)
  {
    [ Candidate(cfg.dbURL != "", ConnectDb),
      Candidate(cfg.dbURL != "" && w.db.DbConnected? && cfg.autoMigrate, RunMigrations),
      Candidate(cfg.natsURL != "" && DbPhasesPass(cfg, w), ConnectBus) ]
  }

  /** The API, the worker decision and serving once startup passed; the shutdown after a signal. */
  function ServingSteps(cfg: Config, w: World): seq<Candidate>
    requires WellFormed(w)
  {
    var startup := StartupPasses(cfg, w);
    [ Candidate(startup, InitApi),
      Candidate(startup, WorkerStep(cfg, w)),
      Candidate(startup, Serve),
      Candidate(startup && w.first == Signal, Shutdown) ]
  }

  /** The deferred closes, only on a clean exit: the bus first, then the database. */
  function ClosingSteps(cfg: Config, w: World): seq<Candidate>
    requires WellFormed(w)
  {
    var clean := CleanExit(cfg, w);
    [ Candidate(clean && cfg.natsURL != "", CloseBus),
      Candidate(clean && cfg.dbURL != "", CloseDb) ]
  }

  /**
   What `main` does: each step in the fixed order, taken exactly when the
   phases before it passed; the closes only on a clean exit, which is also
   the only way to exit with code 0.
   */
  function Boot(cfg: Config, w: World): Exit
    requires WellFormed(w)
  {
    Exit(if CleanExit(cfg, w) then 0 else 1,
         Taken(StartupSteps(cfg, w)) + Taken(ServingSteps(cfg, w)) + Taken(ClosingSteps(cfg, w)))
  }

  /** A step is taken exactly when its candidate is marked taken. */
  lemma {:induction false} InTaken(cs: seq<Candidate>, a: Action)
    ensures a in Taken(cs) <==> Candidate(true, a) in cs
  {
    if cs != [] {
      InTaken(cs[1..], a);
      assert cs == [cs[0]] + cs[1..];
    }
  }

  /** No candidate taken, no step. */
  lemma {:induction false} TakenNone(cs: seq<Candidate>)
    requires forall i :: 0 <= i < |cs| ==> !cs[i].taken
    ensures Taken(cs) == []
  {
    if cs != [] {
      TakenNone(cs[1..]);
    }
  }

  /** A step of `main` is in the trace exactly when one of its phase's candidates takes it. */
  lemma InBoot(cfg: Config, w: World, a: Action)
    requires WellFormed(w)
    ensures a in Boot(cfg, w).trace <==>
              Candidate(true, a) in StartupSteps(cfg, w) ||
              Candidate(true, a) in ServingSteps(cfg, w) ||
              Candidate(true, a) in ClosingSteps(cfg, w)
  {
    InTaken(StartupSteps(cfg, w), a);
    InTaken(ServingSteps(cfg, w), a);
    InTaken(ClosingSteps(cfg, w), a);
  }

  /** When startup fails, nothing after the startup steps happens. */
  lemma StopsInStartup(cfg: Config, w: World)
    requires WellFormed(w) && !StartupPasses(cfg, w)
    ensures Boot(cfg, w) == Exit(1, Taken(StartupSteps(cfg, w)))
  {
    TakenNone(ServingSteps(cfg, w));
    TakenNone(ClosingSteps(cfg, w));
  }

  // ---------------------------------------------------------------------
  // main
  // ---------------------------------------------------------------------

  method Run(cfg: Config, w: World) returns (code: int, trace: seq<Action>)
    requires WellFormed(w)
    ensures Exit(code, trace) == Boot(cfg, w)
  {
    trace := [];
    var deferred: seq<Action> := [];   // deferred closes, the next to run first

    // The database.
    var database: bool := false;
    var pool: bool := false;
    if cfg.dbURL == "" {
      if cfg.env != DevEnv {
        PlanConfigRefused(cfg, w);
        return 1, trace;
      }
    } else {
      trace := trace + [ConnectDb];
      if w.db.DbRefused? {
        PlanDbRefused(cfg, w);
        return 1, trace;
      }
      database, pool := true, w.db.hasPool;
      deferred := [CloseDb] + deferred;

      // Migrations.
      if cfg.autoMigrate {
        trace := trace + [RunMigrations];
        var run := Migrate.Up(pool, w.migration, w.applies);
        if run.result.Failure? {
          PlanMigrationFailed(cfg, w);
          return 1, trace;
        }
      }
    }
    assert DbPhasesPass(cfg, w);
    assert trace == (if cfg.dbURL != "" then [ConnectDb] else [])
                    + (if cfg.dbURL != "" && cfg.autoMigrate then [RunMigrations] else []);

    // The event bus.
    if cfg.natsURL != "" {
      trace := trace + [ConnectBus];
      if w.bus.Failed? {
        PlanBusFailed(cfg, w);
        return 1, trace;
      }
      deferred := [CloseBus] + deferred;
    }
    assert StartupPasses(cfg, w);
    assert trace == Startup(cfg);
    assert deferred == Deferred(cfg);

    // The API.
    trace := trace + [InitApi];

    // The background worker, or the reason it is skipped.
    if cfg.natsURL == "" && database && pool {
      trace := trace + [StartWorker];
    } else {
      trace := trace + [SkipWorker(SkipReason(cfg.natsURL != "", database))];
    }

    // Serve, then wait for whichever event comes first.
    trace := trace + [Serve];
    assert trace == Serving(cfg, w);
    if w.first == ServerExit {
      PlanServerExited(cfg, w);
      return 1, trace;
    }

    // Graceful shutdown.
    trace := trace + [Shutdown];
    if w.shutdown.Failed? {
      PlanShutdownFailed(cfg, w);
      return 1, trace;
    }

    // A normal return runs the deferred closes.
    PlanClean(cfg, w);
    trace := trace + deferred;
    return 0, trace;
  }

  // ---------------------------------------------------------------------
  // The same program as a plan executed up to its first failure
  // ---------------------------------------------------------------------

  /** The startup steps this configuration asks for. */
  function Startup(cfg: Config): seq<Action>
  {
    (if cfg.dbURL != "" then [ConnectDb] else [])
    + (if cfg.dbURL != "" && cfg.autoMigrate then [RunMigrations] else [])
    + (if cfg.natsURL != "" then [ConnectBus] else [])
  }

  /** The steps up to serving. */
  function Serving(cfg: Config, w: World): seq<Action>
  {
    Startup(cfg) + [InitApi, WorkerStep(cfg, w), Serve]
  }

  /** Every step `main` takes for this configuration when none of them fails. */
  function Plan(cfg: Config, w: World): seq<Action>
  {
    Serving(cfg, w) + [Shutdown]
  }

  /** The deferred closes in the order a normal return runs them: last acquired, first closed. */
  function Deferred(cfg: Config): seq<Action>
  {
    (if cfg.natsURL != "" then [CloseBus] else []) + (if cfg.dbURL != "" then [CloseDb] else [])
  }

  /** The steps whose failure ends the process with exit code 1. */
  predicate Fails(a: Action, w: World)
    requires WellFormed(w)
  {
    match a
    case ConnectDb => w.db.DbRefused?
    case RunMigrations => MigrationFails(w)
    case ConnectBus => w.bus.Failed?
    case Serve => w.first == ServerExit
    case Shutdown => w.shutdown.Failed?
    case _ => false
  }

  /** The outcome of running some steps in order, stopping at the first failure. */
  datatype Progress = Progress(taken: seq<Action>, ok: bool)

  /** Run `steps` in order and stop right after the first one that fails. */
  function Execute(steps: seq<Action>, w: World): Progress
    requires WellFormed(w)
  {
    if steps == [] then Progress([], true)
    else if Fails(steps[0], w) then Progress([steps[0]], false)
    else
      var rest := Execute(steps[1..], w);
      Progress([steps[0]] + rest.taken, rest.ok)
  }

  /**
   The steps executed are a prefix of `steps`: all of them exactly when
   none fails, and otherwise the prefix that ends in the first failing one.
   */
  lemma {:induction false} ExecuteShape(steps: seq<Action>, w: World)
    requires WellFormed(w)
    ensures Execute(steps, w).taken <= steps
    ensures Execute(steps, w).ok <==> forall j :: 0 <= j < |steps| ==> !Fails(steps[j], w)
    ensures Execute(steps, w).ok ==> Execute(steps, w).taken == steps
    ensures !Execute(steps, w).ok ==>
              var taken := Execute(steps, w).taken;
              |taken| > 0 && Fails(taken[|taken| - 1], w) &&
              forall j :: 0 <= j < |taken| - 1 ==> !Fails(taken[j], w)
  {
    if steps != [] && !Fails(steps[0], w) {
      ExecuteShape(steps[1..], w);
      var rest := Execute(steps[1..], w);
      if !rest.ok {
        var j :| 0 <= j < |steps[1..]| && Fails(steps[1..][j], w);
        assert Fails(steps[j + 1], w);
      }
    }
  }

  /** If the steps before `k` pass and step `k` fails, execution stops right after step `k`. */
  lemma {:induction false} ExecuteStopsAt(steps: seq<Action>, k: nat, w: World)
    requires WellFormed(w)
    requires k < |steps| && Fails(steps[k], w)
    requires forall j :: 0 <= j < k ==> !Fails(steps[j], w)
    ensures Execute(steps, w) == Progress(steps[..k + 1], false)
  {
    if k > 0 {
      ExecuteStopsAt(steps[1..], k - 1, w);
      assert [steps[0]] + steps[1..][..k] == steps[..k + 1];
    }
  }

  /** If no step fails, all of them are executed. */
  lemma {:induction false} ExecuteAll(steps: seq<Action>, w: World)
    requires WellFormed(w)
    requires forall j :: 0 <= j < |steps| ==> !Fails(steps[j], w)
    ensures Execute(steps, w) == Progress(steps, true)
  {
    if steps != [] {
      ExecuteAll(steps[1..], w);
      assert [steps[0]] + steps[1..] == steps;
    }
  }

  /**
   The plan executed: exit 1 right after the first failing step; when no
   step fails, run the deferred closes and exit 0.
   */
  function RunPlan(cfg: Config, w: World): Exit
    requires WellFormed(w)
  {
    if DbRequiredMissing(cfg) then Exit(1, [])
    else
      var p := Execute(Plan(cfg, w), w);
      if p.ok then Exit(0, p.taken + Deferred(cfg)) else Exit(1, p.taken)
  }

  /** Once the database phases passed, the startup steps taken are the ones the configuration asks for. */
  lemma StartupAsPlanned(cfg: Config, w: World)
    requires WellFormed(w) && DbPhasesPass(cfg, w)
    ensures Taken(StartupSteps(cfg, w)) == Startup(cfg)
  {
    var cs := StartupSteps(cfg, w);
    assert Taken(cs[2..]) == (if cs[2].taken then [cs[2].step] else []) + Taken(cs[3..]);
    assert Taken(cs[3..]) == [];
  }

  /** After startup and a signal, the serving steps are all taken. */
  lemma ServingAsPlanned(cfg: Config, w: World)
    requires WellFormed(w) && StartupPasses(cfg, w) && w.first == Signal
    ensures Taken(ServingSteps(cfg, w)) == [InitApi, WorkerStep(cfg, w), Serve, Shutdown]
  {
    var cs := ServingSteps(cfg, w);
    assert Taken(cs[2..]) == [Serve] + Taken(cs[3..]);
    assert Taken(cs[3..]) == [Shutdown] + Taken(cs[4..]);
    assert Taken(cs[4..]) == [];
  }

  /** After startup and a server exit, the steps up to serving are taken and no shutdown. */
  lemma ServingUntilExit(cfg: Config, w: World)
    requires WellFormed(w) && StartupPasses(cfg, w) && w.first == ServerExit
    ensures Taken(ServingSteps(cfg, w)) == [InitApi, WorkerStep(cfg, w), Serve]
  {
    var cs := ServingSteps(cfg, w);
    assert Taken(cs[2..]) == [Serve] + Taken(cs[3..]);
    assert Taken(cs[3..]) == Taken(cs[4..]) == [];
  }

  /** On a clean exit the closes taken are the deferred ones. */
  lemma ClosingAsPlanned(cfg: Config, w: World)
    requires WellFormed(w) && CleanExit(cfg, w)
    ensures Taken(ClosingSteps(cfg, w)) == Deferred(cfg)
  {
    var cs := ClosingSteps(cfg, w);
    assert Taken(cs[2..]) == [];
  }

  /** No database URL outside "dev": exit 1 before any step. */
  lemma PlanConfigRefused(cfg: Config, w: World)
    requires WellFormed(w) && DbRequiredMissing(cfg)
    ensures RunPlan(cfg, w) == Boot(cfg, w) == Exit(1, [])
  {
    StopsInStartup(cfg, w);
    TakenNone(StartupSteps(cfg, w));
  }

  /** The database connect fails: exit 1 right after it. */
  lemma PlanDbRefused(cfg: Config, w: World)
    requires WellFormed(w) && cfg.dbURL != "" && w.db.DbRefused?
    ensures RunPlan(cfg, w) == Boot(cfg, w) == Exit(1, [ConnectDb])
  {
    StopsInStartup(cfg, w);
    TakenNone(StartupSteps(cfg, w)[1..]);
    ExecuteStopsAt(Plan(cfg, w), 0, w);
  }

  /** `migrate.Up` returns an error: exit 1 right after the migration step, before the bus. */
  lemma PlanMigrationFailed(cfg: Config, w: World)
    requires WellFormed(w) && cfg.dbURL != "" && w.db.DbConnected?
    requires cfg.autoMigrate && MigrationFails(w)
    ensures RunPlan(cfg, w) == Boot(cfg, w) == Exit(1, [ConnectDb, RunMigrations])
  {
    StopsInStartup(cfg, w);
    var cs := StartupSteps(cfg, w);
    TakenNone(cs[2..]);
    assert Taken(cs[1..]) == [RunMigrations] + Taken(cs[2..]);
    var plan := Plan(cfg, w);
    assert plan[..2] == [ConnectDb, RunMigrations];
    ExecuteStopsAt(plan, 1, w);
  }

  /** The bus connect fails: exit 1 after the startup steps, before the API is initialised. */
  lemma PlanBusFailed(cfg: Config, w: World)
    requires WellFormed(w) && DbPhasesPass(cfg, w)
    requires cfg.natsURL != "" && w.bus.Failed?
    ensures RunPlan(cfg, w) == Boot(cfg, w) == Exit(1, Startup(cfg))
  {
    StopsInStartup(cfg, w);
    StartupAsPlanned(cfg, w);
    var plan := Plan(cfg, w);
    assert plan[..|Startup(cfg)|] == Startup(cfg);
    ExecuteStopsAt(plan, |Startup(cfg)| - 1, w);
  }

  /** Once startup passed, no step before serving fails. */
  lemma PassesUntilServe(cfg: Config, w: World)
    requires WellFormed(w) && StartupPasses(cfg, w)
    ensures Serving(cfg, w)[|Serving(cfg, w)| - 1] == Serve
    ensures forall j :: 0 <= j < |Serving(cfg, w)| - 1 ==> !Fails(Serving(cfg, w)[j], w)
  {
    var steps := Serving(cfg, w);
    forall j | 0 <= j < |steps| - 1
      ensures !Fails(steps[j], w)
    {
      if j < |Startup(cfg)| {
        assert steps[j] == Startup(cfg)[j];
      }
    }
  }

  /** The server returns before any signal: exit 1 after serving, no shutdown, no closes. */
  lemma PlanServerExited(cfg: Config, w: World)
    requires WellFormed(w) && StartupPasses(cfg, w) && w.first == ServerExit
    ensures RunPlan(cfg, w) == Boot(cfg, w) == Exit(1, Serving(cfg, w))
  {
    StartupAsPlanned(cfg, w);
    ServingUntilExit(cfg, w);
    TakenNone(ClosingSteps(cfg, w));
    PassesUntilServe(cfg, w);
    var plan := Plan(cfg, w);
    assert plan[..|plan| - 1] == Serving(cfg, w);
    ExecuteStopsAt(plan, |plan| - 2, w);
  }

  /** A signal, then a failed shutdown: exit 1 after the shutdown step, no closes. */
  lemma PlanShutdownFailed(cfg: Config, w: World)
    requires WellFormed(w) && StartupPasses(cfg, w) && w.first == Signal && w.shutdown.Failed?
    ensures RunPlan(cfg, w) == Boot(cfg, w) == Exit(1, Plan(cfg, w))
  {
    StartupAsPlanned(cfg, w);
    ServingAsPlanned(cfg, w);
    TakenNone(ClosingSteps(cfg, w));
    PassesUntilServe(cfg, w);
    var plan := Plan(cfg, w);
    ExecuteStopsAt(plan, |plan| - 1, w);
  }

  /** A signal and a successful shutdown: every planned step, then the deferred closes, exit 0. */
  lemma PlanClean(cfg: Config, w: World)
    requires WellFormed(w) && CleanExit(cfg, w)
    ensures RunPlan(cfg, w) == Boot(cfg, w) == Exit(0, Plan(cfg, w) + Deferred(cfg))
  {
    StartupAsPlanned(cfg, w);
    ServingAsPlanned(cfg, w);
    ClosingAsPlanned(cfg, w);
    PassesUntilServe(cfg, w);
    ExecuteAll(Plan(cfg, w), w);
  }

  /**
   The phase-by-phase description and the plan executed up to its first
   failing step agree on every configuration and every world.
   */
  lemma BootRunsPlan(cfg: Config, w: World)
    requires WellFormed(w)
    ensures Boot(cfg, w) == RunPlan(cfg, w)
  {
    if DbRequiredMissing(cfg) {
      PlanConfigRefused(cfg, w);
    } else if cfg.dbURL != "" && w.db.DbRefused? {
      PlanDbRefused(cfg, w);
    } else if cfg.dbURL != "" && cfg.autoMigrate && MigrationFails(w) {
      PlanMigrationFailed(cfg, w);
    } else if cfg.natsURL != "" && w.bus.Failed? {
      PlanBusFailed(cfg, w);
    } else if w.first == ServerExit {
      PlanServerExited(cfg, w);
    } else if w.shutdown.Failed? {
      PlanShutdownFailed(cfg, w);
    } else {
      PlanClean(cfg, w);
    }
  }

  // ---------------------------------------------------------------------
  // What main promises
  // ---------------------------------------------------------------------

  /** The exit code is 0 or 1, and 0 exactly when startup passed, a signal came first and shutdown succeeded. */
  lemma ExitCodes(cfg: Config, w: World)
    requires WellFormed(w)
    ensures Boot(cfg, w).code == 0 || Boot(cfg, w).code == 1
    ensures Boot(cfg, w).code == 0 <==> StartupPasses(cfg, w) && w.first == Signal && w.shutdown.Done?
  {
  }

  /**
   With no database URL in the development environment `main` runs without
   a database: it never connects one, never migrates, never starts the
   worker and never closes a database; without a bus URL it reaches serving
   and logs "database not available" as the reason for skipping the worker.
   */
  lemma DevWithoutDatabase(cfg: Config, w: World)
    requires WellFormed(w) && cfg.dbURL == "" && cfg.env == DevEnv
    ensures var t := Boot(cfg, w).trace;
      ConnectDb !in t && RunMigrations !in t && StartWorker !in t && CloseDb !in t
    ensures cfg.natsURL == "" ==>
      var t := Boot(cfg, w).trace;
      Serve in t && SkipWorker(DatabaseNotAvailable) in t
  {
    InBoot(cfg, w, ConnectDb);
    InBoot(cfg, w, RunMigrations);
    InBoot(cfg, w, StartWorker);
    InBoot(cfg, w, CloseDb);
    InBoot(cfg, w, Serve);
    InBoot(cfg, w, SkipWorker(DatabaseNotAvailable));
  }

  /** Migrations run exactly when a database URL is set, the connect succeeded and AutoMigrate is on. */
  lemma MigrationsRunIff(cfg: Config, w: World)
    requires WellFormed(w)
    ensures RunMigrations in Boot(cfg, w).trace <==>
              cfg.dbURL != "" && w.db.DbConnected? && cfg.autoMigrate
  {
    InBoot(cfg, w, RunMigrations);
  }

  /**
   A connect whose handle has a nil pool, followed by migrations, fails in
   `migrate.Up` with "db pool is nil", so `main` exits with 1.
   */
  lemma NilPoolMigrationExits(cfg: Config, w: World)
    requires WellFormed(w) && cfg.dbURL != "" && w.db == DbConnected(false) && cfg.autoMigrate
    ensures Boot(cfg, w) == Exit(1, [ConnectDb, RunMigrations])
  {
    Migrate.UpNilPool(w.migration, w.applies);
    PlanMigrationFailed(cfg, w);
  }

  /**
   The bus connect is attempted exactly when a bus URL is set and the
   database phases passed, whatever the environment tag; its failure exits 1.
   */
  lemma BusAttemptedIff(cfg: Config, w: World)
    requires WellFormed(w)
    ensures ConnectBus in Boot(cfg, w).trace <==> cfg.natsURL != "" && DbPhasesPass(cfg, w)
    ensures ConnectBus in Boot(cfg, w).trace && w.bus.Failed? ==> Boot(cfg, w).code == 1
  {
    InBoot(cfg, w, ConnectBus);
  }

  /**
   The worker starts exactly when no bus URL is set, startup passed with a
   database configured, and its pool is not nil.
   */
  lemma WorkerRule(cfg: Config, w: World)
    requires WellFormed(w)
    ensures StartWorker in Boot(cfg, w).trace <==>
              StartupPasses(cfg, w) && cfg.natsURL == "" && cfg.dbURL != "" && PoolPresent(w)
  {
    InBoot(cfg, w, StartWorker);
  }

  /**
   The reason logged for a skipped worker: "NATS configured (use external
   worker)" when a bus URL is set; otherwise "database not available"
   without a database URL; otherwise "unknown", which happens only when the
   connected handle's pool is nil and AutoMigrate is off.
   */
  lemma SkipReasonRule(cfg: Config, w: World, reason: string)
    requires WellFormed(w) && SkipWorker(reason) in Boot(cfg, w).trace
    ensures cfg.natsURL != "" ==> reason == NatsConfigured
    ensures cfg.natsURL == "" && cfg.dbURL == "" ==> reason == DatabaseNotAvailable
    ensures cfg.natsURL == "" && cfg.dbURL != "" ==>
              reason == UnknownReason && w.db == DbConnected(false) && !cfg.autoMigrate
  {
    InBoot(cfg, w, SkipWorker(reason));
    if cfg.natsURL == "" && cfg.dbURL != "" && cfg.autoMigrate && w.db == DbConnected(false) {
      Migrate.UpNilPool(w.migration, w.applies);
    }
  }

  /**
   Once serving, the first event decides: a server exit ends the process
   with 1 and nothing after serving, no shutdown and no close; a signal
   leads to the shutdown, after which the exit code is 0 if it succeeded
   and 1 if it failed.
   */
  lemma RaceOutcome(cfg: Config, w: World)
    requires WellFormed(w) && Serve in Boot(cfg, w).trace
    ensures w.first == ServerExit ==>
              var t := Boot(cfg, w).trace;
              Boot(cfg, w).code == 1 && Shutdown !in t && CloseBus !in t && CloseDb !in t
    ensures w.first == Signal ==>
              Shutdown in Boot(cfg, w).trace &&
              Boot(cfg, w).code == (if w.shutdown.Done? then 0 else 1)
  {
    InBoot(cfg, w, Serve);
    InBoot(cfg, w, Shutdown);
    InBoot(cfg, w, CloseBus);
    InBoot(cfg, w, CloseDb);
  }

  /**
   The closes run only on the clean exit, where `os.Exit` is not called:
   then the bus is closed exactly when a bus URL is set and the database
   exactly when a database URL is set.
   */
  lemma ClosesOnlyOnCleanExit(cfg: Config, w: World)
    requires WellFormed(w)
    ensures CloseBus in Boot(cfg, w).trace || CloseDb in Boot(cfg, w).trace ==> Boot(cfg, w).code == 0
    ensures Boot(cfg, w).code == 0 ==>
              (CloseBus in Boot(cfg, w).trace <==> cfg.natsURL != "") &&
              (CloseDb in Boot(cfg, w).trace <==> cfg.dbURL != "")
  {
    InBoot(cfg, w, CloseBus);
    InBoot(cfg, w, CloseDb);
  }

  /** The position of each step in `main`'s fixed order. */
  function Rank(a: Action): nat
  {
    match a
    case ConnectDb => 0
    case RunMigrations => 1
    case ConnectBus => 2
    case InitApi => 3
    case StartWorker => 4
    case SkipWorker(_) => 4
    case Serve => 5
    case Shutdown => 6
    case CloseBus => 7
    case CloseDb => 8
  }

  /** Every step comes strictly later in the fixed order than the ones before it. */
  predicate InOrder(trace: seq<Action>)
  {
    forall i, j :: 0 <= i < j < |trace| ==> Rank(trace[i]) < Rank(trace[j])
  }

  /** Every step of `trace` has a rank in `[lo, hi)`. */
  predicate RanksWithin(trace: seq<Action>, lo: nat, hi: nat)
  {
    forall i :: 0 <= i < |trace| ==> lo <= Rank(trace[i]) < hi
  }

  /** Candidates whose steps rank `lo`, `lo + 1`, ... in their order. */
  predicate Consecutive(cs: seq<Candidate>, lo: nat)
  {
    forall i :: 0 <= i < |cs| ==> Rank(cs[i].step) == lo + i
  }

  /** The steps taken from candidates in rank order are in order, within the candidates' ranks. */
  lemma {:induction false} TakenInOrder(cs: seq<Candidate>, lo: nat)
    requires Consecutive(cs, lo)
    ensures InOrder(Taken(cs)) && RanksWithin(Taken(cs), lo, lo + |cs|)
  {
    if cs != [] {
      TakenInOrder(cs[1..], lo + 1);
      var head := if cs[0].taken then [cs[0].step] else [];
      InOrderJoin(head, Taken(cs[1..]), lo, lo + 1, lo + |cs|);
    }
  }

  /** Two ordered traces whose rank ranges follow each other join into an ordered trace. */
  lemma InOrderJoin(a: seq<Action>, b: seq<Action>, lo: nat, mid: nat, hi: nat)
    requires InOrder(a) && InOrder(b) && lo <= mid <= hi
    requires RanksWithin(a, lo, mid) && RanksWithin(b, mid, hi)
    ensures InOrder(a + b) && RanksWithin(a + b, lo, hi)
  {
    forall i, j | 0 <= i < j < |a + b|
      ensures Rank((a + b)[i]) < Rank((a + b)[j])
    {
      if j < |a| {
        assert (a + b)[i] == a[i] && (a + b)[j] == a[j];
      } else if i < |a| {
        assert (a + b)[i] == a[i] && (a + b)[j] == b[j - |a|];
      } else {
        assert (a + b)[i] == b[i - |a|] && (a + b)[j] == b[j - |a|];
      }
    }
    forall i | 0 <= i < |a + b|
      ensures lo <= Rank((a + b)[i]) < hi
    {
      if i < |a| {
        assert (a + b)[i] == a[i];
      } else {
        assert (a + b)[i] == b[i - |a|];
      }
    }
  }

  /**
   The steps happen in the fixed order database, migrations, bus, API,
   worker decision, serve, shutdown, bus close, database close, and none
   happens twice.
   */
  lemma PhaseOrder(cfg: Config, w: World)
    requires WellFormed(w)
    ensures InOrder(Boot(cfg, w).trace)
  {
    var startup, serving, closing := StartupSteps(cfg, w), ServingSteps(cfg, w), ClosingSteps(cfg, w);
    TakenInOrder(startup, 0);
    TakenInOrder(serving, 3);
    TakenInOrder(closing, 7);
    InOrderJoin(Taken(startup), Taken(serving), 0, 3, 7);
    InOrderJoin(Taken(startup) + Taken(serving), Taken(closing), 0, 7, 9);
  }
}
