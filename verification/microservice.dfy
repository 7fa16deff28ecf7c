/** The bootstrap sequence (`microservice_run`): load the configuration,
    build the logger, install the interrupt handler, log the start, run the
    application, log the exit, release the log guard, return the
    application's result. What the outside world decides (the loaded
    configuration, whether the log file opens, whether the handler can be
    registered, the configuration's debug rendering and the application
    itself) is a parameter; the run is a trace of the steps begun plus how
    it ended. A panic unwinds, so a guard that exists is released on the way
    out. */
module Microservice {
  import opened Wrappers
  import opened Strings
  import Logging
  import Handler

  /** The whole configuration: the optional logging section and the
      application's own section. */
  datatype AppConfig<C> = AppConfig(logging: Option<Logging.Config>, app: C)

  /** How the application function ended. */
  datatype AppOutcome<O> = Returned(value: O) | Panicked(message: string)

  /** Everything the sequence depends on but does not decide. Errors are
      given by their debug rendering. */
  datatype Env<!C, O> = Env(
    loadConfig: Result<AppConfig<C>, string>,
    open: Logging.Opener,
    register: Outcome<string>,
    debug: AppConfig<C> -> string,
    appMain: (Logging.Logger, C, Handler.Signal) -> AppOutcome<O>)

  /** The steps that can stop the sequence. */
  datatype Stage = LoadConfig | BuildLogger | InstallHandler | AppMain

  /** A step of the sequence, recorded when it begins. */
  datatype Event<C> =
    | ConfigLoad
    | LoggerBuild(section: Option<Logging.Config>)
    | HandlerInstall(logger: Logging.Logger)
    | StartupLog(logger: Logging.Logger, record: Logging.Record)
    | AppMainCall(logger: Logging.Logger, app: C, signal: Handler.Signal)
    | ExitLog(logger: Logging.Logger, record: Logging.Record)
    | GuardDrop(guard: Logging.AsyncGuard)

  /** How the sequence ends: a panic raised at a stage, or the application's
      value. */
  datatype Exit<O> = Panic(stage: Stage, message: string) | Return(value: O)

  /** A run: the steps begun, how it ended, and the flag cells afterwards. */
  datatype Run<C, O> = Run(trace: seq<Event<C>>, exit: Exit<O>, cells: Handler.Cells)

  const LoadConfigFailure := "Unable to load application configuration."
  const BuildLoggerFailure := "Unable to open file for logging."
  const InstallHandlerFailure := "Unable to set signal handler."
  const StartingMessage := "Application Starting."
  const ExitingMessage := "Application Exiting."

  /** The message `Result::expect` panics with. */
  function ExpectMessage(context: string, error: string): (m: string)
    ensures StartsWith(m, context)
  {
    context + (": " + error)
  }

  /** The position of each kind of step in the sequence. */
  function Rank<C>(e: Event<C>): nat {
    match e
    case ConfigLoad => 0
    case LoggerBuild(_) => 1
    case HandlerInstall(_) => 2
    case StartupLog(_, _) => 3
    case AppMainCall(_, _, _) => 4
    case ExitLog(_, _) => 5
    case GuardDrop(_) => 6
  }

  /** Steps appear in sequence order, each at most once. */
  ghost predicate Ordered<C>(trace: seq<Event<C>>) {
    forall i, j :: 0 <= i < j < |trace| ==> Rank(trace[i]) < Rank(trace[j])
  }

  /** Steps in order pairwise are in order throughout. */
  lemma {:induction false} OrderedFromAdjacent<C>(trace: seq<Event<C>>)
    requires forall k :: 0 < k < |trace| ==> Rank(trace[k - 1]) < Rank(trace[k])
    ensures Ordered(trace)
  {
    if |trace| > 1 {
      var front := trace[..|trace| - 1];
      OrderedFromAdjacent(front);
      forall i, j | 0 <= i < j < |trace|
        ensures Rank(trace[i]) < Rank(trace[j])
      {
        if j < |trace| - 1 {
          assert front[i] == trace[i] && front[j] == trace[j];
        } else if i < j - 1 {
          assert Rank(front[i]) < Rank(front[j - 1]);
        }
      }
    }
  }

  /** The guard is released somewhere in `trace`. */
  ghost predicate GuardDropped<C>(trace: seq<Event<C>>) {
    exists i :: 0 <= i < |trace| && trace[i].GuardDrop?
  }

  /** The configuration loaded and the logger was built from it. */
  ghost predicate LoggerBuilt<C, O>(env: Env<C, O>) {
    env.loadConfig.Success? && Logging.Build(env.loadConfig.value.logging, env.open).Success?
  }

  /** The tag naming the part of the program a child logger serves. */
  function Component(name: string): seq<(string, string)> {
    [("component", name)]
  }

  /** `microservice_run`. */
  function MicroserviceRun<C, O>(env: Env<C, O>, cells: Handler.Cells): (r: Run<C, O>)
    ensures |r.trace| > 0 && r.trace[0] == ConfigLoad
    ensures Ordered(r.trace)
    ensures r.exit.Return? ==> |r.trace| == 7
    ensures r.exit.Panic? && r.exit.stage == LoadConfig ==> |r.trace| == 1
    ensures r.exit.Panic? && r.exit.stage == BuildLogger ==> |r.trace| == 2 && r.trace[1].LoggerBuild?
    ensures r.exit.Panic? && r.exit.stage == InstallHandler ==>
      |r.trace| == 4 && r.trace[2].HandlerInstall? && r.trace[3].GuardDrop?
    ensures r.exit.Panic? && r.exit.stage == AppMain ==>
      |r.trace| == 6 && r.trace[4].AppMainCall? && r.trace[5].GuardDrop?
    ensures LoggerBuilt(env) && env.register.Pass? ==>
      |r.trace| >= 6 && r.trace[3].StartupLog? && r.trace[4].AppMainCall?
    ensures GuardDropped(r.trace) <==> LoggerBuilt(env)
    ensures LoggerBuilt(env) ==> r.trace[|r.trace| - 1].GuardDrop?
    ensures env.loadConfig.Success? && 1 < |r.trace| ==> r.trace[1] == LoggerBuild(env.loadConfig.value.logging)
    ensures LoggerBuilt(env) ==>
      var (root, guard) := Logging.Build(env.loadConfig.value.logging, env.open).value;
      && r.trace[2] == HandlerInstall(Logging.Child(root, Component("signal_handler")))
      && r.trace[|r.trace| - 1] == GuardDrop(guard)
    ensures r.exit.Panic? && r.exit.stage != AppMain ==> r.cells == cells
  {
    match env.loadConfig
    case Failure(e) =>
      OrderedFromAdjacent<C>([ConfigLoad]);
      Run([ConfigLoad], Panic(LoadConfig, ExpectMessage(LoadConfigFailure, e)), cells)
    case Success(config) =>
      var build := LoggerBuild(config.logging);
      match Logging.Build(config.logging, env.open)
      case Failure(e) =>
        OrderedFromAdjacent([ConfigLoad, build]);
        Run([ConfigLoad, build], Panic(BuildLogger, ExpectMessage(BuildLoggerFailure, e)), cells)
      case Success((root, guard)) =>
        WithLogger(env, cells, config, root, guard)
  }

  /** The steps of `microservice_run` once the root logger and its guard
      exist: install the handler, log the start, call the application, log
      the exit, drop the guard. Every way out drops the guard last. */
  function WithLogger<C, O>(env: Env<C, O>, cells: Handler.Cells, config: AppConfig<C>,
                            root: Logging.Logger, guard: Logging.AsyncGuard): (r: Run<C, O>)
    ensures 4 <= |r.trace| && r.trace[0] == ConfigLoad && r.trace[1] == LoggerBuild(config.logging)
    ensures r.trace[2] == HandlerInstall(Logging.Child(root, Component("signal_handler")))
    ensures r.trace[|r.trace| - 1] == GuardDrop(guard)
    ensures Ordered(r.trace)
    ensures r.exit.Return? ==> |r.trace| == 7
    ensures r.exit.Panic? && r.exit.stage == InstallHandler <==> env.register.Fail?
    ensures r.exit.Panic? && r.exit.stage == InstallHandler ==> |r.trace| == 4 && r.cells == cells
    ensures r.exit.Panic? ==> r.exit.stage == InstallHandler || r.exit.stage == AppMain
    ensures r.exit.Panic? && r.exit.stage == AppMain ==> |r.trace| == 6 && r.trace[4].AppMainCall?
    ensures env.register.Pass? ==> |r.trace| >= 6 && r.trace[3].StartupLog? && r.trace[4].AppMainCall?
  {
    var build := LoggerBuild(config.logging);
    var install := HandlerInstall(Logging.Child(root, Component("signal_handler")));
    match Handler.SetHandler(cells, install.logger, env.register)
    case Failure(e) =>
      var trace := [ConfigLoad, build, install, GuardDrop(guard)];
      OrderedFromAdjacent(trace);
      Run(trace, Panic(InstallHandler, ExpectMessage(InstallHandlerFailure, e)), cells)
    case Success(installed) =>
      WithHandler(env, config, root, guard, installed)
  }

  /** The steps of `microservice_run` once the handler is installed: log the
      start, call the application with the `main` child logger and the
      installed signal, then either log the exit or unwind, and drop the
      guard last. */
  function WithHandler<C, O>(env: Env<C, O>, config: AppConfig<C>, root: Logging.Logger,
                             guard: Logging.AsyncGuard, installed: Handler.Installed): (r: Run<C, O>)
    ensures 6 <= |r.trace| <= 7
    ensures r.trace[0] == ConfigLoad && r.trace[1] == LoggerBuild(config.logging)
    ensures r.trace[2] == HandlerInstall(Logging.Child(root, Component("signal_handler")))
    ensures r.trace[3].StartupLog? && r.trace[4].AppMainCall?
    ensures r.trace[|r.trace| - 1] == GuardDrop(guard)
    ensures Ordered(r.trace)
    ensures r.cells == installed.cells
    ensures r.exit.Return? <==> |r.trace| == 7
    ensures r.exit.Panic? ==> r.exit.stage == AppMain
  {
    var build := LoggerBuild(config.logging);
    var install := HandlerInstall(Logging.Child(root, Component("signal_handler")));
    var startup := StartupLog(root, Logging.Record(Logging.Info, StartingMessage, [("config", env.debug(config))]));
    var call := AppMainCall(Logging.Child(root, Component("main")), config.app, installed.signal);
    match env.appMain(call.logger, call.app, call.signal)
    case Panicked(m) =>
      var trace := [ConfigLoad, build, install, startup, call, GuardDrop(guard)];
      OrderedFromAdjacent(trace);
      Run(trace, Panic(AppMain, m), installed.cells)
    case Returned(v) =>
      var exit := ExitLog(root, Logging.Record(Logging.Info, ExitingMessage, []));
      var trace := [ConfigLoad, build, install, startup, call, exit, GuardDrop(guard)];
      OrderedFromAdjacent(trace);
      Run(trace, Return(v), installed.cells)
  }

  /** The run returns a value exactly when every setup step succeeded and the
      application returned; the value is the application's, unchanged, and
      the application was called once, with that call's arguments. */
  lemma ResultPassesThrough<C, O>(env: Env<C, O>, cells: Handler.Cells)
    ensures var r := MicroserviceRun(env, cells);
      r.exit.Return? <==>
        exists i :: 0 <= i < |r.trace| && r.trace[i].AppMainCall?
          && env.appMain(r.trace[i].logger, r.trace[i].app, r.trace[i].signal).Returned?
    ensures var r := MicroserviceRun(env, cells);
      forall i :: 0 <= i < |r.trace| && r.trace[i].AppMainCall? ==>
        match env.appMain(r.trace[i].logger, r.trace[i].app, r.trace[i].signal)
        case Returned(v) => r.exit == Return(v)
        case Panicked(m) => r.exit == Panic(AppMain, m)
  {
    var r := MicroserviceRun(env, cells);
    if LoggerBuilt(env) && env.register.Pass? {
      assert r.trace[4].AppMainCall?;
      forall i | 0 <= i < |r.trace| && r.trace[i].AppMainCall?
        ensures i == 4
      {
        assert Rank(r.trace[i]) == Rank(r.trace[4]);
      }
    }
  }

  /** A setup step panics exactly when it fails and every earlier step
      succeeded; the panic carries that step's message followed by the
      error, and the application never runs. */
  lemma SetupFailurePanics<C, O>(env: Env<C, O>, cells: Handler.Cells)
    ensures var r := MicroserviceRun(env, cells);
      r.exit.Panic? && r.exit.stage == LoadConfig <==> env.loadConfig.Failure?
    ensures var r := MicroserviceRun(env, cells);
      r.exit.Panic? && r.exit.stage == BuildLogger <==>
        env.loadConfig.Success? && Logging.Build(env.loadConfig.value.logging, env.open).Failure?
    ensures var r := MicroserviceRun(env, cells);
      r.exit.Panic? && r.exit.stage == InstallHandler <==> LoggerBuilt(env) && env.register.Fail?
    ensures var r := MicroserviceRun(env, cells);
      env.loadConfig.Failure? ==>
        r.exit == Panic(LoadConfig, ExpectMessage(LoadConfigFailure, env.loadConfig.error)) && |r.trace| == 1
    ensures var r := MicroserviceRun(env, cells);
      env.loadConfig.Success? && Logging.Build(env.loadConfig.value.logging, env.open).Failure? ==>
        r.exit == Panic(BuildLogger, ExpectMessage(BuildLoggerFailure, Logging.Build(env.loadConfig.value.logging, env.open).error))
    ensures var r := MicroserviceRun(env, cells);
      LoggerBuilt(env) && env.register.Fail? ==>
        r.exit == Panic(InstallHandler, ExpectMessage(InstallHandlerFailure, env.register.error))
    ensures var r := MicroserviceRun(env, cells);
      r.exit.Panic? && r.exit.stage != AppMain ==> forall i :: 0 <= i < |r.trace| ==> !r.trace[i].AppMainCall?
  {
  }

  /** The logger is built from the loaded logging section; the start record
      comes right before the call; the application gets the `main` child of
      the root logger, the application section, and the signal `set_handler`
      returned, which the installed handler stops. */
  lemma AppMainArguments<C, O>(env: Env<C, O>, cells: Handler.Cells, i: nat)
    requires i < |MicroserviceRun(env, cells).trace|
    requires MicroserviceRun(env, cells).trace[i].AppMainCall?
    ensures LoggerBuilt(env) && env.register.Pass?
    ensures var r := MicroserviceRun(env, cells);
      var call := r.trace[i];
      var root := Logging.Build(env.loadConfig.value.logging, env.open).value.0;
      var installed := Handler.SetHandler(cells, Logging.Child(root, Component("signal_handler")), env.register);
      && call.app == env.loadConfig.value.app
      && r.trace[1] == LoggerBuild(env.loadConfig.value.logging)
      && Logging.Describes(Logging.Effective(env.loadConfig.value.logging), call.logger.drain)
      && call.logger == Logging.Child(root, Component("main"))
      && r.trace[2] == HandlerInstall(Logging.Child(root, Component("signal_handler")))
      && 0 < i && r.trace[i - 1].StartupLog?
      && installed.Success?
      && call.signal == installed.value.signal
      && r.cells == installed.value.cells
      && Handler.Check(Handler.Fire(r.cells, installed.value.handler), call.signal)
  {
  }

  /** Without a logging section the application's logger filters at Info and
      writes JSON with the default keys to standard output. */
  lemma DefaultLogging<C, O>(env: Env<C, O>, cells: Handler.Cells, i: nat)
    requires env.loadConfig.Success? && env.loadConfig.value.logging.None?
    requires i < |MicroserviceRun(env, cells).trace|
    requires MicroserviceRun(env, cells).trace[i].AppMainCall?
    ensures MicroserviceRun(env, cells).trace[i].logger.drain
      == Logging.LevelFilter(Logging.Info, Logging.Async(Logging.Output(Logging.JsonRecords(true), Logging.Stdout)))
  {
  }

  /** The start record goes to the root logger at Info with the rendering of
      the whole configuration, and the application is called right after it. */
  lemma StartRecord<C, O>(env: Env<C, O>, cells: Handler.Cells, i: nat)
    requires i < |MicroserviceRun(env, cells).trace|
    requires MicroserviceRun(env, cells).trace[i].StartupLog?
    ensures LoggerBuilt(env)
    ensures var r := MicroserviceRun(env, cells);
      && r.trace[i].logger == Logging.Build(env.loadConfig.value.logging, env.open).value.0
      && r.trace[i].logger.tags == []
      && r.trace[i].record == Logging.Record(Logging.Info, StartingMessage, [("config", env.debug(env.loadConfig.value))])
      && i + 1 < |r.trace| && r.trace[i + 1].AppMainCall?
  {
  }

  /** The exit record goes to the root logger at Info right after the
      application returns, and the guard is released right after it. */
  lemma ExitRecord<C, O>(env: Env<C, O>, cells: Handler.Cells, i: nat)
    requires i < |MicroserviceRun(env, cells).trace|
    requires MicroserviceRun(env, cells).trace[i].ExitLog?
    ensures LoggerBuilt(env)
    ensures var r := MicroserviceRun(env, cells);
      && r.exit.Return?
      && r.trace[i].logger == Logging.Build(env.loadConfig.value.logging, env.open).value.0
      && r.trace[i].logger.tags == []
      && r.trace[i].record == Logging.Record(Logging.Info, ExitingMessage, [])
      && 0 < i && r.trace[i - 1].AppMainCall?
      && i + 1 < |r.trace| && r.trace[i + 1] == GuardDrop(Logging.Build(env.loadConfig.value.logging, env.open).value.1)
  {
  }
}
