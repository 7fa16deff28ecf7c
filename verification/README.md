# microservice-rs bootstrap, modelled in Dafny

`microservice-rs` wraps a service's `app_main` in a fixed startup and shutdown
sequence. This project models the three parts of that sequence that make decisions:

- **Logging** (`logging.dfy`, module `Logging`). This covers the `logging` configuration section, its
  default, the level deserializer, and the pipeline `logger` builds: a level
  filter wrapping an asynchronous buffer, which wraps a JSON or text formatter.
  The formatter writes to a file opened create+append when a path is given.
  Otherwise JSON goes to standard output and text goes to the stream the
  terminal decorator picks for itself.
  `Describes` is a separate, rule-by-rule statement of which pipeline a section
  calls for. `Build` is proved to meet it, and `DescribesDeterminesDrain` proves
  that it fixes the pipeline uniquely.
- **Shutdown flag** (`handler.dfy`, module `Handler`). Every `AtomicBool` is a cell in an arena
  (`true` = running). A `Signal` and the handler closure hold the index of
  the one cell they share, so a clone of a `Signal` is the same value. The
  handler's actions are a sequence of effects: a warning, then a store of
  `false`. `Observe` replays interrupts and polls, and lemmas characterise
  what a reader sees.
- **Orchestrator** (`microservice.dfy`, module `Microservice`). `microservice_run` is modelled as a
  function from its environment to a trace of the steps it began, how it ended
  (`Panic(stage, message)` or `Return(value)`), and the flag cells. These are
  parameters: the loaded configuration, the outcome of opening the log file,
  the outcome of registering the handler, the configuration's debug
  rendering, and `app_main`. `app_main` may return a value or panic.

`wrappers.dfy` holds `Option`, `Result` and `Outcome`. `strings.dfy` holds
prefix and infix facts about strings, used for error messages.

Panics unwind, which is Rust's default. So when setup fails after the logger
exists, or when `app_main` panics, the guard is still released while the stack
unwinds, because `guard` is a local of `microservice_run`. This is the
`GuardDrop` event that follows a panic in those cases.

## Model

| member | source | states |
|---|---|---|
| `Logging.DefaultConfig` | microservice/src/logging.rs:48-56 | The default section calls for exactly one pipeline: filter Info, then buffer, then JSON with default keys to stdout. |
| `Logging.Effective` | microservice/src/logging.rs:48-59 | A supplied section is used as is. With none, the section is level Some(Info), format Json, no path. |
| `Logging.ParseFormat` | microservice/src/logging.rs:33-38 | A format name that is accepted is the snake_case name of the format it yields. |
| `Logging.FormatRoundTrip` | microservice/src/logging.rs:33-38 | Reading a format's name gives back that format, and a name yields a format exactly when it is that format's name. |
| `Logging.VisitLevel` | microservice/src/logging.rs:13-30 | Null gives Ok(None). A string gives Some(level) exactly when the level parser accepts it. Otherwise the error message contains the string. Any other token fails, and the message contains the visitor's "expecting" text. |
| `Logging.OpenFile` | microservice/src/logging.rs:64 | The log file is opened create+append and never truncated. Opening fails exactly when the open fails, with that open's error. |
| `Logging.Child` | microservice/src/lib.rs:15 | A child logger keeps its parent's drain, so its records pass the same filter and buffer. It carries the parent's pairs followed by the new ones. |
| `Logging.ChildCompose` | microservice/src/lib.rs:15-21 | Deriving a child with no pairs gives the same logger. Deriving twice gives the same logger as deriving once with both sets of pairs in order. |
| `Logging.FormattedDrain` | microservice/src/logging.rs:60-89 | Fails exactly when a path is given and opening it fails. On success it yields a formatter that writes to a file exactly when a path is given, and is JSON exactly when the format is Json. |
| `Logging.Build` | microservice/src/logging.rs:58-93 | Fails exactly when a path is configured and opening it fails, with the open's error. Otherwise the pipeline meets `Describes` for the effective section, the root logger has no tags, and the guard belongs to the pipeline's buffer. |
| `Logging.DescribesDeterminesDrain` | microservice/src/logging.rs:60-91 | Rules stated separately fix one pipeline per section. The rules are: filter level is configured-or-Info; filter outside buffer outside formatter; file exactly when a path is given, else stdout for JSON and the terminal decorator's stream for text; JSON with default keys; text undecorated exactly on a file. |
| `Logging.DefaultPipeline` | microservice/src/logging.rs:59-70 | With no section, building cannot fail. The pipeline is filter Info, then buffer, then JSON with default keys to stdout. |
| `Logging.NullLevelFiltersAtInfo` | microservice/src/logging.rs:90 | A section whose level was read from null builds a logger that filters at Info. A null always reads successfully. |
| `Handler.Check` | microservice/src/handler.rs:16-18 | A stop is reported exactly when running the handler that shares the cell would change nothing. |
| `Handler.HandlerEffects` | microservice/src/handler.rs:24-27 | The handler's first action is a Warning "Got Signal." on its own logger, and it warns nothing else. Later it stores false into its own cell, exactly once. It performs no other store. |
| `Handler.Fire` | microservice/src/handler.rs:24-27 | After the handler runs, its cell says stopped. Every other cell is unchanged. |
| `Handler.FireIdempotent` | microservice/src/handler.rs:22-27 | Running the handler a second time changes nothing. |
| `Handler.SetHandler` | microservice/src/handler.rs:21-30 | Fails exactly when registration fails, with its error, and then returns no signal. On success it allocates one new running cell and leaves existing cells alone. The signal and the handler share that cell, the handler keeps the given logger, and the new signal's check is false. |
| `Handler.ObserveSharedCell` | microservice/src/handler.rs:16-27 | A reader of the handler's cell sees a stop after each step exactly when the cell was already stopped or an interrupt has arrived by then. |
| `Handler.ObserveMonotone` | microservice/src/handler.rs:22-27 | Once a reader of the handler's cell sees a stop, every later check also sees one. |
| `Handler.ObserveOtherCell` | microservice/src/handler.rs:23-26 | The handler's store is invisible to readers of any other cell. |
| `Handler.InstalledSignalLifecycle` | microservice/src/handler.rs:21-30 | A freshly installed signal reads false until the first interrupt and true from then on. |
| `Microservice.ExpectMessage` | microservice/src/lib.rs:13-15 | A setup panic's message starts with that step's fixed text. |
| `Microservice.MicroserviceRun` | microservice/src/lib.rs:10-27 | The run starts by loading the configuration. Steps occur in the order load, build, install, start log, app_main, exit log, guard drop, each at most once. A returning run performs all seven. A panic at loading stops after one step, and a panic at building stops after two. A panic at installing ends with the install and the guard drop. A panic in app_main ends with the call and the guard drop. When all three setup steps succeed, the start record and the app_main call follow. The guard is dropped exactly when the logger was built. Then the last step drops the very guard `logger` returned, and the install step uses the built root logger's component=signal_handler child. Once the configuration loads, the build step records its logging section. A panic before app_main leaves the flag cells as they were. |
| `Microservice.WithLogger` | microservice/src/lib.rs:15-26 | Once the logger exists, the run installs the handler with the root logger's component=signal_handler child. Installing panics exactly when registration fails, and then the run stops after the install and the guard drop, with the flag cells as they were. Otherwise the start record and the app_main call follow. Every way out ends with dropping this guard. |
| `Microservice.WithHandler` | microservice/src/lib.rs:17-26 | Once the handler is installed, the start record and the app_main call follow. The run returns exactly when all seven steps happen. Otherwise app_main panicked. The flag cells are the ones set_handler left. The guard drop is last. |
| `Microservice.ResultPassesThrough` | microservice/src/lib.rs:22-26 | The run returns exactly when app_main was called and returned. The value is app_main's, unchanged. A panic in app_main ends the run with that panic. |
| `Microservice.SetupFailurePanics` | microservice/src/lib.rs:13-15 | A run panics at a setup step exactly when that step fails and the earlier ones succeeded. The panic carries the step's own message followed by the error. A configuration failure stops after one step. A setup panic never calls app_main. |
| `Microservice.AppMainArguments` | microservice/src/lib.rs:14-22 | A call means all setup succeeded. The logger is built from the loaded logging section. The handler gets the root logger's component=signal_handler child. The start record comes right before the call. app_main gets the application section, the root logger's component=main child, and exactly the signal set_handler returned. Running the installed handler stops that signal. |
| `Microservice.DefaultLogging` | microservice/src/lib.rs:14 | With no logging section, app_main's logger filters at Info and writes JSON with default keys to stdout. |
| `Microservice.StartRecord` | microservice/src/lib.rs:17-22 | The start record is an Info record on the root logger that `logger` built, with its filter and buffer. It carries the debug rendering of the whole configuration. app_main is called right after it. |
| `Microservice.ExitRecord` | microservice/src/lib.rs:22-25 | The exit record appears only when app_main returned. It is an Info record on the root logger that `logger` built, right after app_main and right before the drop of the guard `logger` returned. |

## Left out

- `config.rs` (`load_config`): the merging of the optional `Config.yaml` with
  `APP_`-prefixed environment variables, and serde's derived deserialisation
  of the sections, belong to the `config` and `serde` crates. The loaded
  configuration, or its error, is a parameter of the run.
- The procedural macro crate rewrites source text and has no runtime behaviour.
- slog's behaviour is not modelled. This covers the record formatting (JSON keys, terminal styling), the
  asynchronous worker thread, and what releasing the guard does beyond being
  recorded. The level comparison a `LevelFilter` performs is also slog's, so
  whether a given record passes the filter is not modelled. Drains, loggers
  and the guard are descriptive tokens.
- `Logging.VisitLevel`: `slog::Level::from_str` is a parameter, with its error
  given by its debug rendering. The message for a non-string, non-null token
  follows serde's default visitor ("invalid type: …, expected …"). Only the
  fact that it names the expected form is stated.
- Opening the log file is a parameter (`Opener`). The handler's registration
  with the `ctrlc` crate is a parameter (`register`), so the rule that a
  second registration fails belongs to that crate and is not modelled.
- Atomics and `Ordering::Relaxed` are not modelled. Loads and stores of the flag are sequential.
  OS signal delivery is modelled as `Interrupt` operations.
- `Microservice.MicroserviceRun`: it assumes panics unwind, which is Rust's
  default. With `panic = "abort"`, no guard is released on a panic path.
- `Microservice.MicroserviceRun`: app_main can only return or panic. An
  app_main that calls `std::process::exit`, aborts or never returns cannot be
  expressed. Such a run skips the exit record and the guard drop, so "the guard
  is dropped exactly when the logger was built" holds only for app_main
  functions that return or panic.
- `Microservice.MicroserviceRun`: the run does not interleave interrupts with
  its own steps, or with app_main. An interrupt that arrives after
  registration but before the call is not modelled, and it would hand app_main
  a signal that already reads stopped. The returned cells are those just after
  installation. What a reader sees under any interleaving of interrupts and
  polls is stated by `Handler.ObserveSharedCell`.
- `Logging.Build`: the stream of the terminal decorator (text format, no path)
  is left abstract as `TerminalStream`. The code builds that decorator without
  naming a stream, so it is slog-term's default, and the model does not
  identify it with standard output.
- Error values of `config`, `std::io` and `ctrlc` are represented only by
  their debug rendering, which is what the panic messages carry.
