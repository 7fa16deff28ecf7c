/** The logging section of the configuration and the pipeline `logger` builds
    from it: a level filter in front of an asynchronous buffer in front of a
    JSON or text formatter writing to standard output or to a file. Drains,
    the buffer's worker thread and the guard are abstract tokens; opening the
    file and parsing a level name are parameters. */
module Logging {
  import opened Wrappers
  import opened Strings

  /** slog's severities, most severe first. */
  datatype Level = Critical | Error | Warning | Info | Debug | Trace

  /** The output format; its configuration names are snake_case. */
  datatype LoggingFormat = Json | Text

  /** The `logging` configuration section. */
  datatype Config = Config(level: Option<Level>, format: LoggingFormat, path: Option<string>)

  /** The section used when the configuration has none. */
  function DefaultConfig(): (c: Config)
    ensures forall d :: Describes(c, d) <==> d == LevelFilter(Info, Async(Output(JsonRecords(true), Stdout)))
  {
    Config(Some(Info), Json, None)
  }

  /** The section `logger` actually works from (`unwrap_or_default`). */
  function Effective(opt: Option<Config>): (c: Config)
    ensures opt.Some? ==> c == opt.value
    ensures opt.None? ==> c.level == Some(Info) && c.format == Json && c.path == None
  {
    opt.GetOr(DefaultConfig())
  }

  // ---------------------------------------------------------------------------
  // Deserialising the section's fields

  /** The name a format has in configuration sources. */
  function FormatName(f: LoggingFormat): string {
    match f
    case Json => "json"
    case Text => "text"
  }

  /** Reads a format name; only the snake_case variant names are accepted. */
  function ParseFormat(s: string): (r: Option<LoggingFormat>)
    ensures r.Some? ==> FormatName(r.value) == s
  {
    if s == "json" then Some(Json)
    else if s == "text" then Some(Text)
    else None
  }

  /** Every format survives being written out and read back, and every name
      that is read back is the name of the format it denotes. */
  lemma FormatRoundTrip(f: LoggingFormat, s: string)
    ensures ParseFormat(FormatName(f)) == Some(f)
    ensures ParseFormat(s) == Some(f) <==> s == FormatName(f)
  {
  }

  /** What the level visitor announces it expects. */
  const Expecting := "A slog::Level string representation or null."

  /** A scalar presented to the level visitor: a string, a unit/null, or any
      other kind of value, given by its description. */
  datatype LevelToken = Str(text: string) | Unit | Unexpected(description: string)

  /** Reading the optional `level` field. `parse` stands for slog's
      `Level::from_str`; its error is given by its debug rendering. */
  function VisitLevel(parse: string -> Result<Level, string>, token: LevelToken): (r: Result<Option<Level>, string>)
    ensures token.Unit? ==> r == Success(None)
    ensures token.Str? ==> (r.Success? <==> parse(token.text).Success?)
    ensures token.Str? && r.Success? ==> r.value == Some(parse(token.text).value)
    ensures token.Str? && r.Failure? ==> Contains(r.error, token.text)
    ensures token.Unexpected? ==> r.Failure? && Contains(r.error, Expecting)
  {
    match token
    case Unit => Success(None)
    case Str(text) =>
      (match parse(text)
       case Success(level) => Success(Some(level))
       case Failure(e) =>
         var message := "Error parsing log level '" + text + "': " + e;
         assert message == "Error parsing log level '" + text + ("': " + e);
         ContainsInfix("Error parsing log level '", text, "': " + e);
         Failure(message))
    case Unexpected(description) =>
      var message := "invalid type: " + description + ", expected " + Expecting;
      ContainsSuffix("invalid type: " + description + ", expected ", Expecting);
      Failure(message)
  }

  // ---------------------------------------------------------------------------
  // The pipeline

  /** The options a log file is opened with. */
  datatype OpenOptions = OpenOptions(create: bool, append: bool, truncate: bool)

  /** Create the file if missing and append to it; never truncate. */
  const CreateAppend := OpenOptions(create := true, append := true, truncate := false)

  /** Where formatted records go: standard output, the stream the terminal
      decorator chooses for itself (it is built without naming one), or a
      file. */
  datatype Sink = Stdout | TerminalStream | File(path: string, options: OpenOptions)

  /** How the text formatter decorates output: plain, or with terminal styling. */
  datatype Decorator = PlainSync | Terminal

  /** The formatter at the end of the pipeline. */
  datatype Format = JsonRecords(defaultKeys: bool) | FullText(decorator: Decorator)

  /** A drain: a formatter writing to a sink, an asynchronous buffer, or a
      level filter, each wrapping the next. */
  datatype Drain =
    | Output(format: Format, sink: Sink)
    | Async(inner: Drain)
    | LevelFilter(min: Level, inner: Drain)

  /** A logger: its drain and the key/value pairs attached to its records. */
  datatype Logger = Logger(drain: Drain, tags: seq<(string, string)>)

  /** A log record. */
  datatype Record = Record(level: Level, message: string, fields: seq<(string, string)>)

  /** The handle whose release flushes the buffer of the asynchronous drain
      it names. */
  datatype AsyncGuard = AsyncGuard(buffer: Drain)

  /** A child logger (`Logger::new`): the same drain, more key/value pairs. */
  function Child(parent: Logger, kv: seq<(string, string)>): (l: Logger)
    ensures l.drain == parent.drain
    ensures |l.tags| == |parent.tags| + |kv|
    ensures l.tags[..|parent.tags|] == parent.tags && l.tags[|parent.tags|..] == kv
  {
    Logger(parent.drain, parent.tags + kv)
  }

  /** Deriving with no pairs changes nothing, and deriving twice is deriving
      once with both sets of pairs in order. */
  lemma ChildCompose(l: Logger, a: seq<(string, string)>, b: seq<(string, string)>)
    ensures Child(l, []) == l
    ensures Child(Child(l, a), b) == Child(l, a + b)
  {
  }

  /** Opening a file: success, or the debug rendering of the I/O error. */
  type Opener = (string, OpenOptions) -> Outcome<string>

  /** The pipeline a configuration section calls for, stated rule by rule:
      the filter level is the configured one or Info; the filter wraps the
      buffer, which wraps the formatter; the sink is the configured file,
      opened create+append, exactly when a path is given, and otherwise
      standard output for JSON and the terminal decorator's own stream for
      text; JSON keeps the default keys; text is undecorated exactly when
      written to a file. */
  ghost predicate Describes(c: Config, d: Drain) {
    && d.LevelFilter?
    && (c.level.Some? ==> d.min == c.level.value)
    && (c.level.None? ==> d.min == Info)
    && d.inner.Async?
    && d.inner.inner.Output?
    && var out := d.inner.inner;
       && (c.path.Some? ==> out.sink == File(c.path.value, CreateAppend))
       && (c.path.None? && c.format == Json ==> out.sink == Stdout)
       && (c.path.None? && c.format == Text ==> out.sink == TerminalStream)
       && (c.format == Json ==> out.format == JsonRecords(true))
       && (c.format == Text ==> out.format.FullText? && (out.format.decorator == PlainSync <==> out.sink.File?))
  }

  /** The pipeline has exactly one shape per configuration section. */
  lemma DescribesDeterminesDrain(c: Config, d1: Drain, d2: Drain)
    requires Describes(c, d1) && Describes(c, d2)
    ensures d1 == d2
  {
  }

  /** The file sink for `path`, opened create+append. */
  function OpenFile(path: string, open: Opener): (r: Result<Sink, string>)
    ensures r.Success? <==> open(path, CreateAppend).Pass?
    ensures r.Success? ==> r.value == File(path, CreateAppend)
    ensures r.Failure? ==> r.error == open(path, CreateAppend).error
  {
    match open(path, CreateAppend)
    case Pass => Success(File(path, CreateAppend))
    case Fail(e) => Failure(e)
  }

  /** The formatter and sink for one configuration section. */
  function FormattedDrain(c: Config, open: Opener): (r: Result<Drain, string>)
    ensures r.Failure? <==> c.path.Some? && open(c.path.value, CreateAppend).Fail?
    ensures r.Success? ==> r.value.Output? && (r.value.sink.File? <==> c.path.Some?)
    ensures r.Success? ==> (r.value.format.JsonRecords? <==> c.format == Json)
  {
    match c.format
    case Json =>
      (match c.path
       case Some(path) =>
         (match OpenFile(path, open)
          case Success(file) => Success(Output(JsonRecords(true), file))
          case Failure(e) => Failure(e))
       case None => Success(Output(JsonRecords(true), Stdout)))
    case Text =>
      (match c.path
       case Some(path) =>
         (match OpenFile(path, open)
          case Success(file) => Success(Output(FullText(PlainSync), file))
          case Failure(e) => Failure(e))
       case None => Success(Output(FullText(Terminal), TerminalStream)))
  }

  /** `logger`: builds the root logger and the buffer's guard, failing only
      when the configured file cannot be opened. */
  function Build(opt: Option<Config>, open: Opener): (r: Result<(Logger, AsyncGuard), string>)
    ensures var c := Effective(opt);
      r.Failure? <==> c.path.Some? && open(c.path.value, CreateAppend).Fail?
    ensures r.Failure? ==> r.error == open(Effective(opt).path.value, CreateAppend).error
    ensures r.Success? ==> Describes(Effective(opt), r.value.0.drain)
    ensures r.Success? ==> r.value.0.tags == [] && r.value.1.buffer == r.value.0.drain.inner
  {
    var c := Effective(opt);
    match FormattedDrain(c, open)
    case Failure(e) => Failure(e)
    case Success(formatted) =>
      var buffer := Async(formatted);
      Success((Logger(LevelFilter(c.level.GetOr(Info), buffer), []), AsyncGuard(buffer)))
  }

  /** With no section, the pipeline is Info, JSON with default keys, stdout,
      and building it cannot fail. */
  lemma DefaultPipeline(open: Opener)
    ensures Build(None, open).Success?
    ensures Build(None, open).value.0.drain == LevelFilter(Info, Async(Output(JsonRecords(true), Stdout)))
  {
  }

  /** A section whose level was read from a null still filters at Info. */
  lemma NullLevelFiltersAtInfo(parse: string -> Result<Level, string>, format: LoggingFormat, path: Option<string>, open: Opener)
    ensures var r := Build(Some(Config(VisitLevel(parse, Unit).value, format, path)), open);
      r.Success? ==> r.value.0.drain.min == Info
  {
  }
}
