/**
 * The process builder: a mutable bag of spawn settings and the decision, in `start()`,
 * of which pseudo-terminal backend constructs the process.
 */
module PtyProcessBuilder {
  import opened Wrappers

  type Environment = map<string, string>

  /** A caller-supplied `LongConsumer`; only its identity matters here. */
  type Callback = nat

  /** `Command.CommandList` wraps a `String[]`; any other `Command` is kept opaque. */
  datatype Command = CommandList(argv: seq<string>) | OtherCommand(id: nat)

  datatype Backend = Cygwin | ConPty | WinPty | Unix

  /** How `new WinConPtyProcess(...)` ends when `start()` attempts it. */
  datatype ConPtyConstruction = ConPtyCreated | ConPtyLinkError | ConPtyIoError

  /** The backend `start()` returns, or the `IOException` of the ConPTY constructor. */
  datatype Selection = Chosen(backend: Backend) | ConPtyIoFailure

  /** Every field of the builder, as one value. */
  datatype Settings = Settings(
    command: Option<Command>,
    environment: Option<Environment>,
    directory: Option<string>,
    console: bool,
    cygwin: bool,
    logFile: Option<string>,
    redirectErrorStream: bool,
    initialColumns: Option<int>,
    initialRows: Option<int>,
    windowsAnsiColorEnabled: bool,
    unixOpenTtyToPreserveOutputAfterTermination: bool,
    useWinConPty: bool,
    spawnProcessUsingJdkOnMacIntel: bool,
    suspendedProcessCallback: Option<Callback>)

  /** The `PtyProcessOptions` value handed to the ConPTY, WinPty and Unix backends. */
  datatype ProcessOptions = ProcessOptions(
    command: Option<Command>,
    environment: Option<Environment>,
    directory: Option<string>,
    redirectErrorStream: bool,
    initialColumns: Option<int>,
    initialRows: Option<int>,
    windowsAnsiColorEnabled: bool,
    unixOpenTtyToPreserveOutputAfterTermination: bool,
    spawnProcessUsingJdkOnMacIntel: bool)

  /** The backend constructor `start()` calls, with the arguments it passes. */
  datatype Launch =
    | LaunchCygwin(command: Command, environment: Option<Environment>, directory: Option<string>,
                   logFile: Option<string>, console: bool)
    | LaunchConPty(options: ProcessOptions, callback: Option<Callback>)
    | LaunchWinPty(options: ProcessOptions, console: bool)
    | LaunchUnix(options: ProcessOptions, console: bool)
  {
    function Backend(): Backend {
      match this
      case LaunchCygwin(_, _, _, _, _) => Cygwin
      case LaunchConPty(_, _) => ConPty
      case LaunchWinPty(_, _) => WinPty
      case LaunchUnix(_, _) => Unix
    }
  }

  /** Why `start()` throws: `myCommand.toArray()` on a null command, or ConPTY's `IOException`. */
  datatype StartError = NullCommand | ConPtyIo

  /** The settings a builder made by the no-argument constructor starts from. */
  function DefaultSettings(command: Option<Command>): (s: Settings)
    ensures s.command == command
    ensures s.environment.None? && s.directory.None? && s.logFile.None?
    ensures s.initialColumns.None? && s.initialRows.None? && s.suspendedProcessCallback.None?
    ensures !s.console && !s.cygwin && !s.redirectErrorStream && !s.windowsAnsiColorEnabled
    ensures !s.unixOpenTtyToPreserveOutputAfterTermination && !s.useWinConPty
    ensures s.spawnProcessUsingJdkOnMacIntel
  {
    Settings(command, None, None, false, false, None, false, None, None, false, false, false, true, None)
  }

  /**
   * The options passed to every backend but Cygwin: the nine settings they share, carried
   * unchanged; `console`, `cygwin`, the log file, `useWinConPty` and the callback are not in them.
   */
  function OptionsOf(s: Settings): (o: ProcessOptions)
    ensures o.command == s.command && o.environment == s.environment && o.directory == s.directory
    ensures o.redirectErrorStream == s.redirectErrorStream
    ensures o.initialColumns == s.initialColumns && o.initialRows == s.initialRows
    ensures o.windowsAnsiColorEnabled == s.windowsAnsiColorEnabled
    ensures o.unixOpenTtyToPreserveOutputAfterTermination == s.unixOpenTtyToPreserveOutputAfterTermination
    ensures o.spawnProcessUsingJdkOnMacIntel == s.spawnProcessUsingJdkOnMacIntel
  {
    ProcessOptions(s.command, s.environment, s.directory, s.redirectErrorStream,
                   s.initialColumns, s.initialRows, s.windowsAnsiColorEnabled,
                   s.unixOpenTtyToPreserveOutputAfterTermination, s.spawnProcessUsingJdkOnMacIntel)
  }

  /**
   * The backend choice of `start()`. `conPty` is what the ConPTY constructor would do; it is
   * consulted only on the branch that attempts it. A link error falls back to WinPty.
   */
  function SelectBackend(isWindows: bool, cygwin: bool, useWinConPty: bool, console: bool,
                         conPty: ConPtyConstruction): (r: Selection)
    ensures r == Chosen(Unix) <==> !isWindows
    ensures r == Chosen(Cygwin) <==> isWindows && cygwin
    ensures r == Chosen(ConPty) <==>
              isWindows && !cygwin && useWinConPty && !console && conPty == ConPtyCreated
    ensures r == Chosen(WinPty) <==>
              isWindows && !cygwin && (!(useWinConPty && !console) || conPty == ConPtyLinkError)
    ensures r == ConPtyIoFailure <==>
              isWindows && !cygwin && useWinConPty && !console && conPty == ConPtyIoError
  {
    if isWindows then
      if cygwin then Chosen(Cygwin)
      else if useWinConPty && !console then
        match conPty
        case ConPtyCreated => Chosen(ConPty)
        case ConPtyLinkError => Chosen(WinPty)
        case ConPtyIoError => ConPtyIoFailure
      else Chosen(WinPty)
    else Chosen(Unix)
  }

  /** The backend constructor call `start()` makes with settings `s`, or the exception it throws. */
  function StartOutcome(s: Settings, isWindows: bool, conPty: ConPtyConstruction): (r: Result<Launch, StartError>)
    ensures var sel := SelectBackend(isWindows, s.cygwin, s.useWinConPty, s.console, conPty);
            && (r.Ok? ==> sel == Chosen(r.value.Backend()))
            && (r == Err(ConPtyIo) <==> sel == ConPtyIoFailure)
            && (r == Err(NullCommand) <==> sel == Chosen(Cygwin) && s.command.None?)
    ensures r.Ok? && r.value.LaunchCygwin? ==>
              Some(r.value.command) == s.command && r.value.environment == s.environment &&
              r.value.directory == s.directory && r.value.logFile == s.logFile &&
              r.value.console == s.console
    ensures r.Ok? && r.value.LaunchConPty? ==>
              r.value.options == OptionsOf(s) && r.value.callback == s.suspendedProcessCallback
    ensures r.Ok? && (r.value.LaunchWinPty? || r.value.LaunchUnix?) ==>
              r.value.options == OptionsOf(s) && r.value.console == s.console
  {
    match SelectBackend(isWindows, s.cygwin, s.useWinConPty, s.console, conPty)
    case ConPtyIoFailure => Err(ConPtyIo)
    case Chosen(Cygwin) =>
      if s.command.None? then Err(NullCommand)
      else Ok(LaunchCygwin(s.command.value, s.environment, s.directory, s.logFile, s.console))
    case Chosen(ConPty) => Ok(LaunchConPty(OptionsOf(s), s.suspendedProcessCallback))
    case Chosen(WinPty) => Ok(LaunchWinPty(OptionsOf(s), s.console))
    case Chosen(Unix) => Ok(LaunchUnix(OptionsOf(s), s.console))
  }

  /** The ConPTY outcome matters only on the branch that attempts ConPTY. */
  lemma ConPtyConsultedOnlyWhenAttempted(isWindows: bool, cygwin: bool, useWinConPty: bool, console: bool,
                                         a: ConPtyConstruction, b: ConPtyConstruction)
    requires !(isWindows && !cygwin && useWinConPty && !console)
    ensures SelectBackend(isWindows, cygwin, useWinConPty, console, a)
         == SelectBackend(isWindows, cygwin, useWinConPty, console, b)
  {
  }

  class Builder {
    var command: Option<Command>
    var environment: Option<Environment>
    var directory: Option<string>
    var console: bool
    var cygwin: bool
    var logFile: Option<string>
    var redirectErrorStream: bool
    var initialColumns: Option<int>
    var initialRows: Option<int>
    var windowsAnsiColorEnabled: bool
    var unixOpenTtyToPreserveOutputAfterTermination: bool
    var useWinConPty: bool
    var spawnProcessUsingJdkOnMacIntel: bool
    var suspendedProcessCallback: Option<Callback>

    function State(): Settings
      reads this
    {
      Settings(command, environment, directory, console, cygwin, logFile, redirectErrorStream,
               initialColumns, initialRows, windowsAnsiColorEnabled,
               unixOpenTtyToPreserveOutputAfterTermination, useWinConPty,
               spawnProcessUsingJdkOnMacIntel, suspendedProcessCallback)
    }

    /** `new PtyProcessBuilder()`: every reference null, every flag false but the macOS one. */
    constructor ()
      ensures State() == DefaultSettings(None)
      ensures !redirectErrorStream && !windowsAnsiColorEnabled && !unixOpenTtyToPreserveOutputAfterTermination
      ensures !useWinConPty && !console && !cygwin && spawnProcessUsingJdkOnMacIntel
    {
      command, environment, directory := None, None, None;
      console, cygwin, logFile := false, false, None;
      redirectErrorStream, initialColumns, initialRows := false, None, None;
      windowsAnsiColorEnabled, unixOpenTtyToPreserveOutputAfterTermination := false, false;
      useWinConPty, spawnProcessUsingJdkOnMacIntel := false, true;
      suspendedProcessCallback := None;
    }

    /** `new PtyProcessBuilder(Command)`. */
    constructor WithCommand(c: Command)
      ensures State() == DefaultSettings(Some(c))
    {
      command, environment, directory := Some(c), None, None;
      console, cygwin, logFile := false, false, None;
      redirectErrorStream, initialColumns, initialRows := false, None, None;
      windowsAnsiColorEnabled, unixOpenTtyToPreserveOutputAfterTermination := false, false;
      useWinConPty, spawnProcessUsingJdkOnMacIntel := false, true;
      suspendedProcessCallback := None;
    }

    /** `new PtyProcessBuilder(String[])`: the array is wrapped as a `CommandList`. */
    constructor WithArgs(argv: seq<string>)
      ensures State() == DefaultSettings(Some(CommandList(argv)))
    {
      command, environment, directory := Some(CommandList(argv)), None, None;
      console, cygwin, logFile := false, false, None;
      redirectErrorStream, initialColumns, initialRows := false, None, None;
      windowsAnsiColorEnabled, unixOpenTtyToPreserveOutputAfterTermination := false, false;
      useWinConPty, spawnProcessUsingJdkOnMacIntel := false, true;
      suspendedProcessCallback := None;
    }

    /** `setCommand(String[])`. */
    method SetCommandArgs(argv: seq<string>) returns (r: Builder)
      modifies this
      ensures r == this && State() == old(State()).(command := Some(CommandList(argv)))
    {
      command := Some(CommandList(argv));
      r := this;
    }

    /** `setCommand(Command)`. */
    method SetCommand(c: Command) returns (r: Builder)
      modifies this
      ensures r == this && State() == old(State()).(command := Some(c))
    {
      command := Some(c);
      r := this;
    }

    method SetEnvironment(env: Option<Environment>) returns (r: Builder)
      modifies this
      ensures r == this && State() == old(State()).(environment := env)
    {
      environment := env;
      r := this;
    }

    method SetDirectory(dir: Option<string>) returns (r: Builder)
      modifies this
      ensures r == this && State() == old(State()).(directory := dir)
    {
      directory := dir;
      r := this;
    }

    method SetConsole(b: bool) returns (r: Builder)
      modifies this
      ensures r == this && State() == old(State()).(console := b)
    {
      console := b;
      r := this;
    }

    method SetCygwin(b: bool) returns (r: Builder)
      modifies this
      ensures r == this && State() == old(State()).(cygwin := b)
    {
      cygwin := b;
      r := this;
    }

    method SetLogFile(file: Option<string>) returns (r: Builder)
      modifies this
      ensures r == this && State() == old(State()).(logFile := file)
    {
      logFile := file;
      r := this;
    }

    method SetRedirectErrorStream(b: bool) returns (r: Builder)
      modifies this
      ensures r == this && State() == old(State()).(redirectErrorStream := b)
    {
      redirectErrorStream := b;
      r := this;
    }

    method SetInitialColumns(n: Option<int>) returns (r: Builder)
      modifies this
      ensures r == this && State() == old(State()).(initialColumns := n)
    {
      initialColumns := n;
      r := this;
    }

    method SetInitialRows(n: Option<int>) returns (r: Builder)
      modifies this
      ensures r == this && State() == old(State()).(initialRows := n)
    {
      initialRows := n;
      r := this;
    }

    method SetWindowsAnsiColorEnabled(b: bool) returns (r: Builder)
      modifies this
      ensures r == this && State() == old(State()).(windowsAnsiColorEnabled := b)
    {
      windowsAnsiColorEnabled := b;
      r := this;
    }

    method SetUseWinConPty(b: bool) returns (r: Builder)
      modifies this
      ensures r == this && State() == old(State()).(useWinConPty := b)
    {
      useWinConPty := b;
      r := this;
    }

    method SetWindowsSuspendedProcessCallback(callback: Callback) returns (r: Builder)
      modifies this
      ensures r == this && State() == old(State()).(suspendedProcessCallback := Some(callback))
    {
      suspendedProcessCallback := Some(callback);
      r := this;
    }

    method SetUnixOpenTtyToPreserveOutputAfterTermination(b: bool) returns (r: Builder)
      modifies this
      ensures r == this && State() == old(State()).(unixOpenTtyToPreserveOutputAfterTermination := b)
    {
      unixOpenTtyToPreserveOutputAfterTermination := b;
      r := this;
    }

    method SetSpawnProcessUsingJdkOnMacIntel(b: bool) returns (r: Builder)
      modifies this
      ensures r == this && State() == old(State()).(spawnProcessUsingJdkOnMacIntel := b)
    {
      spawnProcessUsingJdkOnMacIntel := b;
      r := this;
    }

    /**
     * `start()`: a null environment becomes the system environment (a non-null one is kept),
     * then exactly one backend constructor is called, or an exception propagates.
     * `isWindows` is `Platform.isWindows()`; `conPty` is how the ConPTY constructor would end.
     */
    method Start(isWindows: bool, systemEnvironment: Environment, conPty: ConPtyConstruction)
      returns (r: Result<Launch, StartError>)
      modifies this
      ensures old(environment).None? ==> environment == Some(systemEnvironment)
      ensures old(environment).Some? ==> environment == old(environment)
      ensures State() == old(State()).(environment := environment)
      ensures r == StartOutcome(State(), isWindows, conPty)
    {
      if environment.None? {
        environment := Some(systemEnvironment);
      }
      r := StartOutcome(State(), isWindows, conPty);
    }
  }

  /** Setters chain on one builder and the last `start()` sees every value set. */
  method ConfigureAndStart(argv: seq<string>, systemEnvironment: Environment)
    returns (r: Result<Launch, StartError>)
    ensures r == Ok(LaunchWinPty(ProcessOptions(Some(CommandList(argv)), Some(systemEnvironment), None,
                                                false, Some(132), None, false, false, true), true))
  {
    var b := new Builder.WithArgs(argv);
    var b2 := b.SetUseWinConPty(true);
    b2 := b2.SetConsole(true);
    b2 := b2.SetInitialColumns(Some(132));
    r := b.Start(true, systemEnvironment, ConPtyCreated);
  }
}
