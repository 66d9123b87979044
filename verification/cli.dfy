/**
 * The command factory: it builds each CLI command from its definition,
 * resolves the telemetry mode, fills in the input and output streams on
 * first use, wraps each phase's error under the command's display name, and
 * decides whether a failure prints the usage text.
 *
 * Nil pointers of the source are `None`; the process's standard streams and
 * the output target file are values of `File`.
 */
module Cli {
  import opened Results

  /** A file a command reads from or writes to. */
  datatype File = Stdin | Stdout | Stderr | TargetFile(path: string)

  /** A terminal UI and the three streams it was built on. */
  datatype UI = UI(inReader: File, outWriter: File, errWriter: File)

  /** A telemetry mode. `ModeNil` means that no mode was given on the command
      line; the named modes are defined outside this model. */
  datatype Mode = ModeNil | Named(name: string)

  /** A telemetry service, created for one mode and one command. */
  datatype TelemetryService = TelemetryService(mode: Mode, command: string)

  datatype Event = CommandStart | CommandError(err: Error) | CommandComplete

  /** A Go error: a plain message, a `%w` wrapping with its context, or a
      suppressUsageError around another error. */
  datatype Error =
    | Message(text: string)
    | Wrapped(context: string, cause: Error)
    | SuppressUsage(inner: Error)

  /** The text `Error()` returns. */
  function ErrorText(e: Error): string {
    match e
    case Message(text) => text
    case Wrapped(context, cause) => context + ": " + ErrorText(cause)
    case SuppressUsage(inner) => ErrorText(inner)
  }

  /** Whether a failure prints the usage text: only when the error is not a suppressUsageError. */
  predicate ShowsUsage(e: Error) {
    !e.SuppressUsage?
  }

  /** A command's definition, and which optional capabilities it has
      (a setup phase, a feedback phase, flags of its own). */
  datatype CommandDefinition = CommandDefinition(
    use: string,
    display: string,
    description: string,
    help: string,
    aliases: seq<string>,
    isPreparer: bool,
    isResponder: bool,
    isFlagger: bool)

  /** The built command: its cobra properties, the name its hooks report
      failures under, and which optional hooks were installed. */
  datatype Command = Command(
    use: string,
    short: string,
    long: string,
    aliases: seq<string>,
    display: string,
    hasPreRunE: bool,
    hasPostRunE: bool,
    flagsRegistered: bool)

  /** How `Run` ends: normally, through log.Fatal, or through os.Exit. */
  datatype Exit = Continue | Fatal(err: Error) | ExitCode(code: int)

  /** The name used in messages: `Display`, or `Use` when `Display` is blank. */
  function DisplayName(def: CommandDefinition): (r: string)
    ensures def.display != "" ==> r == def.display
    ensures def.display == "" ==> r == def.use
  {
    if def.display == "" then def.use else def.display
  }

  /** A handler error: reported without usage. */
  function HandlerFailure(display: string, e: Error): (r: Error)
    ensures !ShowsUsage(r)
    ensures ErrorText(r) == display + " failed: " + ErrorText(e)
  {
    SuppressUsage(Wrapped(display + " failed", e))
  }

  /** A setup error: reported with usage. */
  function SetupFailure(display: string, e: Error): (r: Error)
    ensures ShowsUsage(r)
    ensures ErrorText(r) == display + " setup failed: " + ErrorText(e)
  {
    Wrapped(display + " setup failed", e)
  }

  /** A feedback error: reported without usage. */
  function FeedbackFailure(display: string, e: Error): (r: Error)
    ensures !ShowsUsage(r)
    ensures ErrorText(r) == display + " completed, but displaying results failed: " + ErrorText(e)
  {
    SuppressUsage(Wrapped(display + " completed, " + "but displaying results failed", e))
  }

  /** The three phases report the same underlying error under three distinguishable messages. */
  lemma PhaseMessagesDiffer(display: string, e: Error)
    ensures var h := ErrorText(HandlerFailure(display, e));
            var s := ErrorText(SetupFailure(display, e));
            var f := ErrorText(FeedbackFailure(display, e));
            h != s && s != f && h != f
  {
    var h := ErrorText(HandlerFailure(display, e));
    var s := ErrorText(SetupFailure(display, e));
    var f := ErrorText(FeedbackFailure(display, e));
    var n := |display| + 1;
    assert f == display + " completed, " + "but displaying results failed" + ": " + ErrorText(e);
    assert h[n] == 'f' && s[n] == 's' && f[n] == 'c';
  }

  /** The telemetry mode in effect: the flag's, unless no flag was given. */
  function EffectiveMode(flag: Mode, existing: Mode): (m: Mode)
    ensures flag != ModeNil ==> m == flag
    ensures flag == ModeNil ==> m == existing
  {
    if flag == ModeNil then existing else flag
  }

  /** Once the profile holds the effective mode, resolving again with the same
      flag gives the same mode, so a second configuration saves nothing. */
  lemma EffectiveModeSettles(flag: Mode, existing: Mode)
    ensures EffectiveMode(flag, EffectiveMode(flag, existing)) == EffectiveMode(flag, existing)
    ensures existing != ModeNil ==> EffectiveMode(flag, existing) != ModeNil
  {
  }

  class CommandFactory {
    /** config.OutputTarget: the file output is redirected to, or empty. */
    const outputTarget: string
    /** config.TelemetryMode: the mode given on the command line. */
    const telemetryFlag: Mode
    /** The profile's telemetry mode, and the modes written by each profile save. */
    var profileMode: Mode
    var profileSaves: seq<Mode>
    var inReader: Option<File>
    var outWriter: Option<File>
    var errWriter: Option<File>
    var ui: Option<UI>
    var telemetry: Option<TelemetryService>
    /** The events tracked by the telemetry service. */
    var events: seq<Event>
    var closed: set<File>

    constructor (outputTarget: string, telemetryFlag: Mode, profileMode: Mode)
      ensures this.outputTarget == outputTarget && this.telemetryFlag == telemetryFlag
      ensures this.profileMode == profileMode && profileSaves == []
      ensures inReader == None && outWriter == None && errWriter == None && ui == None
      ensures telemetry == None && events == [] && closed == {}
    {
      this.outputTarget := outputTarget;
      this.telemetryFlag := telemetryFlag;
      this.profileMode := profileMode;
      profileSaves := [];
      inReader, outWriter, errWriter, ui := None, None, None, None;
      telemetry := None;
      events := [];
      closed := {};
    }

    /** All three streams and the UI are set. */
    predicate StreamsReady()
      reads this
    {
      inReader.Some? && outWriter.Some? && errWriter.Some? && ui.Some?
    }

    /**
     * Setup: loads the profile (`loaded` is its telemetry mode or the load
     * error) and opens the output target (`openErr` is the open error).
     * Returns the error that log.Fatal would end the process with.
     */
    method Setup(loaded: Result<Mode>, openErr: Option<string>) returns (fatal: Option<string>)
      modifies this`profileMode, this`outWriter
      ensures loaded.Err? ==> fatal == Some(loaded.error) && unchanged(this)
      ensures loaded.Ok? ==> profileMode == loaded.value
      ensures loaded.Ok? && outputTarget == "" ==> fatal == None && outWriter == old(outWriter)
      ensures loaded.Ok? && outputTarget != "" && openErr.Some? ==>
                fatal == Some("failed to open target file: " + openErr.value) && outWriter == old(outWriter)
      ensures loaded.Ok? && outputTarget != "" && openErr.None? ==>
                fatal == None && outWriter == Some(TargetFile(outputTarget))
    {
      if loaded.Err? {
        return Some(loaded.error);
      }
      profileMode := loaded.value;

      if outputTarget != "" {
        if openErr.Some? {
          return Some("failed to open target file: " + openErr.value);
        }
        outWriter := Some(TargetFile(outputTarget));
      }
      fatal := None;
    }

    /** Close: the output writer is closed only when output was redirected to a target file. */
    method Close()
      modifies this`closed
      ensures closed == if outputTarget != "" && outWriter.Some? then old(closed) + {outWriter.value} else old(closed)
    {
      if outputTarget != "" && outWriter.Some? {
        closed := closed + {outWriter.value};
      }
    }

    /**
     * Run: `execErr` is what executing the command returned and `printFails`
     * whether printing the error log fails. Returns whether the usage text
     * was printed, whether the error was shown through the UI, and how the
     * process ends.
     */
    method Run(execErr: Option<Error>, printFails: bool) returns (usagePrinted: bool, shownOnUI: bool, exit: Exit)
      ensures usagePrinted <==> execErr.Some? && ShowsUsage(execErr.value)
      ensures shownOnUI <==> execErr.Some? && ui.Some?
      ensures execErr.None? ==> exit == Continue
      ensures execErr.Some? && ui.None? ==> exit == Fatal(execErr.value)
      ensures execErr.Some? && ui.Some? ==> exit == if printFails then Fatal(execErr.value) else ExitCode(1)
    {
      usagePrinted, shownOnUI, exit := false, false, Continue;
      if execErr.Some? {
        if !execErr.value.SuppressUsage? {
          usagePrinted := true;
        }

        if ui.None? {
          return usagePrinted, shownOnUI, Fatal(execErr.value);
        }

        shownOnUI := true;
        if printFails {
          return usagePrinted, shownOnUI, Fatal(execErr.value);
        }

        exit := ExitCode(1);
      }
    }

    /**
     * configureTelemetry: resolves the mode, saves the profile only when the
     * mode changes (`saveErr` is the save's error), then creates the service.
     */
    method ConfigureTelemetry(command: string, saveErr: Option<string>) returns (err: Option<string>)
      modifies this`profileMode, this`profileSaves, this`telemetry
      ensures var mode := EffectiveMode(telemetryFlag, old(profileMode));
              var changed := mode != old(profileMode);
              && profileMode == mode
              && profileSaves == old(profileSaves) + (if changed then [mode] else [])
              && err == (if changed then saveErr else None)
              && telemetry == (if err.None? then Some(TelemetryService(mode, command)) else old(telemetry))
    {
      var telemetryMode := telemetryFlag;
      var existingTelemetryMode := profileMode;
      if telemetryMode == ModeNil {
        telemetryMode := existingTelemetryMode;
      }
      if telemetryMode != existingTelemetryMode {
        profileMode := telemetryMode;
        profileSaves := profileSaves + [telemetryMode];
        if saveErr.Some? {
          return saveErr;
        }
      }
      telemetry := Some(TelemetryService(telemetryMode, command));
      err := None;
    }

    /** ensureUI: each stream and the UI are set only when still unset. */
    method EnsureUI()
      modifies this`inReader, this`outWriter, this`errWriter, this`ui
      ensures inReader == if old(inReader).None? then Some(Stdin) else old(inReader)
      ensures outWriter == if old(outWriter).None? then Some(Stdout) else old(outWriter)
      // with a target file, errors go where the output goes
      ensures errWriter == if old(errWriter).Some? then old(errWriter)
                           else if outputTarget != "" then outWriter
                           else Some(Stderr)
      ensures ui == if old(ui).Some? then old(ui)
                    else Some(UI(inReader.value, outWriter.value, errWriter.value))
      ensures StreamsReady()
      // a second call changes nothing
      ensures old(StreamsReady()) ==> unchanged(this)
    {
      if inReader.None? {
        inReader := Some(Stdin);
      }

      if outWriter.None? {
        outWriter := Some(Stdout);
      }

      if errWriter.None? {
        if outputTarget != "" {
          errWriter := outWriter;
        } else {
          errWriter := Some(Stderr);
        }
      }

      if ui.None? {
        ui := Some(UI(inReader.value, outWriter.value, errWriter.value));
      }
    }

    /** The PersistentPreRun hook: ensure the UI, then hand the streams to the command. */
    method PersistentPreRun() returns (input: File, output: File, errors: File)
      modifies this`inReader, this`outWriter, this`errWriter, this`ui
      ensures inReader == if old(inReader).None? then Some(Stdin) else old(inReader)
      ensures outWriter == if old(outWriter).None? then Some(Stdout) else old(outWriter)
      ensures errWriter == if old(errWriter).Some? then old(errWriter)
                           else if outputTarget != "" then outWriter
                           else Some(Stderr)
      ensures ui == if old(ui).Some? then old(ui)
                    else Some(UI(inReader.value, outWriter.value, errWriter.value))
      ensures StreamsReady()
      // the command is handed the factory's streams
      ensures input == inReader.value && output == outWriter.value && errors == errWriter.value
      ensures old(StreamsReady()) ==> unchanged(this)
    {
      EnsureUI();
      input, output, errors := inReader.value, outWriter.value, errWriter.value;
    }

    /**
     * Build: configures telemetry under the display name (an error there is
     * the error log.Fatal ends the process with) and builds the command with
     * the optional hooks its definition calls for.
     */
    method Build(def: CommandDefinition, saveErr: Option<string>) returns (fatal: Option<string>, cmd: Command)
      modifies this`profileMode, this`profileSaves, this`telemetry
      ensures var mode := EffectiveMode(telemetryFlag, old(profileMode));
              var changed := mode != old(profileMode);
              && fatal == (if changed then saveErr else None)
              && profileMode == mode
              && profileSaves == old(profileSaves) + (if changed then [mode] else [])
              && telemetry == (if fatal.None? then Some(TelemetryService(mode, DisplayName(def))) else old(telemetry))
      ensures fatal.None? ==>
                cmd == Command(def.use, def.description, def.help, def.aliases, DisplayName(def),
                               def.isPreparer, def.isResponder, def.isFlagger)
    {
      var display := def.display;
      if display == "" {
        display := def.use;
      }

      var err := ConfigureTelemetry(display, saveErr);
      cmd := Command(def.use, def.description, def.help, def.aliases, display,
                     def.isPreparer, def.isResponder, def.isFlagger);
      if err.Some? {
        return err, cmd;
      }
      fatal := None;
    }

    /** The RunE hook: tracks the start, runs the handler (`handlerErr` is its
        error), tracks the outcome, and wraps a failure under the display name. */
    method RunE(cmd: Command, handlerErr: Option<Error>) returns (r: Option<Error>)
      modifies this`events
      ensures events == old(events) + [CommandStart]
                        + (if handlerErr.Some? then [CommandError(handlerErr.value)] else [CommandComplete])
      ensures r == if handlerErr.Some? then Some(HandlerFailure(cmd.display, handlerErr.value)) else None
    {
      events := events + [CommandStart];
      if handlerErr.Some? {
        events := events + [CommandError(handlerErr.value)];
        return Some(HandlerFailure(cmd.display, handlerErr.value));
      }
      events := events + [CommandComplete];
      r := None;
    }
  }
}
