/** Properties of the session side of `src/script_control.rs`: what `log_input` and
    `log_output` write and count against the output limit, the loggers
    `setup_logging` plans, the command text of the logs, the exit status and the
    window-change message. */
module ControlProperties {
  import opened Results
  import opened Decimal
  import opened Utils
  import opened Logging
  import opened Replay
  import opened ScriptControl

  // ---------------------------------------------------------------------------
  // `log_input` and `log_output`

  /** The count `log_data` reports, 0 for a failed call. */
  function Count(r: Result<nat, string>): nat {
    if r.Ok? then r.value else 0
  }

  /** The bytes the steps report written, in list order. */
  function Written(steps: seq<(LoggerState, Result<nat, string>)>): nat {
    if steps == [] then 0 else Count(steps[0].1) + Written(steps[1..])
  }

  /** The running total grows by exactly what the loggers that were called report. */
  lemma {:induction false} WalkTotal(steps: seq<(LoggerState, Result<nat, string>)>, states: seq<LoggerState>,
                                     outSize: nat, maxSize: nat)
    requires |steps| == |states|
    ensures var f := Walk(steps, states, outSize, maxSize);
            f.outSize == outSize + Written(steps[..f.calls])
    decreases |states|
  {
    var f := Walk(steps, states, outSize, maxSize);
    if states == [] {
      assert steps[..f.calls] == [];
    } else if steps[0].1.Err? || (maxSize > 0 && outSize + steps[0].1.value >= maxSize) {
      assert steps[..f.calls][1..] == [];
    } else {
      var n := steps[0].1.value;
      var rest := Walk(steps[1..], states[1..], outSize + n, maxSize);
      WalkTotal(steps[1..], states[1..], outSize + n, maxSize);
      assert steps[..f.calls][1..] == steps[1..][..rest.calls];
    }
  }

  /** A logger that was called holds the state its step produced, unless the call
      failed; a logger after the stop is untouched. */
  lemma {:induction false} WalkStates(steps: seq<(LoggerState, Result<nat, string>)>, states: seq<LoggerState>,
                                      outSize: nat, maxSize: nat)
    requires |steps| == |states|
    ensures var f := Walk(steps, states, outSize, maxSize);
            forall i :: 0 <= i < |states| ==>
              f.states[i] == if i < f.calls && steps[i].1.Ok? then steps[i].0 else states[i]
    decreases |states|
  {
    var f := Walk(steps, states, outSize, maxSize);
    if states != [] && steps[0].1.Ok? && !(maxSize > 0 && outSize + steps[0].1.value >= maxSize) {
      var n := steps[0].1.value;
      var rest := Walk(steps[1..], states[1..], outSize + n, maxSize);
      WalkStates(steps[1..], states[1..], outSize + n, maxSize);
      forall i | 1 <= i < |states|
        ensures f.states[i] == if i < f.calls && steps[i].1.Ok? then steps[i].0 else states[i]
      {
        assert f.states[i] == rest.states[i - 1];
        assert steps[1..][i - 1] == steps[i] && states[1..][i - 1] == states[i];
      }
    }
  }

  /** Every logger before the last one called took the chunk; the walk ends early only
      on the last one's error or on reaching a non-zero limit. */
  lemma {:induction false} WalkEnds(steps: seq<(LoggerState, Result<nat, string>)>, states: seq<LoggerState>,
                                    outSize: nat, maxSize: nat)
    requires |steps| == |states|
    ensures var f := Walk(steps, states, outSize, maxSize);
            forall i :: 0 <= i < f.calls - 1 ==> steps[i].1.Ok?
    ensures var f := Walk(steps, states, outSize, maxSize);
            f.result.Err? ==>
              || (steps[f.calls - 1].1.Err? && f.result.error == steps[f.calls - 1].1.error)
              || (f.result.error == LimitExceeded && maxSize > 0 && f.outSize >= maxSize)
    ensures var f := Walk(steps, states, outSize, maxSize);
            f.result.Ok? && maxSize > 0 ==> f.outSize < maxSize || (states == [] && f.outSize == outSize)
    decreases |states|
  {
    var f := Walk(steps, states, outSize, maxSize);
    if states != [] && steps[0].1.Ok? && !(maxSize > 0 && outSize + steps[0].1.value >= maxSize) {
      var n := steps[0].1.value;
      var rest := Walk(steps[1..], states[1..], outSize + n, maxSize);
      WalkEnds(steps[1..], states[1..], outSize + n, maxSize);
      forall i | 1 <= i < f.calls - 1 ensures steps[i].1.Ok? {
        assert steps[1..][i - 1] == steps[i];
      }
      if rest.result.Err? {
        assert steps[1..][rest.calls - 1] == steps[f.calls - 1];
      }
    }
  }

  /** Without a limit, a list of open loggers all take the chunk, in order, and the
      total grows by everything they report. */
  lemma FeedWithoutLimit(formats: seq<LogFormat>, states: seq<LoggerState>, stream: LogStream, data: string,
                         nows: seq<nat>, outSize: nat)
    requires |formats| == |states| == |nows|
    requires forall i :: 0 <= i < |states| ==> states[i].isOpen
    ensures var f := Feed(formats, states, stream, data, nows, outSize, 0);
            && f.result.Ok?
            && (forall i :: 0 <= i < |states| ==> f.states[i] == LogDataStep(formats[i], states[i], stream, data, nows[i]).0)
            && f.outSize == outSize + Written(Steps(formats, states, stream, data, nows))
  {
    var steps := Steps(formats, states, stream, data, nows);
    var f := Walk(steps, states, outSize, 0);
    WalkEnds(steps, states, outSize, 0);
    WalkStates(steps, states, outSize, 0);
    WalkTotal(steps, states, outSize, 0);
    assert steps[..f.calls] == steps;
  }

  /** `log_input` and `log_output` report the limit only once the total has reached
      a non-zero limit; a logger's own failure is reported as it is. */
  lemma FeedLimit(formats: seq<LogFormat>, states: seq<LoggerState>, stream: LogStream, data: string,
                  nows: seq<nat>, outSize: nat, maxSize: nat)
    requires |formats| == |states| == |nows|
    ensures var f := Feed(formats, states, stream, data, nows, outSize, maxSize);
            f.result == Err(LimitExceeded) ==> maxSize > 0 && f.outSize >= maxSize
    ensures var f := Feed(formats, states, stream, data, nows, outSize, maxSize);
            f.result == Err(NotInitialized) ==> !states[f.calls - 1].isOpen
  {
    var steps := Steps(formats, states, stream, data, nows);
    WalkEnds(steps, states, outSize, maxSize);
  }

  /** When the call succeeds under a non-zero limit, the total is below it. */
  lemma FeedOkBelowLimit(formats: seq<LogFormat>, states: seq<LoggerState>, stream: LogStream, data: string,
                         nows: seq<nat>, outSize: nat, maxSize: nat)
    requires |formats| == |states| == |nows| && outSize < maxSize
    ensures var f := Feed(formats, states, stream, data, nows, outSize, maxSize);
            f.result.Ok? ==> f.outSize < maxSize
  {
    WalkEnds(Steps(formats, states, stream, data, nows), states, outSize, maxSize);
  }

  /** A logger that is not open stops the loop at once: nothing is written and the
      total is unchanged. */
  lemma FeedStopsAtClosed(formats: seq<LogFormat>, states: seq<LoggerState>, stream: LogStream, data: string,
                          nows: seq<nat>, outSize: nat, maxSize: nat)
    requires |formats| == |states| == |nows| && |states| > 0 && !states[0].isOpen
    ensures Feed(formats, states, stream, data, nows, outSize, maxSize) == Fed(states, outSize, 1, Err(NotInitialized))
  {
  }

  // ---------------------------------------------------------------------------
  // The loggers `setup_logging` plans

  lemma {:induction false} InputsAppend(xs: seq<Association>, ys: seq<Association>)
    ensures Inputs(xs + ys) == Inputs(xs) + Inputs(ys)
    ensures Outputs(xs + ys) == Outputs(xs) + Outputs(ys)
    decreases |ys|
  {
    if ys == [] {
      assert xs + ys == xs;
    } else {
      var n := |ys| - 1;
      InputsAppend(xs, ys[..n]);
      assert (xs + ys)[..|xs + ys| - 1] == xs + ys[..n] && (xs + ys)[|xs + ys| - 1] == ys[n];
      var a := ys[n];
      assert Inputs(xs) + Inputs(ys[..n]) + (if a.isInput then [(a.path, a.format)] else [])
             == Inputs(xs) + (Inputs(ys[..n]) + if a.isInput then [(a.path, a.format)] else []);
      assert Outputs(xs) + Outputs(ys[..n]) + (if a.isOutput then [(a.path, a.format)] else [])
             == Outputs(xs) + (Outputs(ys[..n]) + if a.isOutput then [(a.path, a.format)] else []);
    }
  }

  lemma {:induction false} FirstMultiAppend(xs: seq<Association>, ys: seq<Association>)
    ensures FirstMulti(xs + ys) == if FirstMulti(xs).Some? then FirstMulti(xs) else FirstMulti(ys)
    decreases |ys|
  {
    if ys == [] {
      assert xs + ys == xs;
    } else {
      var n := |ys| - 1;
      FirstMultiAppend(xs, ys[..n]);
      assert (xs + ys)[..|xs + ys| - 1] == xs + ys[..n] && (xs + ys)[|xs + ys| - 1] == ys[n];
    }
  }

  /** The data logs are Raw: none of them can become the signal log. */
  lemma DataLogsAreRaw(args: Args)
    ensures forall a :: a in DataLogs(args) ==> a.format == Raw
    ensures FirstMulti(DataLogs(args)) == None
  {
    var io, i, o := Optional(args.logIo, true, true), Optional(args.logIn, true, false), Optional(args.logOut, false, true);
    FirstMultiAppend(io, i);
    FirstMultiAppend(io + i, o);
  }

  /** The data logs put one logger in the input list for `--log-io` and one for
      `--log-in`, and one in the output list for `--log-io` and one for `--log-out`. */
  lemma DataLogsRoutes(args: Args)
    ensures Inputs(DataLogs(args))
            == (if args.logIo.Some? then [(args.logIo.value, Raw)] else []) + (if args.logIn.Some? then [(args.logIn.value, Raw)] else [])
    ensures Outputs(DataLogs(args))
            == (if args.logIo.Some? then [(args.logIo.value, Raw)] else []) + (if args.logOut.Some? then [(args.logOut.value, Raw)] else [])
  {
    DataLogsInputs(args);
    DataLogsOutputs(args);
  }

  lemma DataLogsInputs(args: Args)
    ensures Inputs(DataLogs(args))
            == (if args.logIo.Some? then [(args.logIo.value, Raw)] else []) + (if args.logIn.Some? then [(args.logIn.value, Raw)] else [])
  {
    var io, i, o := Optional(args.logIo, true, true), Optional(args.logIn, true, false), Optional(args.logOut, false, true);
    InputsAppend(io, i);
    InputsAppend(io + i, o);
    OptionalRoutes(args.logIo, true, true);
    OptionalRoutes(args.logIn, true, false);
    OptionalRoutes(args.logOut, false, true);
    assert Inputs(io) + Inputs(i) + [] == Inputs(io) + Inputs(i);
  }

  lemma DataLogsOutputs(args: Args)
    ensures Outputs(DataLogs(args))
            == (if args.logIo.Some? then [(args.logIo.value, Raw)] else []) + (if args.logOut.Some? then [(args.logOut.value, Raw)] else [])
  {
    var io, i, o := Optional(args.logIo, true, true), Optional(args.logIn, true, false), Optional(args.logOut, false, true);
    InputsAppend(io, i);
    InputsAppend(io + i, o);
    OptionalRoutes(args.logIo, true, true);
    OptionalRoutes(args.logIn, true, false);
    OptionalRoutes(args.logOut, false, true);
    assert Outputs(io) + [] == Outputs(io);
  }

  lemma OptionalRoutes(path: Option<string>, isInput: bool, isOutput: bool)
    ensures Inputs(Optional(path, isInput, isOutput)) == if path.Some? && isInput then [(path.value, Raw)] else []
    ensures Outputs(Optional(path, isInput, isOutput)) == if path.Some? && isOutput then [(path.value, Raw)] else []
  {
    if path.Some? {
      assert Optional(path, isInput, isOutput)[..0] == [];
    }
  }

  /** The timing loggers: one in each logged direction, with the timing file's path
      and the timing format. */
  lemma TimingLogsRoutes(path: string, format: LogFormat, hasIn: bool, hasOut: bool)
    ensures Inputs(TimingLogs(path, format, hasIn, hasOut)) == if hasIn then [(path, format)] else []
    ensures Outputs(TimingLogs(path, format, hasIn, hasOut)) == if hasOut then [(path, format)] else []
    ensures FirstMulti(TimingLogs(path, format, hasIn, hasOut)).Some? <==> format == TimingMulti && (hasIn || hasOut)
  {
    var forOut, forIn := Association(path, format, false, true), Association(path, format, true, false);
    InputsAppend(When(hasOut, forOut), When(hasIn, forIn));
    FirstMultiAppend(When(hasOut, forOut), When(hasIn, forIn));
    WhenRoutes(hasOut, forOut);
    WhenRoutes(hasIn, forIn);
  }

  lemma WhenRoutes(cond: bool, a: Association)
    ensures Inputs(When(cond, a)) == if cond && a.isInput then [(a.path, a.format)] else []
    ensures Outputs(When(cond, a)) == if cond && a.isOutput then [(a.path, a.format)] else []
    ensures FirstMulti(When(cond, a)) == if cond && a.format == TimingMulti then Some(a) else None
  {
    if cond {
      assert [a][..0] == [];
    }
  }

  /** With a data log the input list holds the data loggers of that direction and then
      the direction's timing logger, if there is a timing file; the same for output. */
  lemma PlanRoutes(args: Args, defaultMeta: Option<Metadata>)
    requires Plan(args, defaultMeta).Ok? && (LogsInput(args) || LogsOutput(args))
    ensures var plan, tf := Plan(args, defaultMeta).value, TimingFile(args.logTiming, args.timing);
            var format := TimingFormat(args.loggingFormat, tf.Some?, LogsInput(args), LogsOutput(args)).value;
            && Inputs(plan) == Inputs(DataLogs(args)) + (if tf.Some? && LogsInput(args) then [(tf.value, format)] else [])
            && Outputs(plan) == Outputs(DataLogs(args)) + (if tf.Some? && LogsOutput(args) then [(tf.value, format)] else [])
  {
    var tf := TimingFile(args.logTiming, args.timing);
    var hasIn, hasOut := LogsInput(args), LogsOutput(args);
    var format := TimingFormat(args.loggingFormat, tf.Some?, hasIn, hasOut).value;
    PlanWithDataLogs(args, defaultMeta, format);
    if tf.Some? {
      InputsAppend(DataLogs(args), TimingLogs(tf.value, format, hasIn, hasOut));
      TimingLogsRoutes(tf.value, format, hasIn, hasOut);
    } else {
      assert DataLogs(args) + [] == DataLogs(args);
    }
  }

  /** A session gets a signal and info log exactly when it has a data log and
      timing loggers in the multi-stream format. */
  lemma PlanSignalLog(args: Args, defaultMeta: Option<Metadata>)
    requires Plan(args, defaultMeta).Ok?
    ensures var tf := TimingFile(args.logTiming, args.timing);
            var hasIn, hasOut := LogsInput(args), LogsOutput(args);
            FirstMulti(Plan(args, defaultMeta).value).Some?
            <==> (hasIn || hasOut) && tf.Some? && TimingFormat(args.loggingFormat, true, hasIn, hasOut) == Ok(TimingMulti)
  {
    if LogsInput(args) || LogsOutput(args) {
      PlanSignalLogWithDataLogs(args, defaultMeta);
    } else {
      var tf := TimingFile(args.logTiming, args.timing);
      PlanWithoutDataLogs(args, defaultMeta, TimingFormat(args.loggingFormat, tf.Some?, false, false).value);
      WhenRoutes(true, Association(DefaultFile(args), Raw, false, true));
    }
  }

  lemma PlanSignalLogWithDataLogs(args: Args, defaultMeta: Option<Metadata>)
    requires Plan(args, defaultMeta).Ok? && (LogsInput(args) || LogsOutput(args))
    ensures var tf := TimingFile(args.logTiming, args.timing);
            FirstMulti(Plan(args, defaultMeta).value).Some?
            <==> tf.Some? && TimingFormat(args.loggingFormat, true, LogsInput(args), LogsOutput(args)) == Ok(TimingMulti)
  {
    var tf := TimingFile(args.logTiming, args.timing);
    var hasIn, hasOut := LogsInput(args), LogsOutput(args);
    var format := TimingFormat(args.loggingFormat, tf.Some?, hasIn, hasOut).value;
    DataLogsAreRaw(args);
    PlanWithDataLogs(args, defaultMeta, format);
    if tf.Some? {
      FirstMultiAppend(DataLogs(args), TimingLogs(tf.value, format, hasIn, hasOut));
      TimingLogsRoutes(tf.value, format, hasIn, hasOut);
    } else {
      assert DataLogs(args) + [] == DataLogs(args);
    }
  }

  /** Without a data log the only logger is the default typescript (or the named
      file), Raw, for output. */
  lemma PlanDefault(args: Args, defaultMeta: Option<Metadata>)
    requires Plan(args, defaultMeta).Ok? && !LogsInput(args) && !LogsOutput(args)
    ensures Inputs(Plan(args, defaultMeta).value) == []
    ensures Outputs(Plan(args, defaultMeta).value) == [(args.file.GetOr(DefaultTypescript), Raw)]
  {
    var tf := TimingFile(args.logTiming, args.timing);
    var format := TimingFormat(args.loggingFormat, tf.Some?, false, false).value;
    PlanWithoutDataLogs(args, defaultMeta, format);
    var plan := [Association(DefaultFile(args), Raw, false, true)];
    assert plan[..0] == [];
  }

  /** What the file system reports about the default file matters only when no data
      log is given and the session is not forced. */
  lemma PlanIgnoresMetadata(args: Args, m1: Option<Metadata>, m2: Option<Metadata>)
    requires args.force || LogsInput(args) || LogsOutput(args)
    ensures Plan(args, m1) == Plan(args, m2)
  {
  }

  /** A link is refused only for the default file, only when it is a link, and only
      when the session is not forced. */
  lemma PlanLinkRefusal(args: Args, defaultMeta: Option<Metadata>, e: LinkError)
    ensures Plan(args, defaultMeta) == Err(LinkRefused(e))
            <==> && !args.force && !LogsInput(args) && !LogsOutput(args)
                 && TimingFormat(args.loggingFormat, TimingFile(args.logTiming, args.timing).Some?, false, false).Ok?
                 && DieIfLink(DefaultFile(args), defaultMeta) == Err(e)
  {
  }

  /** A format name is looked up, and refused if unknown, even when no timing file is
      asked for; the lookup ignores the rest of the options. */
  lemma TimingFormatOfName(n: string, timed: bool, hasIn: bool, hasOut: bool, timed': bool, hasIn': bool, hasOut': bool)
    ensures TimingFormat(Some(n), timed, hasIn, hasOut) == TimingFormat(Some(n), timed', hasIn', hasOut')
    ensures TimingFormat(Some(n), timed, hasIn, hasOut) == Ok(TimingSimple) <==> ToLower(n) == "classic"
    ensures TimingFormat(Some(n), timed, hasIn, hasOut) == Ok(TimingMulti) <==> ToLower(n) == "advanced"
    ensures TimingFormat(Some(n), timed, hasIn, hasOut) != Ok(Raw)
  {
  }

  /** Format names are compared without regard to case. */
  lemma TimingFormatIgnoresCase(n: string, timed: bool, hasIn: bool, hasOut: bool)
    ensures TimingFormat(Some(ToLower(n)), timed, hasIn, hasOut).Ok? == TimingFormat(Some(n), timed, hasIn, hasOut).Ok?
    ensures TimingFormat(Some(n), timed, hasIn, hasOut).Ok? ==>
              TimingFormat(Some(ToLower(n)), timed, hasIn, hasOut) == TimingFormat(Some(n), timed, hasIn, hasOut)
  {
    LowerOfLower(n);
  }

  // ---------------------------------------------------------------------------
  // The command text

  /** The command as the logs show it has no line break, changes nothing else, and
      normalizing it again changes nothing. */
  lemma NormalizeCommandProperties(c: string)
    ensures '\n' !in NormalizeCommand(c)
    ensures NormalizeCommand(NormalizeCommand(c)) == NormalizeCommand(c)
    ensures '\n' !in c ==> NormalizeCommand(c) == c
  {
    var r := NormalizeCommand(c);
    assert forall i :: 0 <= i < |r| ==> r[i] != '\n';
  }

  lemma CommandNormIsPresentWithCommand(command: Option<string>)
    ensures CommandNorm(command).Some? <==> command.Some?
    ensures command.Some? ==> |CommandNorm(command).value| == |command.value|
  {
  }

  // ---------------------------------------------------------------------------
  // The exit status

  /** A killed child's status is above 128 and gives back its signal; an exit code
      and a signal give the same status only for a code of 128 or more. */
  lemma ExitCodeOfSignal(code: int, signal: nat)
    ensures ExitCode(Signaled(signal)) >= 128 && ExitCode(Signaled(signal)) - 128 == signal
    ensures ExitCode(Exited(code)) == code
    ensures ExitCode(Exited(code)) == ExitCode(Signaled(signal)) <==> code == 128 + signal
  {
  }

  /** Every wait status other than an exit or a kill (a stop, a continue, a ptrace
      event) maps to exit status 1. */
  lemma ExitCodeOtherwise(w: WaitStatus)
    requires !w.Exited? && !w.Signaled?
    ensures ExitCode(w) == 1
  {
  }

  // ---------------------------------------------------------------------------
  // The window-change message

  /** Reads back `ROWS=<lines> COLS=<cols>`. */
  function ParseWindowMessage(m: string): Option<(nat, nat)> {
    if |m| < 5 || m[..5] != "ROWS=" then None
    else match SplitAt(m[5..], ' ')
      case None => None
      case Some((rows, rest)) => ParseCols(rows, rest)
  }

  function ParseCols(rows: string, rest: string): Option<(nat, nat)> {
    if |rest| < 5 || rest[..5] != "COLS=" then None
    else Both(ParseU64(rows), ParseU64(rest[5..]))
  }

  function Both(a: Option<nat>, b: Option<nat>): Option<(nat, nat)> {
    if a.Some? && b.Some? then Some((a.value, b.value)) else None
  }

  /** The message of a window change gives back the new size. */
  lemma WindowMessageRoundTrip(lines: u16, cols: u16)
    ensures ParseWindowMessage(WindowMessage(lines, cols)) == Some((lines as nat, cols as nat))
  {
    var m, rows, colsText := WindowMessage(lines, cols), Show(lines), Show(cols);
    WindowMessageParts(lines, cols);
    ShowHasNoSeparator(lines);
    SplitAtJoin(rows, "COLS=" + colsText, ' ');
    ParseWindowOfSplit(m, rows, "COLS=" + colsText);
    ParseColsOf(rows, colsText);
    ParseU64OfShow(lines);
    ParseU64OfShow(cols);
  }

  /** The record a window change writes to the signal log is one line, which reads
      back as a `SIGWINCH` signal whose message gives back the new size. */
  lemma WindowChangeRecordRoundTrip(delta: nat, lines: u16, cols: u16)
    ensures var message := WindowMessage(lines, cols);
            var body := SignalBody(delta, "SIGWINCH", Some(message));
            && Lines(SignalRecord(delta, "SIGWINCH", Some(message))) == [body]
            && ParseSignal(body) == Some(Signal(delta, "SIGWINCH", Some(message)))
            && ParseWindowMessage(message) == Some((lines as nat, cols as nat))
  {
    var message := WindowMessage(lines, cols);
    ShowHasNoSeparator(lines);
    ShowHasNoSeparator(cols);
    assert '\n' !in message;
    SignalBodyIsLine(delta, "SIGWINCH", message);
    LinesOfLine(SignalBody(delta, "SIGWINCH", Some(message)));
    ParseSignalOfRecord(delta, "SIGWINCH", Some(message));
    WindowMessageRoundTrip(lines, cols);
  }

  /** A signal body holds no line break when its name and message hold none. */
  lemma SignalBodyIsLine(delta: nat, name: string, message: string)
    requires '\n' !in name && '\n' !in message
    ensures '\n' !in SignalBody(delta, name, Some(message))
  {
    assert SignalBody(delta, name, Some(message)) == "S " + FmtDelta(delta) + " " + name + (" " + message);
  }

  lemma WindowMessageParts(lines: u16, cols: u16)
    ensures var m := WindowMessage(lines, cols);
            |m| >= 5 && m[..5] == "ROWS=" && m[5..] == Show(lines) + [' '] + ("COLS=" + Show(cols))
  {
    var tail := Show(lines) + [' '] + ("COLS=" + Show(cols));
    assert WindowMessage(lines, cols) == "ROWS=" + tail;
    PrefixParts("ROWS=", tail);
  }

  /** Splitting a text after its prefix: a step the solver does not find alone. */
  lemma PrefixParts(p: string, x: string)
    ensures (p + x)[..|p|] == p && (p + x)[|p|..] == x
  {
  }

  lemma ParseWindowOfSplit(m: string, rows: string, rest: string)
    requires |m| >= 5 && m[..5] == "ROWS=" && SplitAt(m[5..], ' ') == Some((rows, rest))
    ensures ParseWindowMessage(m) == ParseCols(rows, rest)
  {
  }

  lemma ParseColsOf(rows: string, colsText: string)
    ensures ParseCols(rows, "COLS=" + colsText) == Both(ParseU64(rows), ParseU64(colsText))
  {
    PrefixParts("COLS=", colsText);
  }
}
