/** `src/logging.rs`: the log sink. A `ScriptLogger` is created, started (its file is
    opened and, in Raw format, a header is written), receives data, signal and info
    records, and is closed. Each method of the class is specified by a transition
    function on a `LoggerState` value; the properties are proved about those functions.

    Time is a clock reading in whole microseconds, passed in by the caller; wall-clock
    stamps are strings passed in by the caller. A byte of logged data is one `char`. */
module Logging {
  import opened Results
  import opened Decimal

  datatype LogFormat = Raw | TimingSimple | TimingMulti

  datatype LogStream = Input | Output

  /** The error every operation that needs the writer reports without one. */
  const NotInitialized: string := "Logger not initialized"

  /** What `start_with_data` receives from the session: whether standard input is a
      terminal, the terminal type and name, the window size, and the command with its
      line breaks replaced. */
  datatype SessionInfo = SessionInfo(
    isTerm: bool,
    ttyType: Option<string>,
    ttyName: Option<string>,
    cols: nat,
    lines: nat,
    commandNorm: Option<string>)

  // ---------------------------------------------------------------------------
  // Rendering of times and records

  /** `now.duration_since(last)`, which saturates at zero, or zero when there is no
      previous record. */
  function Elapsed(last: Option<nat>, now: nat): (d: nat)
    ensures last.None? ==> d == 0
    ensures last.Some? && last.value <= now ==> last.value + d == now
    ensures last.Some? && now < last.value ==> d == 0
  {
    match last
    case None => 0
    case Some(l) => if l <= now then now - l else 0
  }

  /** `x` written with exactly `width` digits, zeros in front. */
  function Pad(x: nat, width: nat): (s: string)
    ensures |s| == width && AllDigits(s)
  {
    if width == 0 then [] else Pad(x / 10, width - 1) + [DigitChar(x % 10)]
  }

  /** A duration in seconds with six decimals, as `{:.6}` renders `as_secs_f64()`. */
  function FmtDelta(micros: nat): (s: string)
    ensures ' ' !in s && '\n' !in s
  {
    ShowHasNoSeparator(micros / 1000000);
    Show(micros / 1000000) + "." + Pad(micros % 1000000, 6)
  }

  function StreamChar(stream: LogStream): char {
    match stream
    case Input => 'I'
    case Output => 'O'
  }

  /** The first line of a Raw log. */
  function RawHeader(stamp: string, info: SessionInfo): string {
    "Script started on " + stamp + " [\n" + CommandField(info.commandNorm) + TermFields(info) + "]\n"
  }

  function CommandField(commandNorm: Option<string>): string {
    match commandNorm
    case Some(c) => "COMMAND=\"" + c + "\""
    case None => ""
  }

  function TermFields(info: SessionInfo): string {
    if info.isTerm then
      OptionalField(" TERM=\"", info.ttyType) + OptionalField(" TTY=\"", info.ttyName)
      + " COLUMNS=\"" + Show(info.cols) + "\" LINES=\"" + Show(info.lines) + "\""
    else
      " <not executed on terminal>"
  }

  function OptionalField(prefix: string, value: Option<string>): string {
    match value
    case Some(v) => prefix + v + "\""
    case None => ""
  }

  /** The record `log_data` writes in a timing format: `<delta> <len>`, with the
      stream letter in front in the multi-stream format. */
  function DataRecord(format: LogFormat, stream: LogStream, delta: nat, len: nat): (r: string)
    ensures IsLine(r)
  {
    var body := RecordBody(format, stream, delta, len);
    assert (body + "\n")[..|body|] == body;
    body + "\n"
  }

  /** A data record without its line break. */
  function RecordBody(format: LogFormat, stream: LogStream, delta: nat, len: nat): (body: string)
    ensures '\n' !in body
  {
    ShowHasNoSeparator(len);
    (if format == TimingMulti then [StreamChar(stream), ' '] else "") + FmtDelta(delta) + " " + Show(len)
  }

  /** One line of text: a line break at the end and nowhere else. */
  predicate IsLine(r: string) {
    |r| > 0 && r[|r| - 1] == '\n' && '\n' !in r[..|r| - 1]
  }

  /** The record `log_signal` writes: `S <delta> <name>`, then ` <message>` when
      there is one. */
  function SignalRecord(delta: nat, name: string, message: Option<string>): string {
    SignalBody(delta, name, message) + "\n"
  }

  /** A signal record without its line break. */
  function SignalBody(delta: nat, name: string, message: Option<string>): string {
    "S " + FmtDelta(delta) + " " + name + (match message case Some(m) => " " + m case None => "")
  }

  function InfoRecord(name: string, value: string): string {
    "H 0.0 " + name + " " + value + "\n"
  }

  function RawTrailer(stamp: string, status: int): string {
    "\nScript done on " + stamp + " [COMMAND_EXIT_CODE=\"" + ShowInt(status) + "\"]\n"
  }

  function MultiTrailer(duration: nat, status: int): string {
    InfoRecord("DURATION", FmtDelta(duration)) + InfoRecord("EXIT_CODE", ShowInt(status))
  }

  // ---------------------------------------------------------------------------
  // The logger's state and its transitions

  /** Everything a logger and its clones share: the contents of its file as this
      logger has written them, whether it holds a writer, whether it was started,
      and the clock readings of the start and of the last timed record. */
  datatype LoggerState = LoggerState(
    file: string,
    isOpen: bool,
    initialized: bool,
    startTime: Option<nat>,
    lastTime: Option<nat>)

  /** `ScriptLogger::new`: no file, no writer, no times. */
  const Created: LoggerState := LoggerState("", false, false, None, None)

  /** The file is opened for appending only for a Raw log with `append` set; in every
      other case it is truncated. `existing` is what the file held before. */
  function Opened(format: LogFormat, append: bool, existing: string): string {
    if append && format == Raw then existing else ""
  }

  /** `start_with_data`. */
  function Start(format: LogFormat, append: bool, s: LoggerState, existing: string,
                 stamp: string, info: SessionInfo, now: nat): (t: LoggerState)
    ensures t.initialized
    ensures s.initialized ==> t == s
    ensures !s.initialized && format == Raw ==>
      t.isOpen && t.file == (if append then existing else "") + RawHeader(stamp, info)
    ensures !s.initialized && format != Raw ==>
      t.isOpen && t.file == "" && t.startTime == Some(now) && t.lastTime == Some(now)
  {
    if s.initialized then s
    else if format == Raw then
      LoggerState(Opened(format, append, existing) + RawHeader(stamp, info), true, true, s.startTime, s.lastTime)
    else
      LoggerState(Opened(format, append, existing), true, true, Some(now), Some(now))
  }

  /** `log_data`: the new state and the number of bytes it reports written. */
  function LogDataStep(format: LogFormat, s: LoggerState, stream: LogStream, data: string, now: nat)
    : (r: (LoggerState, Result<nat, string>))
    ensures r.1.Err? <==> !s.isOpen
    ensures r.1.Err? ==> r.0 == s && r.1.error == NotInitialized
    ensures r.1.Ok? ==> |r.0.file| == |s.file| + r.1.value && r.0.file[..|s.file|] == s.file
    ensures r.1.Ok? && format == Raw ==> r.0.file[|s.file|..] == data && r.0.lastTime == s.lastTime
    ensures r.1.Ok? && format != Raw ==> IsLine(r.0.file[|s.file|..]) && r.0.lastTime == Some(now)
    ensures r.0.isOpen == s.isOpen && r.0.initialized == s.initialized && r.0.startTime == s.startTime
  {
    if !s.isOpen then (s, Err(NotInitialized))
    else if format == Raw then (s.(file := s.file + data), Ok(|data|))
    else
      var line := DataRecord(format, stream, Elapsed(s.lastTime, now), |data|);
      (s.(file := s.file + line, lastTime := Some(now)), Ok(|line|))
  }

  /** `log_signal`. */
  function LogSignalStep(format: LogFormat, s: LoggerState, name: string, message: Option<string>, now: nat)
    : (r: (LoggerState, Result<(), string>))
    ensures format != TimingMulti ==> r == (s, Ok(()))
    ensures format == TimingMulti && !s.isOpen ==> r == (s, Err(NotInitialized))
    ensures format == TimingMulti && s.isOpen ==>
      r.1.Ok? && |r.0.file| > |s.file| && r.0.file[..|s.file|] == s.file && r.0.lastTime == Some(now)
    ensures format == TimingMulti && s.isOpen ==>
      r.0.file == s.file + SignalRecord(Elapsed(s.lastTime, now), name, message)
    ensures r.0.isOpen == s.isOpen && r.0.initialized == s.initialized && r.0.startTime == s.startTime
  {
    if format != TimingMulti then (s, Ok(()))
    else if !s.isOpen then (s, Err(NotInitialized))
    else (s.(file := s.file + SignalRecord(Elapsed(s.lastTime, now), name, message), lastTime := Some(now)), Ok(()))
  }

  /** `log_info`. */
  function LogInfoStep(format: LogFormat, s: LoggerState, name: string, value: string)
    : (r: (LoggerState, Result<(), string>))
    ensures format != TimingMulti ==> r == (s, Ok(()))
    ensures format == TimingMulti && !s.isOpen ==> r == (s, Err(NotInitialized))
    ensures format == TimingMulti && s.isOpen ==> r.1.Ok? && r.0 == s.(file := s.file + InfoRecord(name, value))
    ensures r.0.lastTime == s.lastTime
  {
    if format != TimingMulti then (s, Ok(()))
    else if !s.isOpen then (s, Err(NotInitialized))
    else (s.(file := s.file + InfoRecord(name, value)), Ok(()))
  }

  /** What `close` appends before giving up the writer. */
  function Trailer(format: LogFormat, s: LoggerState, status: int, stamp: string, now: nat): string {
    match format
    case Raw => RawTrailer(stamp, status)
    case TimingMulti => if s.startTime.Some? then MultiTrailer(Elapsed(s.startTime, now), status) else ""
    case TimingSimple => ""
  }

  /** `close`. */
  function CloseStep(format: LogFormat, s: LoggerState, status: int, stamp: string, now: nat): (t: LoggerState)
    ensures !t.isOpen
    ensures !s.isOpen ==> t == s
    ensures s.isOpen ==> t.file == s.file + Trailer(format, s, status, stamp, now)
    ensures t.initialized == s.initialized && t.startTime == s.startTime && t.lastTime == s.lastTime
  {
    if !s.isOpen then s
    else s.(file := s.file + Trailer(format, s, status, stamp, now), isOpen := false)
  }

  // ---------------------------------------------------------------------------
  // The logger object

  /** A `ScriptLogger`. A Rust clone shares every field through `Arc`, so a clone is
      this same object. */
  class ScriptLogger {
    const path: string
    const format: LogFormat
    const append: bool
    var file: string
    var isOpen: bool
    var initialized: bool
    var startTime: Option<nat>
    var lastTime: Option<nat>

    function State(): LoggerState
      reads this
    {
      LoggerState(file, isOpen, initialized, startTime, lastTime)
    }

    constructor(path: string, format: LogFormat, append: bool)
      ensures this.path == path && this.format == format && this.append == append
      ensures State() == Created
    {
      this.path := path;
      this.format := format;
      this.append := append;
      file := "";
      isOpen := false;
      initialized := false;
      startTime := None;
      lastTime := None;
    }

    method StartWithData(info: SessionInfo, existing: string, stamp: string, now: nat)
      modifies this
      ensures State() == Start(format, append, old(State()), existing, stamp, info, now)
    {
      if initialized {
        return;
      }
      var contents := if append && format == Raw then existing else "";
      if format == Raw {
        contents := contents + RawHeader(stamp, info);
      } else {
        startTime := Some(now);
        lastTime := Some(now);
      }
      file := contents;
      isOpen := true;
      initialized := true;
    }

    method LogData(stream: LogStream, data: string, now: nat) returns (r: Result<nat, string>)
      modifies this
      ensures (State(), r) == LogDataStep(format, old(State()), stream, data, now)
    {
      if !isOpen {
        return Err(NotInitialized);
      }
      if format == Raw {
        file := file + data;
        return Ok(|data|);
      }
      var delta := Elapsed(lastTime, now);
      var line := DataRecord(format, stream, delta, |data|);
      file := file + line;
      lastTime := Some(now);
      r := Ok(|line|);
    }

    method LogSignal(name: string, message: Option<string>, now: nat) returns (r: Result<(), string>)
      modifies this
      ensures (State(), r) == LogSignalStep(format, old(State()), name, message, now)
    {
      if format != TimingMulti {
        return Ok(());
      }
      if !isOpen {
        return Err(NotInitialized);
      }
      var delta := Elapsed(lastTime, now);
      file := file + SignalRecord(delta, name, message);
      lastTime := Some(now);
      r := Ok(());
    }

    method LogInfo(name: string, value: string) returns (r: Result<(), string>)
      modifies this
      ensures (State(), r) == LogInfoStep(format, old(State()), name, value)
    {
      if format != TimingMulti {
        return Ok(());
      }
      if !isOpen {
        return Err(NotInitialized);
      }
      file := file + InfoRecord(name, value);
      r := Ok(());
    }

    method Close(status: int, stamp: string, now: nat)
      modifies this
      ensures State() == CloseStep(format, old(State()), status, stamp, now)
    {
      if !isOpen {
        return;
      }
      match format {
        case Raw =>
          file := file + RawTrailer(stamp, status);
        case TimingMulti =>
          if startTime.Some? {
            file := file + MultiTrailer(Elapsed(startTime, now), status);
          }
        case TimingSimple =>
      }
      isOpen := false;
    }
  }
}
