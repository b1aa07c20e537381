/** The session side of `src/script_control.rs`: which loggers a session writes to
    (`setup_logging`, `associate_log`), how the bytes they write are counted against
    the output limit (`log_input`, `log_output`), how the child's wait status becomes
    the exit status written into the logs (`wait_for_child`, `stop_logging`), and
    what a window change records. The terminal, the pseudo-terminal and the child
    process are outside the model: what the program would ask them becomes a
    parameter. */
module ScriptControl {
  import opened Results
  import opened Utils
  import opened Logging

  type u16 = x: nat | x < 0x1_0000

  /** The output file when none is named. */
  const DefaultTypescript: string := "typescript"

  /** The timing file of `--timing` given without a file. */
  const StderrPath: string := "/dev/stderr"

  /** The error `log_input` and `log_output` report once the limit is reached. */
  const LimitExceeded: string := "Output size limit exceeded"

  /** The command-line options the modelled code reads. */
  datatype Args = Args(
    logIn: Option<string>,
    logOut: Option<string>,
    logIo: Option<string>,
    logTiming: Option<string>,
    timing: Option<Option<string>>,
    loggingFormat: Option<string>,
    append: bool,
    command: Option<string>,
    force: bool,
    outputLimit: Option<string>,
    file: Option<string>)

  /** What the program learns about its terminal before the session starts. */
  datatype Terminal = Terminal(isTerm: bool, cols: u16, lines: u16, name: Option<string>, termType: Option<string>)

  /** Why a session cannot be set up. */
  datatype SetupError =
    | BadLimit(SizeError)
    | UnsupportedFormat(name: string)
    | LinkRefused(LinkError)

  // ---------------------------------------------------------------------------
  // The values `new` derives from the options

  /** The command as the logs show it: every line break becomes a space. */
  function NormalizeCommand(c: string): (r: string)
    ensures |r| == |c|
    ensures forall i :: 0 <= i < |c| ==> r[i] == if c[i] == '\n' then ' ' else c[i]
  {
    if c == [] then [] else [if c[0] == '\n' then ' ' else c[0]] + NormalizeCommand(c[1..])
  }

  function CommandNorm(command: Option<string>): Option<string> {
    match command
    case None => None
    case Some(c) => Some(NormalizeCommand(c))
  }

  /** The output limit: 0, meaning none, when no limit is given. */
  function MaxSize(limit: Option<string>): (r: Result<nat, SizeError>)
    ensures limit.None? ==> r == Ok(0)
    ensures r.Ok? ==> r.value < Decimal.U64_LIMIT
    ensures limit.Some? && AllWhitespace(limit.value) ==> r == Err(EmptySize)
  {
    match limit
    case None => Ok(0)
    case Some(l) => ParseSize(l)
  }

  // ---------------------------------------------------------------------------
  // The plan `setup_logging` carries out

  /** The timing file: `--log-timing` first, then `--timing`, whose file defaults to
      standard error. */
  function TimingFile(logTiming: Option<string>, timing: Option<Option<string>>): (r: Option<string>)
    ensures logTiming.Some? ==> r == logTiming
    ensures logTiming.None? ==> (r.None? <==> timing.None?)
    ensures logTiming.None? && timing == Some(None) ==> r == Some(StderrPath)
    ensures logTiming.None? && timing.Some? && timing.value.Some? ==> r == timing.value
  {
    if logTiming.Some? then logTiming
    else match timing
      case None => None
      case Some(path) => Some(path.GetOr(StderrPath))
  }

  /** The format of the timing loggers. A format name is looked up whatever it is
      needed for; without one, the multi-stream format is used exactly when both
      directions are logged. */
  function TimingFormat(name: Option<string>, timed: bool, hasIn: bool, hasOut: bool): (r: Result<LogFormat, SetupError>)
    ensures r.Err? ==> name.Some? && r.error == UnsupportedFormat(name.value)
    ensures name.None? && timed ==> (r == Ok(TimingMulti) <==> hasIn && hasOut)
    ensures name.None? && timed ==> r.Ok? && r.value != Raw
    ensures name.None? && !timed ==> r == Ok(Raw)
  {
    match name
    case Some(n) =>
      var lower := ToLower(n);
      if lower == "classic" then Ok(TimingSimple)
      else if lower == "advanced" then Ok(TimingMulti)
      else Err(UnsupportedFormat(n))
    case None =>
      if !timed then Ok(Raw)
      else if hasIn && hasOut then Ok(TimingMulti)
      else Ok(TimingSimple)
  }

  /** One `associate_log` call. */
  datatype Association = Association(path: string, format: LogFormat, isInput: bool, isOutput: bool)

  predicate LogsInput(args: Args) {
    args.logIo.Some? || args.logIn.Some?
  }

  predicate LogsOutput(args: Args) {
    args.logIo.Some? || args.logOut.Some?
  }

  /** The Raw data logs, in the order they are associated. */
  function DataLogs(args: Args): seq<Association> {
    Optional(args.logIo, true, true) + Optional(args.logIn, true, false) + Optional(args.logOut, false, true)
  }

  /** The one-file Raw logger a data-log option asks for, if it is given. */
  function Optional(path: Option<string>, isInput: bool, isOutput: bool): seq<Association> {
    if path.Some? then [Association(path.value, Raw, isInput, isOutput)] else []
  }

  /** The timing loggers: one per logged direction, output first. */
  function TimingLogs(path: string, format: LogFormat, hasIn: bool, hasOut: bool): seq<Association> {
    When(hasOut, Association(path, format, false, true)) + When(hasIn, Association(path, format, true, false))
  }

  function When(cond: bool, a: Association): seq<Association> {
    if cond then [a] else []
  }

  function DefaultFile(args: Args): string {
    args.file.GetOr(DefaultTypescript)
  }

  /** Every `associate_log` call `setup_logging` makes, in order, or the error that
      stops it. `defaultMeta` is what looking up the default file reports. */
  function Plan(args: Args, defaultMeta: Option<Metadata>): Result<seq<Association>, SetupError> {
    var hasIn, hasOut := LogsInput(args), LogsOutput(args);
    var timingFile := TimingFile(args.logTiming, args.timing);
    match TimingFormat(args.loggingFormat, timingFile.Some?, hasIn, hasOut)
    case Err(e) => Err(e)
    case Ok(format) =>
      if hasIn || hasOut then
        Ok(DataLogs(args) + if timingFile.Some? then TimingLogs(timingFile.value, format, hasIn, hasOut) else [])
      else if !args.force && DieIfLink(DefaultFile(args), defaultMeta).Err? then
        Err(LinkRefused(DieIfLink(DefaultFile(args), defaultMeta).error))
      else
        Ok([Association(DefaultFile(args), Raw, false, true)])
  }

  /** What `new` ends with: the output limit and the associations, or the first error. */
  function Setup(args: Args, defaultMeta: Option<Metadata>): Result<(nat, seq<Association>), SetupError> {
    match MaxSize(args.outputLimit)
    case Err(e) => Err(BadLimit(e))
    case Ok(limit) =>
      match Plan(args, defaultMeta)
      case Err(e) => Err(e)
      case Ok(plan) => Ok((limit, plan))
  }

  /** The path and format of each association in one direction. */
  function Inputs(plan: seq<Association>): seq<(string, LogFormat)> {
    if plan == [] then []
    else
      var a := plan[|plan| - 1];
      Inputs(plan[..|plan| - 1]) + if a.isInput then [(a.path, a.format)] else []
  }

  function Outputs(plan: seq<Association>): seq<(string, LogFormat)> {
    if plan == [] then []
    else
      var a := plan[|plan| - 1];
      Outputs(plan[..|plan| - 1]) + if a.isOutput then [(a.path, a.format)] else []
  }

  /** The first multi-stream association: the one that becomes the signal and info log. */
  function FirstMulti(plan: seq<Association>): (r: Option<Association>)
    ensures r.Some? ==> r.value in plan && r.value.format == TimingMulti
  {
    if plan == [] then None
    else
      var a := plan[|plan| - 1];
      match FirstMulti(plan[..|plan| - 1])
      case Some(b) => Some(b)
      case None => if a.format == TimingMulti then Some(a) else None
  }

  /** With a data log, the plan is the data logs followed by the timing loggers. */
  lemma PlanWithDataLogs(args: Args, defaultMeta: Option<Metadata>, format: LogFormat)
    requires LogsInput(args) || LogsOutput(args)
    requires TimingFormat(args.loggingFormat, TimingFile(args.logTiming, args.timing).Some?,
                          LogsInput(args), LogsOutput(args)) == Ok(format)
    ensures var timingFile := TimingFile(args.logTiming, args.timing);
            Plan(args, defaultMeta)
            == Ok(DataLogs(args) + if timingFile.Some? then TimingLogs(timingFile.value, format, LogsInput(args), LogsOutput(args)) else [])
  {
  }

  /** Without a data log, the plan is the default typescript, unless it is a link
      and the session is not forced. */
  lemma PlanWithoutDataLogs(args: Args, defaultMeta: Option<Metadata>, format: LogFormat)
    requires !LogsInput(args) && !LogsOutput(args)
    requires TimingFormat(args.loggingFormat, TimingFile(args.logTiming, args.timing).Some?, false, false) == Ok(format)
    ensures var check := DieIfLink(DefaultFile(args), defaultMeta);
            Plan(args, defaultMeta)
            == if !args.force && check.Err? then Err(LinkRefused(check.error))
               else Ok([Association(DefaultFile(args), Raw, false, true)])
  {
  }

  // ---------------------------------------------------------------------------
  // Logger lists

  predicate Distinct(ls: seq<ScriptLogger>) {
    forall i, j :: 0 <= i < j < |ls| ==> ls[i] != ls[j]
  }

  /** The path and format of each logger. */
  function Describe(ls: seq<ScriptLogger>): seq<(string, LogFormat)> {
    if ls == [] then [] else Describe(ls[..|ls| - 1]) + [(ls[|ls| - 1].path, ls[|ls| - 1].format)]
  }

  function Formats(ls: seq<ScriptLogger>): (r: seq<LogFormat>)
    ensures |r| == |ls| && forall i :: 0 <= i < |ls| ==> r[i] == ls[i].format
  {
    seq(|ls|, i requires 0 <= i < |ls| => ls[i].format)
  }

  function States(ls: seq<ScriptLogger>): (r: seq<LoggerState>)
    reads ls
    ensures |r| == |ls| && forall i :: 0 <= i < |ls| ==> r[i] == ls[i].State()
  {
    seq(|ls|, i requires 0 <= i < |ls| reads ls => ls[i].State())
  }

  /** Partway through the loop over a list: the first `k` loggers hold their new
      states and the others still hold their old ones. */
  ghost predicate Progress(logs: seq<ScriptLogger>, news: seq<LoggerState>, olds: seq<LoggerState>, k: nat)
    reads logs
  {
    && |news| == |logs| && |olds| == |logs| && k <= |logs|
    && (forall i {:trigger logs[i].State()} :: 0 <= i < k ==> logs[i].State() == news[i])
    && (forall i {:trigger logs[i].State()} :: k <= i < |logs| ==> logs[i].State() == olds[i])
  }

  /** A list's states agree with `states` at every index. */
  lemma SameStates(logs: seq<ScriptLogger>, states: seq<LoggerState>, k: nat)
    requires |states| == |logs| && k <= |logs|
    requires forall i {:trigger logs[i].State()} :: 0 <= i < k ==> logs[i].State() == states[i]
    requires k < |logs| ==> logs[k].State() == states[k]
    requires forall i {:trigger logs[i].State()} :: k < i < |logs| ==> logs[i].State() == states[i]
    ensures States(logs) == states
  {
  }

  /** The only logger found in both lists is the `--log-io` one, first in each. */
  predicate SharesOnlyFirst(ins: seq<ScriptLogger>, outs: seq<ScriptLogger>, io: bool) {
    && (io ==> |ins| > 0 && |outs| > 0)
    && forall i, j :: 0 <= i < |ins| && 0 <= j < |outs| ==> (ins[i] == outs[j] <==> io && i == 0 && j == 0)
  }

  /** The lists, the signal log and their sharing are those the associations `done`
      produce. */
  predicate Routes(ins: seq<ScriptLogger>, outs: seq<ScriptLogger>, sig: Option<ScriptLogger>,
                   done: seq<Association>, io: bool)
  {
    && Describe(ins) == Inputs(done)
    && Describe(outs) == Outputs(done)
    && (sig.Some? <==> FirstMulti(done).Some?)
    && (sig.Some? ==>
          var first := FirstMulti(done).value;
          && sig.value.path == first.path && sig.value.format == first.format
          && (first.isOutput ==> sig.value in outs)
          && (first.isInput ==> sig.value in ins)
          && (sig.value in ins || sig.value in outs))
    && SharesOnlyFirst(ins, outs, io)
  }

  lemma DescribeSnoc(ls: seq<ScriptLogger>, l: ScriptLogger)
    ensures Describe(ls + [l]) == Describe(ls) + [(l.path, l.format)]
  {
    assert (ls + [l])[..|ls|] == ls;
  }

  lemma PlanSnoc(done: seq<Association>, a: Association)
    ensures Inputs(done + [a]) == Inputs(done) + if a.isInput then [(a.path, a.format)] else []
    ensures Outputs(done + [a]) == Outputs(done) + if a.isOutput then [(a.path, a.format)] else []
    ensures FirstMulti(done + [a]) == if FirstMulti(done).None? && a.format == TimingMulti then Some(a) else FirstMulti(done)
  {
    assert (done + [a])[..|done|] == done;
  }

  lemma RoutesStart()
    ensures Routes([], [], None, [], false)
  {
  }

  /** The `--log-io` association, first of all, puts one logger in both lists. */
  lemma RoutesBoth(l: ScriptLogger, a: Association)
    requires l.path == a.path && l.format == a.format && a.format == Raw && a.isInput && a.isOutput
    ensures Routes([l], [l], None, [a], true)
  {
    DescribeSnoc([], l);
    PlanSnoc([], a);
    assert [] + [l] == [l] && [] + [a] == [a];
  }

  /** A one-direction association adds a new logger to its list only. */
  lemma RoutesStep(ins: seq<ScriptLogger>, outs: seq<ScriptLogger>, sig: Option<ScriptLogger>,
                   done: seq<Association>, io: bool, a: Association, l: ScriptLogger)
    requires Routes(ins, outs, sig, done, io)
    requires l.path == a.path && l.format == a.format && a.isInput != a.isOutput
    requires l !in ins && l !in outs
    ensures Routes(ins + (if a.isInput then [l] else []), outs + (if a.isOutput then [l] else []),
                   if sig.None? && a.format == TimingMulti then Some(l) else sig, done + [a], io)
  {
    PlanSnoc(done, a);
    if a.isInput {
      DescribeSnoc(ins, l);
      assert outs + [] == outs;
      SharesOnlyFirstStep(ins, outs, io, l);
    } else {
      DescribeSnoc(outs, l);
      assert ins + [] == ins;
      SharesOnlyFirstStep'(ins, outs, io, l);
    }
  }

  lemma SharesOnlyFirstStep(ins: seq<ScriptLogger>, outs: seq<ScriptLogger>, io: bool, l: ScriptLogger)
    requires SharesOnlyFirst(ins, outs, io) && l !in outs
    ensures SharesOnlyFirst(ins + [l], outs, io)
  {
    var ins' := ins + [l];
    forall i, j | 0 <= i < |ins'| && 0 <= j < |outs| ensures ins'[i] == outs[j] <==> io && i == 0 && j == 0 {
      if i == |ins| {
        assert ins'[i] == l && outs[j] in outs;
      }
    }
  }

  lemma SharesOnlyFirstStep'(ins: seq<ScriptLogger>, outs: seq<ScriptLogger>, io: bool, l: ScriptLogger)
    requires SharesOnlyFirst(ins, outs, io) && l !in ins
    ensures SharesOnlyFirst(ins, outs + [l], io)
  {
  }

  // ---------------------------------------------------------------------------
  // Counting the bytes written

  /** The loggers' states after `log_input` or `log_output`, the new running total,
      how many loggers `log_data` was called on, and the result. */
  datatype Fed = Fed(states: seq<LoggerState>, outSize: nat, calls: nat, result: Result<(), string>)

  /** What `log_data` does to each logger of a list, in list order, each call with
      the clock reading `nows[i]` it takes itself: it does not depend on the running
      total. */
  function Steps(formats: seq<LogFormat>, states: seq<LoggerState>, stream: LogStream, data: string, nows: seq<nat>)
    : (r: seq<(LoggerState, Result<nat, string>)>)
    requires |formats| == |states| == |nows|
    ensures |r| == |states|
  {
    seq(|states|, i requires 0 <= i < |states| => LogDataStep(formats[i], states[i], stream, data, nows[i]))
  }

  /** The walk of `log_input` / `log_output` over the loggers' steps: each `log_data`
      result is added to the total; the first error, or the first total at or above a
      non-zero limit, ends the walk and the remaining loggers are not written. */
  function Walk(steps: seq<(LoggerState, Result<nat, string>)>, states: seq<LoggerState>,
                outSize: nat, maxSize: nat): (f: Fed)
    requires |steps| == |states|
    ensures |f.states| == |states| && f.calls <= |states| && f.outSize >= outSize
    ensures f.result.Ok? ==> f.calls == |states|
    ensures f.result.Err? ==> f.calls > 0
    decreases |states|
  {
    if states == [] then Fed([], outSize, 0, Ok(()))
    else
      match steps[0].1
      case Err(e) => Fed(states, outSize, 1, Err(e))
      case Ok(n) =>
        if maxSize > 0 && outSize + n >= maxSize then
          Fed([steps[0].0] + states[1..], outSize + n, 1, Err(LimitExceeded))
        else
          var rest := Walk(steps[1..], states[1..], outSize + n, maxSize);
          Fed([steps[0].0] + rest.states, rest.outSize, rest.calls + 1, rest.result)
  }

  /** `log_input` / `log_output` over one list of loggers with the given formats and
      states, from the running total `outSize`; the `i`-th logger's call reads the
      clock as `nows[i]`. */
  function Feed(formats: seq<LogFormat>, states: seq<LoggerState>, stream: LogStream, data: string,
                nows: seq<nat>, outSize: nat, maxSize: nat): (f: Fed)
    requires |formats| == |states| == |nows|
    ensures |f.states| == |states| && f.calls <= |states| && f.outSize >= outSize
    ensures f.result.Ok? ==> f.calls == |states|
  {
    Walk(Steps(formats, states, stream, data, nows), states, outSize, maxSize)
  }

  /** `f` is what is left of `all` after its first `k` loggers. */
  predicate Remains(all: Fed, k: nat, f: Fed) {
    && k <= |all.states|
    && all.states[k..] == f.states
    && all.outSize == f.outSize
    && all.calls == k + f.calls
    && all.result == f.result
  }

  /** A logger that takes the chunk below the limit passes the walk on to the next. */
  lemma WalkGoesOn(all: Fed, steps: seq<(LoggerState, Result<nat, string>)>, states: seq<LoggerState>, k: nat,
                   outSize: nat, maxSize: nat, n: nat, total: nat)
    requires |steps| == |states| && k < |states|
    requires Remains(all, k, Walk(steps[k..], states[k..], outSize, maxSize))
    requires steps[k].1 == Ok(n)
    requires total == outSize + n && !(maxSize > 0 && total >= maxSize)
    ensures Remains(all, k + 1, Walk(steps[k + 1..], states[k + 1..], total, maxSize))
    ensures all.states[k] == steps[k].0
  {
    assert steps[k..][0] == steps[k] && steps[k..][1..] == steps[k + 1..];
    assert states[k..][1..] == states[k + 1..];
    assert all.states[k..][0] == all.states[k];
    assert all.states[k + 1..] == all.states[k..][1..];
  }

  /** A logger that fails, or brings the total to the limit, ends the walk: it is the
      last one touched and the total is final. */
  lemma WalkStops(all: Fed, steps: seq<(LoggerState, Result<nat, string>)>, states: seq<LoggerState>, k: nat,
                  outSize: nat, maxSize: nat)
    requires |steps| == |states| && k < |states|
    requires Remains(all, k, Walk(steps[k..], states[k..], outSize, maxSize))
    requires steps[k].1.Err? || (maxSize > 0 && outSize + steps[k].1.value >= maxSize)
    ensures all.states[k] == (if steps[k].1.Err? then states[k] else steps[k].0)
    ensures forall i :: k < i < |states| ==> all.states[i] == states[i]
    ensures all.outSize == outSize + (if steps[k].1.Ok? then steps[k].1.value else 0)
    ensures all.result == (if steps[k].1.Err? then Err(steps[k].1.error) else Err(LimitExceeded))
  {
    assert steps[k..][0] == steps[k];
    assert states[k..][0] == states[k] && states[k..][1..] == states[k + 1..];
    forall i | k < i < |states| ensures all.states[i] == states[i] {
      assert all.states[i] == all.states[k..][i - k];
    }
  }

  // ---------------------------------------------------------------------------
  // The child's status and the window size

  /** What `waitpid` reports. */
  datatype WaitStatus =
    | Exited(code: int)
    | Signaled(signal: nat)
    | StillAlive
    | OtherStatus   // stopped, continued or a ptrace event

  /** The exit status a wait status stands for: the code of a normal exit, 128 plus
      the signal for a killed child, 1 otherwise. */
  function ExitCode(w: WaitStatus): int {
    match w
    case Exited(code) => code
    case Signaled(signal) => 128 + signal
    case _ => 1
  }

  /** The signal record message of a window change. */
  function WindowMessage(lines: u16, cols: u16): string {
    "ROWS=" + Decimal.Show(lines) + " COLS=" + Decimal.Show(cols)
  }

  // ---------------------------------------------------------------------------
  // The session object

  /** A `ScriptControl`. The two lists may hold one logger in common (the
      `--log-io` one) and the signal and info logs are clones of one of the timing
      loggers, so they are references to logger objects held in the lists. */
  class ScriptControl {
    var outLogs: seq<ScriptLogger>
    var inLogs: seq<ScriptLogger>
    var sigLog: Option<ScriptLogger>
    var infoLog: Option<ScriptLogger>
    const ttyName: Option<string>
    const ttyType: Option<string>
    const command: Option<string>
    const commandNorm: Option<string>
    var ttyCols: u16
    var ttyLines: u16
    var childPid: Option<nat>
    var childStatus: Option<int>
    const append: bool
    const force: bool
    const isTerm: bool
    var outSize: nat
    const maxSize: nat

    /** No logger is in a list twice, and the signal and info logs are one
        multi-stream logger or none. */
    predicate Valid()
      reads this
    {
      && Distinct(outLogs)
      && Distinct(inLogs)
      && sigLog == infoLog
      && (sigLog.Some? ==> sigLog.value.format == TimingMulti)
    }

    /** The fields `new` sets before `setup_logging`; off a terminal the size is
        80 by 24 and the terminal name and type are not asked for. */
    constructor(args: Args, term: Terminal, maxSize: nat)
      ensures Valid()
      ensures outLogs == [] && inLogs == [] && sigLog.None? && infoLog.None?
      ensures command == args.command && commandNorm == CommandNorm(args.command)
      ensures isTerm == term.isTerm
      ensures ttyCols == (if term.isTerm then term.cols else 80) && ttyLines == (if term.isTerm then term.lines else 24)
      ensures ttyName == (if term.isTerm then term.name else None) && ttyType == (if term.isTerm then term.termType else None)
      ensures childPid.None? && childStatus.None?
      ensures append == args.append && force == args.force
      ensures outSize == 0 && this.maxSize == maxSize
    {
      outLogs := [];
      inLogs := [];
      sigLog := None;
      infoLog := None;
      command := args.command;
      commandNorm := CommandNorm(args.command);
      if term.isTerm {
        ttyCols, ttyLines := term.cols, term.lines;
        ttyName, ttyType := term.name, term.termType;
      } else {
        ttyCols, ttyLines := 80, 24;
        ttyName, ttyType := None, None;
      }
      childPid := None;
      childStatus := None;
      append := args.append;
      force := args.force;
      isTerm := term.isTerm;
      outSize := 0;
      this.maxSize := maxSize;
    }

    /** `ScriptControl::new`: the output limit, then the loggers. */
    static method New(args: Args, term: Terminal, defaultMeta: Option<Metadata>)
      returns (r: Result<ScriptControl, SetupError>)
      ensures r.Err? <==> Setup(args, defaultMeta).Err?
      ensures r.Err? ==> r.error == Setup(args, defaultMeta).error
      ensures r.Ok? ==>
                var c := r.value;
                var (limit, plan) := Setup(args, defaultMeta).value;
                && fresh(c) && c.Valid()
                && c.maxSize == limit && c.outSize == 0
                && c.commandNorm == CommandNorm(args.command)
                && Routes(c.inLogs, c.outLogs, c.sigLog, plan, args.logIo.Some?)
                && c.Unstarted() && c.append == args.append
    {
      var limit := MaxSize(args.outputLimit);
      if limit.Err? {
        return Err(BadLimit(limit.error));
      }
      var c := new ScriptControl(args, term, limit.value);
      var setup := c.SetupLogging(args, defaultMeta);
      if setup.Err? {
        return Err(setup.error);
      }
      r := Ok(c);
    }

    /** `associate_log`: a new logger, pushed to the lists of the directions it logs;
        the first multi-stream logger becomes the signal and info log. */
    method AssociateLog(path: string, format: LogFormat, isInput: bool, isOutput: bool)
      returns (logger: ScriptLogger)
      requires Valid()
      modifies this`inLogs, this`outLogs, this`sigLog, this`infoLog
      ensures Valid()
      ensures fresh(logger) && logger.State() == Created
      ensures logger.path == path && logger.format == format && logger.append == append
      ensures inLogs == old(inLogs) + if isInput then [logger] else []
      ensures outLogs == old(outLogs) + if isOutput then [logger] else []
      ensures sigLog == if old(sigLog).None? && format == TimingMulti then Some(logger) else old(sigLog)
      ensures infoLog == if old(infoLog).None? && format == TimingMulti then Some(logger) else old(infoLog)
    {
      logger := new ScriptLogger(path, format, append);
      if isInput {
        inLogs := inLogs + [logger];
      }
      if isOutput {
        outLogs := outLogs + [logger];
      }
      if format == TimingMulti {
        if sigLog.None? {
          sigLog := Some(logger);
        }
        if infoLog.None? {
          infoLog := Some(logger);
        }
      }
    }

    /** Every logger in the lists is as `associate_log` made it. */
    predicate Unstarted()
      reads this, inLogs, outLogs
    {
      forall l :: l in inLogs + outLogs ==> l.State() == Created && l.append == append
    }

    /** One one-direction `associate_log` call of `setup_logging`, made when `cond`
        holds, with the routing facts it keeps. */
    method AttachWhen(cond: bool, a: Association, ghost done: seq<Association>, ghost io: bool)
      requires Valid() && Routes(inLogs, outLogs, sigLog, done, io) && Unstarted()
      requires a.isInput != a.isOutput
      modifies this`inLogs, this`outLogs, this`sigLog, this`infoLog
      ensures Valid() && Routes(inLogs, outLogs, sigLog, done + When(cond, a), io) && Unstarted()
    {
      if cond {
        ghost var ins, outs, sig := inLogs, outLogs, sigLog;
        var l := AssociateLog(a.path, a.format, a.isInput, a.isOutput);
        RoutesStep(ins, outs, sig, done, io, a, l);
      } else {
        assert done + [] == done;
      }
    }

    /** `--log-in` or `--log-out`: a Raw logger for one direction, if the option is given. */
    method AttachOptional(path: Option<string>, isInput: bool, ghost done: seq<Association>, ghost io: bool)
      requires Valid() && Routes(inLogs, outLogs, sigLog, done, io) && Unstarted()
      modifies this`inLogs, this`outLogs, this`sigLog, this`infoLog
      ensures Valid() && Routes(inLogs, outLogs, sigLog, done + Optional(path, isInput, !isInput), io) && Unstarted()
    {
      AttachWhen(path.Some?, Association(path.GetOr(""), Raw, isInput, !isInput), done, io);
    }

    /** `--log-io`: one Raw logger in both lists, if the option is given. */
    method AttachIo(path: Option<string>)
      requires Valid() && inLogs == [] && outLogs == [] && sigLog.None?
      modifies this`inLogs, this`outLogs, this`sigLog, this`infoLog
      ensures Valid() && Routes(inLogs, outLogs, sigLog, Optional(path, true, true), path.Some?) && Unstarted()
    {
      if path.Some? {
        var a := Association(path.value, Raw, true, true);
        var l := AssociateLog(a.path, a.format, a.isInput, a.isOutput);
        RoutesBoth(l, a);
      } else {
        RoutesStart();
      }
    }

    /** The data-log part of `setup_logging`: `--log-io`, `--log-in`, `--log-out`. */
    method AttachDataLogs(args: Args) returns (hasIn: bool, hasOut: bool)
      requires Valid() && inLogs == [] && outLogs == [] && sigLog.None?
      modifies this`inLogs, this`outLogs, this`sigLog, this`infoLog
      ensures Valid() && Unstarted()
      ensures Routes(inLogs, outLogs, sigLog, DataLogs(args), args.logIo.Some?)
      ensures hasIn == LogsInput(args) && hasOut == LogsOutput(args)
    {
      AttachIo(args.logIo);
      AttachOptional(args.logIn, true, Optional(args.logIo, true, true), args.logIo.Some?);
      AttachOptional(args.logOut, false, Optional(args.logIo, true, true) + Optional(args.logIn, true, false),
                     args.logIo.Some?);
      hasIn := args.logIo.Some? || args.logIn.Some?;
      hasOut := args.logIo.Some? || args.logOut.Some?;
    }

    /** The timing part of `setup_logging`: one timing logger for each logged
        direction, output first. */
    method AttachTimingLogs(path: string, format: LogFormat, hasIn: bool, hasOut: bool,
                            ghost done: seq<Association>, ghost io: bool)
      requires Valid() && Routes(inLogs, outLogs, sigLog, done, io) && Unstarted()
      modifies this`inLogs, this`outLogs, this`sigLog, this`infoLog
      ensures Valid() && Unstarted()
      ensures Routes(inLogs, outLogs, sigLog, done + TimingLogs(path, format, hasIn, hasOut), io)
    {
      var forOut := Association(path, format, false, true);
      var forIn := Association(path, format, true, false);
      AttachWhen(hasOut, forOut, done, io);
      AttachWhen(hasIn, forIn, done + When(hasOut, forOut), io);
      assert done + When(hasOut, forOut) + When(hasIn, forIn) == done + TimingLogs(path, format, hasIn, hasOut);
    }

    /** `setup_logging` on a new session: the data logs, the timing loggers for the
        directions that have one, or else the default typescript, checked for links
        unless forced. */
    method SetupLogging(args: Args, defaultMeta: Option<Metadata>) returns (r: Result<(), SetupError>)
      requires Valid() && inLogs == [] && outLogs == [] && sigLog.None? && force == args.force
      modifies this`inLogs, this`outLogs, this`sigLog, this`infoLog
      ensures Valid() && Unstarted()
      ensures r.Err? <==> Plan(args, defaultMeta).Err?
      ensures r.Err? ==> r.error == Plan(args, defaultMeta).error
      ensures r.Ok? ==> Routes(inLogs, outLogs, sigLog, Plan(args, defaultMeta).value, args.logIo.Some?)
      ensures r.Err? ==> Routes(inLogs, outLogs, sigLog, DataLogs(args), args.logIo.Some?)
    {
      var hasIn, hasOut := AttachDataLogs(args);
      var timingFile := TimingFile(args.logTiming, args.timing);
      var format := TimingFormat(args.loggingFormat, timingFile.Some?, hasIn, hasOut);
      if format.Err? {
        return Err(format.error);
      }
      if hasIn || hasOut {
        if timingFile.Some? {
          AttachTimingLogs(timingFile.value, format.value, hasIn, hasOut, DataLogs(args), args.logIo.Some?);
        } else {
          assert DataLogs(args) + [] == DataLogs(args);
        }
        PlanWithDataLogs(args, defaultMeta, format.value);
      } else {
        PlanWithoutDataLogs(args, defaultMeta, format.value);
        var file := DefaultFile(args);
        if !force {
          var check := DieIfLink(file, defaultMeta);
          if check.Err? {
            return Err(LinkRefused(check.error));
          }
        }
        var a := Association(file, Raw, false, true);
        AttachWhen(true, a, DataLogs(args), args.logIo.Some?);
        assert DataLogs(args) + When(true, a) == [a];
      }
      r := Ok(());
    }

    /** One `log_data` call of the loop: the other loggers of the list are untouched. */
    static method LogOne(logs: seq<ScriptLogger>, k: nat, stream: LogStream, data: string, now: nat)
      returns (r: Result<nat, string>)
      requires Distinct(logs) && k < |logs|
      modifies logs[k]
      ensures (logs[k].State(), r) == LogDataStep(logs[k].format, old(logs[k].State()), stream, data, now)
      ensures forall i {:trigger logs[i].State()} :: 0 <= i < |logs| && i != k ==> logs[i].State() == old(logs[i].State())
    {
      r := logs[k].LogData(stream, data, now);
      forall i | 0 <= i < |logs| && i != k ensures logs[i].State() == old(logs[i].State()) {
        assert logs[i] != logs[k];
      }
    }

    /** One turn of the loop of `log_input` and `log_output`: `log_data` on the `k`-th
        logger, its count added to the running total, and whether the loop ends here
        on an error or at the size limit. */
    static method Visit(logs: seq<ScriptLogger>, k: nat, stream: LogStream, data: string, now: nat,
                        total: nat, maxSize: nat, ghost steps: seq<(LoggerState, Result<nat, string>)>,
                        ghost olds: seq<LoggerState>, ghost all: Fed)
      returns (r: Result<(), string>, total': nat)
      requires Distinct(logs) && k < |logs| && |steps| == |logs|
      requires Progress(logs, all.states, olds, k)
      requires steps[k] == LogDataStep(logs[k].format, olds[k], stream, data, now)
      requires Remains(all, k, Walk(steps[k..], olds[k..], total, maxSize))
      modifies logs[k]
      ensures r.Err? ==> States(logs) == all.states && all.outSize == total' && all.result == r
      ensures r.Ok? ==> Progress(logs, all.states, olds, k + 1)
                        && Remains(all, k + 1, Walk(steps[k + 1..], olds[k + 1..], total', maxSize))
    {
      var res := LogOne(logs, k, stream, data, now);
      if res.Err? {
        WalkStops(all, steps, olds, k, total, maxSize);
        SameStates(logs, all.states, k);
        return Err(res.error), total;
      }
      total' := total + res.value;
      if maxSize > 0 && total' >= maxSize {
        WalkStops(all, steps, olds, k, total, maxSize);
        SameStates(logs, all.states, k);
        return Err(LimitExceeded), total';
      }
      WalkGoesOn(all, steps, olds, k, total, maxSize, res.value, total');
      r := Ok(());
    }

    /** The loop of `log_input` and `log_output` over one list of loggers, from the
        running total `outSize`; `total` is the running total it leaves. The `k`-th
        logger's `log_data` reads the clock as `nows[k]`. */
    static method LogToAll(logs: seq<ScriptLogger>, stream: LogStream, data: string, nows: seq<nat>,
                           outSize: nat, maxSize: nat)
      returns (r: Result<(), string>, total: nat)
      requires Distinct(logs) && |nows| == |logs|
      modifies logs
      ensures var f := Feed(Formats(logs), old(States(logs)), stream, data, nows, outSize, maxSize);
              States(logs) == f.states && total == f.outSize && r == f.result
    {
      ghost var formats := Formats(logs);
      ghost var olds := States(logs);
      ghost var steps := Steps(formats, olds, stream, data, nows);
      ghost var all := Walk(steps, olds, outSize, maxSize);
      assert steps[0..] == steps && olds[0..] == olds;
      total := outSize;
      var k := 0;
      while k < |logs|
        invariant 0 <= k <= |logs|
        invariant Progress(logs, all.states, olds, k)
        invariant Remains(all, k, Walk(steps[k..], olds[k..], total, maxSize))
      {
        r, total := Visit(logs, k, stream, data, nows[k], total, maxSize, steps, olds, all);
        if r.Err? {
          return;
        }
        k := k + 1;
      }
      SameStates(logs, all.states, k);
      r := Ok(());
    }

    /** `log_input`: the chunk read from the terminal, to every input logger. */
    method LogInput(data: string, nows: seq<nat>) returns (r: Result<(), string>)
      requires Valid() && |nows| == |inLogs|
      modifies this`outSize, inLogs
      ensures var f := Feed(Formats(inLogs), old(States(inLogs)), Input, data, nows, old(outSize), maxSize);
              States(inLogs) == f.states && outSize == f.outSize && r == f.result
    {
      var total;
      r, total := LogToAll(inLogs, Input, data, nows, outSize, maxSize);
      outSize := total;
    }

    /** `log_output`: the chunk read from the child, to every output logger. */
    method LogOutput(data: string, nows: seq<nat>) returns (r: Result<(), string>)
      requires Valid() && |nows| == |outLogs|
      modifies this`outSize, outLogs
      ensures var f := Feed(Formats(outLogs), old(States(outLogs)), Output, data, nows, old(outSize), maxSize);
              States(outLogs) == f.states && outSize == f.outSize && r == f.result
    {
      var total;
      r, total := LogToAll(outLogs, Output, data, nows, outSize, maxSize);
      outSize := total;
    }

    /** `wait_for_child`: the status of the child, once it has been started. */
    method WaitForChild(w: WaitStatus)
      modifies this`childStatus
      ensures childStatus == if childPid.Some? then Some(ExitCode(w)) else old(childStatus)
    {
      if childPid.Some? {
        childStatus := Some(ExitCode(w));
      }
    }

    /** The poll in `proxy_io`: a child that is still running leaves everything as it
        is; any other status is recorded and ends the session loop. */
    method PollChild(w: WaitStatus) returns (ended: bool)
      modifies this`childStatus
      ensures ended <==> childPid.Some? && w != StillAlive
      ensures childStatus == if ended then Some(ExitCode(w)) else old(childStatus)
    {
      ended := false;
      if childPid.Some? && w != StillAlive {
        childStatus := Some(ExitCode(w));
        ended := true;
      }
    }

    /** `stop_logging`: every logger is closed with the child's status, 0 when none
        was recorded; the output loggers first, then the input loggers. A logger in
        both lists is closed twice, and the second close changes nothing. Each close
        reads the clocks itself: `closedAt(l)` is the wall-clock stamp and the reading
        that logger `l`'s close takes. */
    method StopLogging(closedAt: ScriptLogger -> (string, nat))
      modifies outLogs, inLogs
      ensures forall l :: l in outLogs + inLogs ==>
                l.State() == CloseStep(l.format, old(l.State()), childStatus.GetOr(0), closedAt(l).0, closedAt(l).1)
    {
      var status := childStatus.GetOr(0);
      var k := 0;
      while k < |outLogs|
        invariant 0 <= k <= |outLogs|
        invariant forall l :: l in outLogs[..k] ==> l.State() == CloseStep(l.format, old(l.State()), status, closedAt(l).0, closedAt(l).1)
        invariant forall l :: l in outLogs + inLogs && l !in outLogs[..k] ==> l.State() == old(l.State())
      {
        outLogs[k].Close(status, closedAt(outLogs[k]).0, closedAt(outLogs[k]).1);
        assert outLogs[..k + 1] == outLogs[..k] + [outLogs[k]];
        k := k + 1;
      }
      assert outLogs[..k] == outLogs;
      k := 0;
      while k < |inLogs|
        invariant 0 <= k <= |inLogs|
        invariant forall l :: l in outLogs + inLogs[..k] ==> l.State() == CloseStep(l.format, old(l.State()), status, closedAt(l).0, closedAt(l).1)
        invariant forall l :: l in inLogs && l !in outLogs + inLogs[..k] ==> l.State() == old(l.State())
      {
        inLogs[k].Close(status, closedAt(inLogs[k]).0, closedAt(inLogs[k]).1);
        assert inLogs[..k + 1] == inLogs[..k] + [inLogs[k]];
        k := k + 1;
      }
      assert inLogs[..k] == inLogs;
    }

    /** `handle_window_change`: the new size is remembered, and the signal log, if
        any, records it. */
    method HandleWindowChange(cols: u16, lines: u16, now: nat) returns (r: Result<(), string>)
      modifies this`ttyCols, this`ttyLines, if sigLog.Some? then {sigLog.value} else {}
      ensures ttyCols == cols && ttyLines == lines
      ensures sigLog.None? ==> r == Ok(())
      ensures sigLog.Some? ==>
                (sigLog.value.State(), r)
                == LogSignalStep(sigLog.value.format, old(sigLog.value.State()), "SIGWINCH", Some(WindowMessage(lines, cols)), now)
    {
      ttyCols := cols;
      ttyLines := lines;
      r := Ok(());
      if sigLog.Some? {
        r := sigLog.value.LogSignal("SIGWINCH", Some(WindowMessage(lines, cols)), now);
      }
    }
  }
}
