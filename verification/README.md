# rust_script core, modelled in Dafny

`rust_script` records a terminal session in the manner of util-linux `script`. It
runs a child under a pseudo-terminal. Every chunk the user types and every chunk
the child prints goes to one or more log files. A log file is in one of three
formats:

- Raw: a transcript framed by a header line and a trailer line.
- Classic timing (`TimingSimple`): one line `<delta> <length>` per chunk.
- Advanced timing (`TimingMulti`): one line `<I|O> <delta> <length>` per chunk,
  plus signal (`S`) and information (`H`) records.

This project models the part of the program that decides what is written and when:

- `utils.dfy` (module `Utils`): `parse_size`, the size parser behind
  `--output-limit`, and `die_if_link`, the link check on the default output file.
- `logging.dfy` (module `Logging`): the `ScriptLogger` class. Each of its methods
  (`new`, `start_with_data`, `log_data`, `log_signal`, `log_info`, `close`) updates
  the logger in place. Each is specified by a transition function on a
  `LoggerState` value: the file contents, whether a writer is held, whether the
  logger was started, and the start and last-record clock readings.
- `log_properties.dfy` (module `LogProperties`): what a whole session writes into
  one log. This covers the header, the chunks and the trailer of a Raw log, the
  records of a timing log, and the fact that a closed logger stays closed.
- `replay.dfy` (module `Replay`): a reader for timing logs. A timing log read back
  line by line gives exactly the delays and lengths that were recorded, and the
  delays add up to the session's clock.
- `script_control.dfy` (module `ScriptControl`): the session object, covering
  - `new` and `setup_logging`: which loggers are made, in which lists, and which
    one becomes the signal and information log;
  - `associate_log`;
  - `log_input` and `log_output`: each chunk goes to every logger of a list, and
    the bytes are counted against the output limit;
  - the mapping from a child's wait status to an exit code (`proxy_io` and
    `wait_for_child`);
  - `stop_logging`;
  - the state part of `handle_window_change`.
- `control_properties.dfy` (module `ControlProperties`): properties of the
  session: the limit, the plan of loggers, the command text, exit codes and the
  window-change message.
- `shared_file.dfy` (module `SharedFile`): what reaches the disk when the output
  and the input timing logger write one path, each through its own handle.
- `decimal.dfy` and `results.dfy`: decimal rendering and parsing as Rust's `u64`
  `Display` and `FromStr` do them, and the `Option`/`Result` types.

Inputs the program gets from the operating system become parameters:

- the clock, a reading in whole microseconds;
- the wall-clock stamp, a string;
- what `fs::symlink_metadata` reports;
- whether standard input is a terminal, with its size, name and type;
- the child's wait status.

The Rust code clones a `ScriptLogger` through `Arc`, so every clone shares one
writer and one set of times. The model therefore keeps a single object per
logger, and the lists refer to it. The `--log-io` logger is the one object that
appears in both lists.

On these points the code behaves as follows, and the model follows it:

- The output limit triggers when the running total reaches the limit (`>=`), not
  only when it goes past it. The total counts every logger's bytes, including
  timing records and the `--log-io` logger's bytes in both directions.
- Only the default output file is checked for links. Paths given with
  `--log-in`, `--log-out` and `--log-io` are not checked.
- A timing file together with no data log attaches no timing logger: the timing
  loggers follow the directions that are logged.
- A `--logging-format` name is checked, and an unknown name refused, even when no
  timing file is given.

## Model

| member | source | states |
|---|---|---|
| Utils.ParseSize | src/utils.rs:51-87 | An accepted size is below 2^64. The empty-size error comes exactly when the text is nothing but white space. A product that does not fit in 64 bits is refused (the corrected form of line 86). Its value for every input is stated by `ParseSizeValue`. |
| Utils.SplitSuffixIsUnit | src/utils.rs:58-81 | The suffix split ends the text with the unit it found (`kb`/`k`, `mb`/`m`, `gb`/`g`, or none), strips exactly that unit and gives its multiplier. |
| Utils.ParseSizeValue | src/utils.rs:51-87 | For every text, after trimming and lowering: empty is the empty-size error; a number part that does not parse is "invalid number" naming that part, in both forms; otherwise the size is the number times the multiplier, refused when it reaches 2^64, and taken modulo 2^64 as written. |
| Utils.ParseSizeAsWritten | src/utils.rs:51-87 | `parse_size` as written: every accepted size is below 2^64 because the product wraps around. |
| Utils.ParseSizeIgnoresPadding | src/utils.rs:52 | White space around the text never changes the result, in either form. |
| Utils.ParseSizeIgnoresCase | src/utils.rs:52 | A text and its lower-case form parse alike. |
| Utils.ParseSizeOfDecimal | src/utils.rs:58-86 | Any u64 written in decimal, with or without a unit, parses to the number times the unit's multiplier (1, 1024, 1024^2 or 1024^3). The product is refused when it does not fit in 64 bits. As written, it is taken modulo 2^64. |
| Utils.KiloForms | src/utils.rs:58-64 | `k` and `kb` are the same unit. |
| Utils.MegaForms | src/utils.rs:65-71 | `m` and `mb` are the same unit. |
| Utils.GigaForms | src/utils.rs:72-78 | `g` and `gb` are the same unit. |
| Utils.ParseSizeHundred | src/utils.rs:122 | "100" is 100. |
| Utils.ParseSizeOneK | src/utils.rs:123 | "1k" is 1024. |
| Utils.ParseSizeOneKB | src/utils.rs:124 | "1kb" is 1024. |
| Utils.ParseSizeOneM | src/utils.rs:125 | "1m" is 1024^2. |
| Utils.ParseSizeOneMB | src/utils.rs:126 | "1mb" is 1024^2. |
| Utils.ParseSizeOneG | src/utils.rs:127 | "1g" is 1024^3. |
| Utils.ParseSizeOneGB | src/utils.rs:128 | "1gb" is 1024^3. |
| Utils.ParseSizeUpper2K | src/utils.rs:129 | "2K" is 2 * 1024. |
| Utils.ParseSizeUpper5M | src/utils.rs:130 | "5M" is 5 * 1024^2. |
| Utils.ParseSizeRefusesUnknownUnit | src/utils.rs:83-84 | "1tb" is refused as an invalid number, and the whole text is named. |
| Utils.ParseSizeRefusesBareUnit | src/utils.rs:83-84 | "kb" is refused: the number part is empty. |
| Utils.ParseSizeRefusesInnerSpace | src/utils.rs:83-84 | "1 kb" is refused: the space stays in the number part. |
| Utils.ParseSizeWrapsToZero | src/utils.rs:86 | As written, "17179869184g" is accepted as 0, which means no limit at all. The corrected parser refuses it as an overflow. |
| Utils.TrimEmptyIffWhitespace | src/utils.rs:52-56 | Rust's `trim` leaves nothing exactly when the text is all white space. |
| Utils.DieIfLink | src/utils.rs:89-114 | A path is refused exactly when its lookup succeeds and reports a symbolic link or more than one hard link. A failed lookup, such as a missing file, is accepted. The error names the path. |
| Decimal.ParseU64 | src/utils.rs:83 | An accepted number is below 2^64 and is made of decimal digits, optionally after one `+`. |
| Decimal.ParseU64OfShow | src/utils.rs:83 | Every u64 rendered in decimal parses back to itself, with or without a leading `+`. |
| Decimal.ShowHasNoSeparator | src/logging.rs:127-129 | A rendered number contains no space and no line break. |
| Logging.Elapsed | src/logging.rs:121-125 | The delay since the last record: the difference of the readings, 0 when the clock went back, and 0 with no previous reading. |
| Logging.Pad | src/logging.rs:127-128 | The fraction is written in exactly the given number of digits. |
| Logging.FmtDelta | src/logging.rs:127-128 | A rendered delay contains no space and no line break. |
| Logging.RecordBody | src/logging.rs:149-152 | A data record contains no line break before its end. |
| Logging.DataRecord | src/logging.rs:127-156 | A data record is exactly one line. |
| Logging.Start | src/logging.rs:46-106 | After a start the logger is initialized. A second start changes nothing. A first Raw start opens the file, truncated unless appending, and writes the header. A first timing start opens an empty file and sets the start and last times to now. |
| Logging.LogDataStep | src/logging.rs:108-159 | Without a writer: "Logger not initialized", with nothing changed. Otherwise the file only grows, by exactly the reported count. Raw appends the data verbatim and keeps the last time. Timing formats append one line and set the last time to now. |
| Logging.LogSignalStep | src/logging.rs:161-186 | Outside the multi-stream format, nothing happens. Without a writer, the not-initialized error. Otherwise exactly the line `S <delta> <name>`, followed by ` <message>` when there is one, is appended, with the delay since the last record, and the last time is now. |
| Logging.LogInfoStep | src/logging.rs:188-200 | Outside the multi-stream format, nothing happens. Without a writer, the not-initialized error. Otherwise an `H 0.0` record is appended and the times are kept. |
| Logging.CloseStep | src/logging.rs:202-227 | After a close no writer is held. Closing a logger without a writer changes nothing. Otherwise the format's trailer is appended: the Raw "Script done" line, the multi-stream duration and exit-code records, or nothing for the classic format. |
| Logging.ScriptLogger.constructor | src/logging.rs:34-44 | A new logger holds no writer, no file contents and no times. |
| Logging.ScriptLogger.StartWithData | src/logging.rs:46-106 | The logger's new state is `Start` of its old state. |
| Logging.ScriptLogger.LogData | src/logging.rs:108-159 | The new state and the count are `LogDataStep` of the old state. |
| Logging.ScriptLogger.LogSignal | src/logging.rs:161-186 | The new state and the result are `LogSignalStep` of the old state. |
| Logging.ScriptLogger.LogInfo | src/logging.rs:188-200 | The new state and the result are `LogInfoStep` of the old state. |
| Logging.ScriptLogger.Close | src/logging.rs:202-227 | The new state is `CloseStep` of the old state. |
| LogProperties.CreatedIsConsistent | src/logging.rs:34-44 | A new logger satisfies the logger invariant. Only a started logger holds a writer, and an unstarted one has nothing set. A Raw logger never has clock readings, and a started timing logger has both. |
| LogProperties.OperationsKeepConsistent | src/logging.rs:46-227 | Every operation keeps the logger invariant. |
| LogProperties.StartIsIdempotent | src/logging.rs:55-58 | Starting a started logger again, with any arguments, changes nothing. |
| LogProperties.CloseIsFinal | src/logging.rs:202-227 | After a close, data, signal and info are refused with "Logger not initialized". Closing again changes nothing, and starting again does not reopen the file. |
| LogProperties.UnstartedLoggerRefusesData | src/logging.rs:109-110 | A logger that was never started refuses data, and closing it changes nothing. |
| LogProperties.RawStart | src/logging.rs:61-93 | A Raw start opens the file, truncated unless appending, and writes the header. |
| LogProperties.RawLogAppendsChunks | src/logging.rs:113-116 | Logging chunks into an open Raw log appends their concatenation and nothing else. |
| LogProperties.RawSessionLog | src/logging.rs:46-227 | A Raw session's file is the old contents (when appending), the header, every chunk in order, and the trailer with the exit status. |
| LogProperties.TimingStart | src/logging.rs:94-99 | A timing start opens an empty file and sets the last time to now. |
| LogProperties.TimingLogAppendsRecords | src/logging.rs:118-157 | Logging chunks into an open timing log appends one record per chunk, each with its delay and length. The last time becomes the last chunk's reading. |
| LogProperties.TimingSessionLog | src/logging.rs:94-157 | A started timing log holds exactly the records of its chunks. |
| LogProperties.DeltasAddUp | src/logging.rs:119-132 | With a clock that does not go back, the recorded delays add up to the time from the start to the last record. |
| Replay.ParseDeltaOfFmtDelta | src/logging.rs:127-128 | Every delay rendered with six decimals parses back to the same number of microseconds. |
| Replay.ParseTimesOfRecord | src/logging.rs:127-129 | The `<delta> <length>` part of a record parses back to its delay and length. |
| Replay.ParseEntryOfRecord | src/logging.rs:118-157 | A classic or advanced data record parses back to its delay and length, and in the advanced format to its stream. |
| Replay.TimingRecordsAreLines | src/logging.rs:127-156 | The records of a timing log are whole lines: the text is empty or ends with a line break. |
| Replay.ReplayTimingRecords | src/logging.rs:118-157 | Read line by line, the records of any chunks give back exactly each chunk's delay, length and stream. |
| Replay.ParseSignalOfRecord | src/logging.rs:177-181 | A signal record whose name has no space reads back as its delay, name and message. |
| Replay.ReplayTimingSession | src/logging.rs:94-157 | A whole timing session's file reads back as its entries, and their delays add up to the session's clock. |
| ScriptControl.NormalizeCommand | src/script_control.rs:67 | The logged command has the length of the command. Each line break becomes a space and every other character is kept. |
| ScriptControl.MaxSize | src/script_control.rs:80-84 | With no limit the limit is 0, meaning none. Otherwise it is the corrected `parse_size` of the option: below 2^64, and an error for a blank text. |
| ScriptControl.TimingFile | src/script_control.rs:129-134 | `--log-timing` wins. Otherwise there is a timing file exactly when `--timing` is given, and a bare `--timing` means standard error. |
| ScriptControl.TimingFormat | src/script_control.rs:136-150 | Only an unsupported format name is an error. Without a name: a timed session is multi-stream exactly when both directions are logged, never Raw, and an untimed session keeps Raw. |
| ScriptControl.FirstMulti | src/script_control.rs:186-194 | The signal and info log is a multi-stream association of the plan. |
| ScriptControl.RoutesBoth | src/script_control.rs:111-115 | The `--log-io` logger is in both lists, and it is the only logger they share. |
| ScriptControl.RoutesStep | src/script_control.rs:176-194 | A one-direction association adds a new logger to its own list only. The first multi-stream one becomes the signal log. |
| ScriptControl.Walk | src/script_control.rs:347-361 | The running total never drops. A walk that succeeds has called every logger. A failed walk called at least one. |
| ScriptControl.Feed | src/script_control.rs:347-377 | The same, over one list of loggers, each `log_data` call with the clock reading it takes itself. |
| ScriptControl.WalkGoesOn | src/script_control.rs:349-353 | A logger that takes the chunk below the limit passes the walk on to the next one. |
| ScriptControl.WalkStops | src/script_control.rs:349-358 | A logger that fails, or that brings the total to the limit, ends the walk. The later loggers are untouched, and the result is its error or "Output size limit exceeded". |
| ScriptControl.ScriptControl.constructor | src/script_control.rs:51-85 | The session's fields before `setup_logging`. The size is 80 by 24, and there is no terminal name or type, unless standard input is a terminal. The total starts at 0. |
| ScriptControl.ScriptControl.New | src/script_control.rs:51-96 | A limit that does not parse, or a failing setup, is the error of `new`. Otherwise the session holds the parsed limit, a zero total, the normalised command, and unstarted loggers routed as the plan says; the signal and info log is the first multi-stream logger, found in its own direction's list. |
| ScriptControl.ScriptControl.AssociateLog | src/script_control.rs:176-197 | A new unstarted logger is pushed to the input and/or output list. It becomes the signal and info log when it is the first multi-stream one. |
| ScriptControl.ScriptControl.AttachWhen | src/script_control.rs:153-160 | One conditional one-direction association keeps the routing invariant. |
| ScriptControl.ScriptControl.AttachOptional | src/script_control.rs:117-127 | `--log-in` and `--log-out` each add a Raw logger to their own list when given. |
| ScriptControl.ScriptControl.AttachIo | src/script_control.rs:110-115 | `--log-io` puts one Raw logger in both lists. |
| ScriptControl.ScriptControl.AttachDataLogs | src/script_control.rs:110-127 | The data logs are routed as `DataLogs` says. The logged directions are reported. |
| ScriptControl.ScriptControl.AttachTimingLogs | src/script_control.rs:152-160 | One timing logger for each logged direction, output first. |
| ScriptControl.ScriptControl.SetupLogging | src/script_control.rs:104-174 | The setup fails exactly when the plan does, with the plan's error. On success the lists and the signal log are those the plan's associations produce: the signal log has the first multi-stream association's path and format and is in the list of that association's direction. |
| ScriptControl.ScriptControl.LogOne | src/script_control.rs:349 | One `log_data` call changes that logger only. |
| ScriptControl.ScriptControl.Visit | src/script_control.rs:348-359 | One turn of the loop agrees with the walk: it stops with the walk's final states, total and error, or passes on. |
| ScriptControl.ScriptControl.LogToAll | src/script_control.rs:347-361 | The loop over a list leaves exactly the states, the total and the result that `Feed` gives, the `k`-th logger's call reading the clock as the `k`-th reading. |
| ScriptControl.ScriptControl.LogInput | src/script_control.rs:347-361 | The input loggers' states, the running total and the result are those of `Feed` over the input list, with one clock reading per logger. |
| ScriptControl.ScriptControl.LogOutput | src/script_control.rs:363-377 | The same, over the output list. |
| ScriptControl.ScriptControl.WaitForChild | src/script_control.rs:514-529 | With a child, its status becomes the exit code of the wait status. Without one, nothing changes. |
| ScriptControl.ScriptControl.PollChild | src/script_control.rs:320-341 | The poll ends the loop exactly when there is a child and it is no longer running. It then records the exit code. Otherwise nothing changes. |
| ScriptControl.ScriptControl.StopLogging | src/script_control.rs:475-487 | Every logger in either list is closed with the child's status, or 0 when none was recorded, and with the stamp and clock reading its own close takes. The `--log-io` logger, closed twice, ends as one close leaves it. |
| ScriptControl.ScriptControl.HandleWindowChange | src/script_control.rs:496-505 | The new size is remembered. A signal log, if any, records `SIGWINCH` with the rows and columns. |
| ControlProperties.WalkTotal | src/script_control.rs:348-350 | The final total is the starting total plus the counts of exactly the loggers that were called. |
| ControlProperties.WalkStates | src/script_control.rs:348-358 | A logger's new state is its `log_data` state if it was called and succeeded. Otherwise it keeps its old state. |
| ControlProperties.WalkEnds | src/script_control.rs:349-358 | Every logger before the last one called succeeded. An error is the last logger's own error, or the limit error with a total at or above a non-zero limit. A success leaves the total below a non-zero limit, unless there was no logger. |
| ControlProperties.FeedWithoutLimit | src/script_control.rs:347-361 | With no limit and every logger open, a chunk reaches every logger and the total grows by all their counts. |
| ControlProperties.FeedLimit | src/script_control.rs:353-358 | "Output size limit exceeded" only ever comes from a non-zero limit that the total has reached. "Logger not initialized" comes from a logger without a writer. |
| ControlProperties.FeedOkBelowLimit | src/script_control.rs:353-360 | Starting below the limit, a successful chunk leaves the total below it. |
| ControlProperties.FeedStopsAtClosed | src/script_control.rs:349 | A first logger without a writer stops the loop at once: nothing is counted or written. |
| ControlProperties.InputsAppend | src/script_control.rs:179-184 | The loggers of two runs of associations are those of each run in turn. |
| ControlProperties.FirstMultiAppend | src/script_control.rs:187-193 | The first multi-stream association of two runs is the first run's, if it has one. |
| ControlProperties.DataLogsAreRaw | src/script_control.rs:110-127 | The data logs are all Raw and none becomes the signal log. |
| ControlProperties.DataLogsRoutes | src/script_control.rs:110-127 | The input list starts with the `--log-io` then the `--log-in` logger, and the output list with the `--log-io` then the `--log-out` logger, for those given. |
| ControlProperties.TimingLogsRoutes | src/script_control.rs:152-160 | A timing logger goes to each logged direction. The signal log comes from them exactly for the multi-stream format. |
| ControlProperties.PlanRoutes | src/script_control.rs:104-174 | With a data log, each list is its data logs followed by the timing logger of that direction, when there is a timing file. |
| ControlProperties.PlanSignalLog | src/script_control.rs:137-194 | There is a signal and info log exactly when a direction is logged, a timing file is given and the format comes out multi-stream. |
| ControlProperties.PlanDefault | src/script_control.rs:162-171 | With no data log, nothing logs input, and the output goes to one Raw log: the named file, or `typescript`. |
| ControlProperties.PlanIgnoresMetadata | src/script_control.rs:163-168 | With `--force` or a data log, what the default file is on disk does not matter. |
| ControlProperties.PlanLinkRefusal | src/script_control.rs:162-171 | Setup is refused for a link exactly when there is no data log, no `--force`, an acceptable format, and the link check on the default file fails. |
| ControlProperties.TimingFormatOfName | src/script_control.rs:137-142 | A named format depends on the name only: classic is `classic`, advanced is `advanced`, any other name is refused, and a name never gives Raw. |
| ControlProperties.TimingFormatIgnoresCase | src/script_control.rs:138 | A name and its lower-case form select the same format. |
| ControlProperties.NormalizeCommandProperties | src/script_control.rs:67 | The logged command has no line break. Normalising twice is normalising once. A command without line breaks is unchanged. |
| ControlProperties.CommandNormIsPresentWithCommand | src/script_control.rs:67 | There is a logged command exactly when a command is given, and it has the command's length. |
| ControlProperties.ExitCodeOfSignal | src/script_control.rs:327-337 | A killed child's code is 128 plus the signal, at least 128. A normal exit keeps its code. The two coincide exactly when the code is 128 plus the signal. |
| ControlProperties.ExitCodeOtherwise | src/script_control.rs:334-336 | Any other status is exit code 1. |
| ControlProperties.WindowChangeRecordRoundTrip | src/script_control.rs:501-503 | The `SIGWINCH` record of a window change is one line, which reads back as its delay, the name `SIGWINCH` and the message, and the message as the rows and columns. |
| ControlProperties.WindowMessageRoundTrip | src/script_control.rs:502 | The `ROWS=<lines> COLS=<cols>` message reads back as the rows and columns it was made of. |
| SharedFile.WriteAt | src/logging.rs:61-66 | A write through a handle at an offset puts the data there, keeps what is before it and after it, and grows the file only when it runs past the end. |
| SharedFile.SharedKeepsEveryRecord | src/logging.rs:61-66 | With one writer for the path, what was written before the data (the information records) is kept, and every record is in the file, whole, right after the records written before it. |
| SharedFile.SeparateHandlesOverwrite | src/logging.rs:61-66 | As written, from the freshly truncated file with both handles at 0, a record of one logger followed by a record of the other that is at least as long leaves only the second on disk; one writer would keep both. |
| SharedFile.ClassicEchoLosesRecord | src/script_control.rs:426-447 | In the classic format nothing is written before the data. A typed chunk's input record and its echo's output record, with the same delay and length, are the same line; as written the file holds it once where two records were written, and one writer would hold both. |
| SharedFile.AdvancedEchoOverwritesInfo | src/script_control.rs:426-470 | In the multi-stream format the information records, `START_TIME` first, go through the output handle before any data. As written, a first input record no longer than them lands at offset 0 and destroys the `START_TIME` record, and the echo's output record lands after them: both data records survive, the header does not. One writer would keep the header and both records. |
| SharedFile.InputRecordBreaksOutputRecord | src/logging.rs:61-66 | Once the input handle reaches an output record, an input record written over its start destroys it. |
| SharedFile.InputRecordHasNoO | src/logging.rs:144-152 | An input data record contains no `O`, so it never reads as an output record where it overwrites one. |

## Left out

- The event loop (`run`, `proxy_io` apart from the wait-status poll, `start_logging`), the pseudo-terminal, raw-mode handling and the child's start. They are I/O and concurrency.
- `handle_signal`. It does not change the session's own state, and its effect on the signal log is `LogSignal` with no message.
- Echo, `--flush`, `--quiet` printing and the "Script terminated" message. They only write to the terminal. `rc_wanted` is stored but never read by the modelled code.
- `handle_window_change` is modelled without `set_window_size` on the pseudo-terminal, which is an ioctl. Reading the terminal size becomes a parameter.
- I/O errors: opening, writing and flushing a file never fail in the model, so `?` on them is not modelled. `BufWriter` buffering is not visible in the model's file contents.
- Two loggers on one disk path: the output and input timing loggers each open the path themselves, truncating and not appending, and each writes from its own offset, so on disk they overwrite each other. A logger's `file` in `Logging` is that logger's own records; what the disk holds is modelled separately in `SharedFile` (see Findings), for the first records of a session in each format and for one overwriting step. The disk of a whole session is not followed, and the sessions of `ScriptControl` do not track it.
- The clock: `Instant` becomes a reading in whole microseconds and `Local::now()` becomes a caller-supplied stamp. Every call that reads the clock gets its own reading: one per logger in `log_input`, `log_output` and `stop_logging`. The model does not require successive readings to be non-decreasing. `Logging.FmtDelta` does not model `f64` rounding of nanosecond durations: it renders a whole number of microseconds exactly.
- Utils.ToLower: only ASCII letters and the Kelvin sign are lowered. Other non-ASCII upper-case letters are left as they are, so a non-ASCII spelling of a unit or format name is not modelled.
- Logged data is a string of characters, one per byte. Byte encodings are not modelled.
- `out_size` is unbounded. A `u64` wrap of the running total is not modelled.
- `Arc<Mutex<…>>` locking is not modelled. Clones are the same object, which is what sharing through `Arc` amounts to within one task.
- ScriptControl.MaxSize / ScriptControl.ScriptControl.New: the session parses `--output-limit` with the corrected `Utils.ParseSize`, so `17179869184g` is refused with a `SizeOverflow` error (`BadLimit`), whereas the code as written accepts it as a limit of 0, that is no limit at all; the as-written parser is `Utils.ParseSizeAsWritten`.
- `get_terminal_name`, `get_terminal_type`, `get_terminal_size` and `is_stdin_tty` become fields of a `Terminal` parameter.

## Findings

| source | as written | input that shows it | evidently intended | confidence | as-written member | corrected member |
|---|---|---|---|---|---|---|
| src/utils.rs:86 | `number * suffix` is a plain `u64` product, which wraps around in a release build | `--output-limit 17179869184g`: 2^34 · 2^30 = 2^64 wraps to 0, and a limit of 0 means no limit | an output limit too large for 64 bits is refused, as an unparsable number is | not executed | Utils.ParseSizeWrapsToZero | Utils.ParseSize (the parser the session's `MaxSize` uses) |
| src/logging.rs:61-66 | each timing logger opens the one timing path with its own handle, truncating and not appending, and `start_logging` starts both | `-m classic -B log -T t`: a typed chunk, then its echo with the same delay and length, leaves one record where two were written. With `-B log -T t` (advanced) the first input record overwrites the `START_TIME` record instead, and later input records overwrite output records | both directions' records, and the information records before them, kept in order in the one timing file | not executed | SharedFile.ClassicEchoLosesRecord | SharedFile.SharedKeepsEveryRecord |
