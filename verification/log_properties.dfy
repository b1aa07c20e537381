/** Properties of the log sink of `src/logging.rs` over whole sessions: the lifecycle
    invariant, idempotent start and close, the contents of a Raw log, and the records
    and deltas of a timing log. */
module LogProperties {
  import opened Results
  import opened Decimal
  import opened Logging

  // ---------------------------------------------------------------------------
  // Lifecycle

  /** What holds of a logger's shared state at every point of its life: only a
      started logger holds a writer; before the start nothing is set; a Raw logger
      never has clock readings, and a started timing logger always has both. */
  predicate Consistent(format: LogFormat, s: LoggerState) {
    && (s.isOpen ==> s.initialized)
    && (!s.initialized ==> s == Created)
    && (format == Raw ==> s.startTime.None? && s.lastTime.None?)
    && (format != Raw && s.initialized ==> s.startTime.Some? && s.lastTime.Some?)
  }

  lemma CreatedIsConsistent(format: LogFormat)
    ensures Consistent(format, Created)
  {
  }

  /** Every operation keeps the state consistent. */
  lemma OperationsKeepConsistent(format: LogFormat, append: bool, s: LoggerState, existing: string,
                                 stamp: string, info: SessionInfo, now: nat, stream: LogStream,
                                 data: string, name: string, message: Option<string>, status: int)
    requires Consistent(format, s)
    ensures Consistent(format, Start(format, append, s, existing, stamp, info, now))
    ensures Consistent(format, LogDataStep(format, s, stream, data, now).0)
    ensures Consistent(format, LogSignalStep(format, s, name, message, now).0)
    ensures Consistent(format, LogInfoStep(format, s, name, data).0)
    ensures Consistent(format, CloseStep(format, s, status, stamp, now))
  {
  }

  /** A second `start_with_data`, through the same logger or a clone of it, changes
      nothing, whatever it is passed. */
  lemma StartIsIdempotent(format: LogFormat, append: bool, s: LoggerState,
                          existing: string, stamp: string, info: SessionInfo, now: nat,
                          existing': string, stamp': string, info': SessionInfo, now': nat)
    ensures var t := Start(format, append, s, existing, stamp, info, now);
            Start(format, append, t, existing', stamp', info', now') == t
  {
  }

  /** After `close` the writer is gone for good: `log_data` fails and writes nothing,
      a second `close` and a new start change nothing, and in the multi-stream format
      signal and info records fail as well. */
  lemma CloseIsFinal(format: LogFormat, append: bool, s: LoggerState, status: int, stamp: string, now: nat,
                     stream: LogStream, data: string, now': nat, status': int, stamp': string,
                     existing: string, info: SessionInfo)
    requires Consistent(format, s) && s.initialized
    ensures var t := CloseStep(format, s, status, stamp, now);
            && LogDataStep(format, t, stream, data, now') == (t, Err(NotInitialized))
            && CloseStep(format, t, status', stamp', now') == t
            && Start(format, append, t, existing, stamp', info, now') == t
            && (format == TimingMulti ==> LogSignalStep(format, t, data, None, now') == (t, Err(NotInitialized)))
            && (format == TimingMulti ==> LogInfoStep(format, t, data, data) == (t, Err(NotInitialized)))
  {
  }

  /** A logger that was never started writes nothing and reports the missing writer. */
  lemma UnstartedLoggerRefusesData(format: LogFormat, stream: LogStream, data: string, now: nat)
    ensures LogDataStep(format, Created, stream, data, now) == (Created, Err(NotInitialized))
    ensures CloseStep(format, Created, 0, "", now) == Created
  {
  }

  // ---------------------------------------------------------------------------
  // A series of `log_data` calls

  /** Regrouping an append, stated once so the induction steps below can call it. */
  lemma AppendIsAssociative(a: string, b: string, c: string)
    ensures a + b + c == a + (b + c)
  {
  }

  /** The empty file before a timing log's first record. */
  lemma EmptyPrefix(a: string)
    ensures "" + a == a
  {
  }

  /** The chunks one after the other. */
  function Concat(chunks: seq<string>): string {
    if chunks == [] then "" else Concat(chunks[..|chunks| - 1]) + chunks[|chunks| - 1]
  }

  /** The state after `log_data` has been called with each chunk in turn, the i-th
      chunk at clock reading `nows[i]`. */
  function LogAll(format: LogFormat, s: LoggerState, stream: LogStream, chunks: seq<string>, nows: seq<nat>)
    : LoggerState
    requires |chunks| == |nows|
  {
    if chunks == [] then s
    else
      var n := |chunks| - 1;
      LogDataStep(format, LogAll(format, s, stream, chunks[..n], nows[..n]), stream, chunks[n], nows[n]).0
  }

  /** The last call of a series is applied to the state the earlier calls left. */
  lemma LogAllLast(format: LogFormat, s: LoggerState, stream: LogStream, chunks: seq<string>, nows: seq<nat>)
    requires |chunks| == |nows| > 0
    ensures var n := |chunks| - 1;
            LogAll(format, s, stream, chunks, nows)
            == LogDataStep(format, LogAll(format, s, stream, chunks[..n], nows[..n]), stream, chunks[n], nows[n]).0
  {
  }

  /** One Raw `log_data` call on an open logger appends the chunk and nothing else. */
  lemma RawStep(p: LoggerState, stream: LogStream, data: string, now: nat)
    requires p.isOpen
    ensures LogDataStep(Raw, p, stream, data, now).0 == p.(file := p.file + data)
  {
  }

  /** In Raw format every chunk is appended verbatim, in call order. */
  lemma {:induction false} RawLogAppendsChunks(s: LoggerState, stream: LogStream, chunks: seq<string>, nows: seq<nat>)
    requires |chunks| == |nows| && s.isOpen
    ensures LogAll(Raw, s, stream, chunks, nows) == s.(file := s.file + Concat(chunks))
  {
    if chunks != [] {
      var n := |chunks| - 1;
      RawLogAppendsChunks(s, stream, chunks[..n], nows[..n]);
      LogAllLast(Raw, s, stream, chunks, nows);
      RawStep(LogAll(Raw, s, stream, chunks[..n], nows[..n]), stream, chunks[n], nows[n]);
      AppendIsAssociative(s.file, Concat(chunks[..n]), chunks[n]);
    }
  }

  /** A Raw logger just started holds what it held before when appending (nothing
      otherwise) and the header. */
  lemma RawStart(append: bool, existing: string, stamp: string, info: SessionInfo, now: nat)
    ensures var started := Start(Raw, append, Created, existing, stamp, info, now);
            started.isOpen && started.file == (if append then existing else "") + RawHeader(stamp, info)
  {
  }

  /** A whole Raw session: the file holds what it held before when appending (nothing
      otherwise), the header, every chunk in order and the trailer. */
  lemma RawSessionLog(append: bool, existing: string, stamp: string, info: SessionInfo, now: nat,
                      stream: LogStream, chunks: seq<string>, nows: seq<nat>,
                      status: int, stamp': string, now': nat)
    requires |chunks| == |nows|
    ensures var started := Start(Raw, append, Created, existing, stamp, info, now);
            CloseStep(Raw, LogAll(Raw, started, stream, chunks, nows), status, stamp', now').file
            == (if append then existing else "") + RawHeader(stamp, info) + Concat(chunks) + RawTrailer(stamp', status)
  {
    var started := Start(Raw, append, Created, existing, stamp, info, now);
    RawStart(append, existing, stamp, info, now);
    RawLogAppendsChunks(started, stream, chunks, nows);
  }

  /** The clock reading a record's delta is measured from: the previous record's, or
      `last` for the first. */
  function Previous(last: nat, nows: seq<nat>, i: nat): nat
    requires i <= |nows|
  {
    if i == 0 then last else nows[i - 1]
  }

  lemma PreviousOfPrefix(last: nat, nows: seq<nat>, n: nat)
    requires n < |nows|
    ensures Previous(last, nows[..n], n) == Previous(last, nows, n)
  {
  }

  /** The delta of each record of a timing log whose previous reading was `last`. */
  function Deltas(last: nat, nows: seq<nat>): (ds: seq<nat>)
    ensures |ds| == |nows|
  {
    seq(|nows|, i requires 0 <= i < |nows| => Elapsed(Some(Previous(last, nows, i)), nows[i]))
  }

  /** The records a timing logger writes for the chunks, the first measured from `last`. */
  function TimingRecords(format: LogFormat, stream: LogStream, last: nat, chunks: seq<string>, nows: seq<nat>)
    : string
    requires |chunks| == |nows|
  {
    if chunks == [] then ""
    else
      var n := |chunks| - 1;
      TimingRecords(format, stream, last, chunks[..n], nows[..n])
      + DataRecord(format, stream, Elapsed(Some(Previous(last, nows, n)), nows[n]), |chunks[n]|)
  }

  /** One timing `log_data` call on an open logger appends one record, measured from
      the last reading, and remembers the new reading. */
  lemma TimingStep(format: LogFormat, p: LoggerState, stream: LogStream, data: string, now: nat)
    requires format != Raw && p.isOpen
    ensures LogDataStep(format, p, stream, data, now).0
            == p.(file := p.file + DataRecord(format, stream, Elapsed(p.lastTime, now), |data|), lastTime := Some(now))
  {
  }

  /** In a timing format every chunk adds one record, and the last clock reading is
      remembered for the next. */
  lemma {:induction false} TimingLogAppendsRecords(format: LogFormat, s: LoggerState, stream: LogStream,
                                                   chunks: seq<string>, nows: seq<nat>)
    requires format != Raw && |chunks| == |nows| && s.isOpen && s.lastTime.Some?
    ensures var t := LogAll(format, s, stream, chunks, nows);
            && t.file == s.file + TimingRecords(format, stream, s.lastTime.value, chunks, nows)
            && t.lastTime == Some(Previous(s.lastTime.value, nows, |nows|))
            && t.isOpen
  {
    if chunks != [] {
      var n := |chunks| - 1;
      var last := s.lastTime.value;
      TimingLogAppendsRecords(format, s, stream, chunks[..n], nows[..n]);
      PreviousOfPrefix(last, nows, n);
      LogAllLast(format, s, stream, chunks, nows);
      TimingStep(format, LogAll(format, s, stream, chunks[..n], nows[..n]), stream, chunks[n], nows[n]);
      AppendIsAssociative(s.file, TimingRecords(format, stream, last, chunks[..n], nows[..n]),
                          DataRecord(format, stream, Elapsed(Some(Previous(last, nows, n)), nows[n]), |chunks[n]|));
    }
  }

  /** A timing logger just started has an empty file and both readings at the start. */
  lemma TimingStart(format: LogFormat, append: bool, existing: string, stamp: string, info: SessionInfo, now: nat)
    requires format != Raw
    ensures var started := Start(format, append, Created, existing, stamp, info, now);
            started.isOpen && started.file == "" && started.lastTime == Some(now)
  {
  }

  /** A whole timing session: the file is truncated at the start and then holds one
      record per chunk, the first measured from the start. */
  lemma TimingSessionLog(format: LogFormat, append: bool, existing: string, stamp: string, info: SessionInfo,
                         now: nat, stream: LogStream, chunks: seq<string>, nows: seq<nat>)
    requires format != Raw && |chunks| == |nows|
    ensures var started := Start(format, append, Created, existing, stamp, info, now);
            LogAll(format, started, stream, chunks, nows).file == TimingRecords(format, stream, now, chunks, nows)
  {
    var started := Start(format, append, Created, existing, stamp, info, now);
    TimingStart(format, append, existing, stamp, info, now);
    TimingLogAppendsRecords(format, started, stream, chunks, nows);
    EmptyPrefix(TimingRecords(format, stream, now, chunks, nows));
  }

  // ---------------------------------------------------------------------------
  // Deltas

  function Sum(xs: seq<nat>): nat {
    if xs == [] then 0 else Sum(xs[..|xs| - 1]) + xs[|xs| - 1]
  }

  /** The clock readings never go back, starting from `last`. */
  predicate Monotone(last: nat, nows: seq<nat>) {
    forall i :: 0 <= i < |nows| ==> Previous(last, nows, i) <= nows[i]
  }

  /** With a clock that never goes back, the deltas of a timing log add up to the time
      from the first reading to the last: no time is lost or counted twice. */
  lemma {:induction false} DeltasAddUp(last: nat, nows: seq<nat>)
    requires Monotone(last, nows)
    ensures Sum(Deltas(last, nows)) + last == Previous(last, nows, |nows|)
  {
    if nows != [] {
      var n := |nows| - 1;
      assert Monotone(last, nows[..n]) by {
        forall i | 0 <= i < n ensures Previous(last, nows[..n], i) <= nows[..n][i] {
          assert Previous(last, nows[..n], i) == Previous(last, nows, i);
        }
      }
      DeltasAddUp(last, nows[..n]);
      assert Deltas(last, nows)[..n] == Deltas(last, nows[..n]);
      assert Previous(last, nows[..n], n) == Previous(last, nows, n);
    }
  }
}
