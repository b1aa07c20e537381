/** Reading a timing log back. The records `log_data` writes in the two timing
    formats of `src/logging.rs` can be parsed again line by line, and parsing the log
    of a session gives back, for every chunk, its delta and its length (and, in the
    multi-stream format, its direction). This is the partner of the record format:
    it shows the records are unambiguous and lose nothing a replay needs. */
module Replay {
  import opened Results
  import opened Decimal
  import opened Logging
  import opened LogProperties

  // ---------------------------------------------------------------------------
  // Splitting text

  /** The text before the first `sep` and the text after it. */
  function SplitAt(s: string, sep: char): (r: Option<(string, string)>)
    ensures r.None? <==> sep !in s
    ensures r.Some? ==> s == r.value.0 + [sep] + r.value.1 && sep !in r.value.0
  {
    if s == [] then None
    else if s[0] == sep then
      assert s == [] + [sep] + s[1..];
      Some(([], s[1..]))
    else
      match SplitAt(s[1..], sep)
      case None => None
      case Some((a, b)) =>
        assert s == [s[0]] + s[1..];
        Some(([s[0]] + a, b))
  }

  /** Splitting at the first separator undoes joining with it. */
  lemma {:induction false} SplitAtJoin(a: string, b: string, sep: char)
    requires sep !in a
    ensures SplitAt(a + [sep] + b, sep) == Some((a, b))
  {
    var s := a + [sep] + b;
    if a != [] {
      assert s[0] == a[0] && s[1..] == a[1..] + [sep] + b;
      SplitAtJoin(a[1..], b, sep);
      assert [a[0]] + a[1..] == a;
    } else {
      assert s[1..] == b;
    }
  }

  /** The lines of a text; a last line without a line break is kept. */
  function Lines(s: string): seq<string>
    decreases |s|
  {
    match SplitAt(s, '\n')
    case None => if s == [] then [] else [s]
    case Some((line, rest)) => [line] + Lines(rest)
  }

  /** Text made of whole lines: empty, or ending in a line break. */
  predicate Terminated(s: string) {
    s == [] || s[|s| - 1] == '\n'
  }

  lemma {:induction false} LinesAppend(x: string, y: string)
    requires Terminated(x)
    ensures Lines(x + y) == Lines(x) + Lines(y)
    decreases |x|
  {
    if x == [] {
      assert x + y == y;
    } else {
      assert '\n' in x by { assert x[|x| - 1] == '\n'; }
      var (line, rest) := SplitAt(x, '\n').value;
      assert x + y == line + ['\n'] + (rest + y);
      SplitAtJoin(line, rest + y, '\n');
      assert Terminated(rest) by {
        if rest != [] { assert rest[|rest| - 1] == x[|x| - 1]; }
      }
      LinesAppend(rest, y);
    }
  }

  lemma LinesOfLine(body: string)
    requires '\n' !in body
    ensures Lines(body + "\n") == [body]
  {
    SplitAtJoin(body, [], '\n');
    assert body + "\n" == body + ['\n'] + [];
  }

  // ---------------------------------------------------------------------------
  // Parsing records

  /** Seconds with six decimals, read back in microseconds. */
  function ParseDelta(t: string): Option<nat> {
    match SplitAt(t, '.')
    case None => None
    case Some((whole, frac)) => DeltaOfParts(whole, frac)
  }

  /** The seconds and the six-digit fraction on either side of the point. */
  function DeltaOfParts(whole: string, frac: string): Option<nat> {
    if |whole| > 0 && AllDigits(whole) && |frac| == 6 && AllDigits(frac)
    then Some(Value(whole) * 1000000 + Value(frac))
    else None
  }

  /** One parsed data record: its direction when it carries one, its delta and the
      length of the chunk it stands for. */
  datatype Entry = Entry(stream: Option<LogStream>, delta: nat, len: nat)

  /** `<delta> <len>`. */
  function ParseTimes(line: string): Option<(nat, nat)> {
    match SplitAt(line, ' ')
    case None => None
    case Some((d, n)) =>
      match ParseDelta(d)
      case None => None
      case Some(delta) => if |n| > 0 && AllDigits(n) then Some((delta, Value(n))) else None
  }

  /** A data record of either timing format, without its line break. */
  function ParseEntry(line: string): Option<Entry> {
    if |line| >= 2 && line[1] == ' ' && (line[0] == 'I' || line[0] == 'O') then
      var stream := if line[0] == 'I' then Input else Output;
      match ParseTimes(line[2..])
      case None => None
      case Some((d, n)) => Some(Entry(Some(stream), d, n))
    else
      match ParseTimes(line)
      case None => None
      case Some((d, n)) => Some(Entry(None, d, n))
  }

  /** Every line parsed, or nothing if one of them is not a data record. */
  function ParseEntries(lines: seq<string>): Option<seq<Entry>> {
    if lines == [] then Some([])
    else
      match ParseEntries(lines[..|lines| - 1])
      case None => None
      case Some(es) =>
        match ParseEntry(lines[|lines| - 1])
        case None => None
        case Some(e) => Some(es + [e])
  }

  /** One parsed signal record: its delta, the signal's name and the message. */
  datatype Signal = Signal(delta: nat, name: string, message: Option<string>)

  /** `S <delta> <name>`, then ` <message>` when there is one; the name ends at the
      first space after the delta. */
  function ParseSignal(line: string): Option<Signal> {
    if |line| >= 2 && line[..2] == "S " then
      match SplitAt(line[2..], ' ')
      case None => None
      case Some((d, rest)) =>
        match ParseDelta(d)
        case None => None
        case Some(delta) => Some(SignalOf(delta, rest))
    else None
  }

  /** The name and the message after the delta of a signal record. */
  function SignalOf(delta: nat, rest: string): Signal {
    match SplitAt(rest, ' ')
    case None => Signal(delta, rest, None)
    case Some((name, m)) => Signal(delta, name, Some(m))
  }

  // ---------------------------------------------------------------------------
  // Round trips

  lemma {:induction false} ValueOfPad(x: nat, width: nat)
    requires x < Pow10(width)
    ensures Value(Pad(x, width)) == x
  {
    if width > 0 {
      var p := Pad(x, width);
      assert p[..|p| - 1] == Pad(x / 10, width - 1);
      ValueOfPad(x / 10, width - 1);
    }
  }

  /** The scale of the six-digit fraction. */
  lemma Pow10Of6()
    ensures Pow10(6) == 1000000
  {
  }

  /** The rendering of a delta reads back as the same number of microseconds. */
  lemma ParseDeltaOfFmtDelta(micros: nat)
    ensures ParseDelta(FmtDelta(micros)) == Some(micros)
  {
    ParseDeltaOfParts(FmtDelta(micros), Show(micros / 1000000), Pad(micros % 1000000, 6));
    FmtDeltaValue(micros);
  }

  /** The two parts of a formatted delta read back as the microseconds. */
  lemma FmtDeltaValue(micros: nat)
    ensures Value(Show(micros / 1000000)) * 1000000 + Value(Pad(micros % 1000000, 6)) == micros
  {
    ValueOfShow(micros / 1000000);
    Pow10Of6();
    ValueOfPad(micros % 1000000, 6);
  }

  lemma ParseDeltaOfParts(t: string, whole: string, frac: string)
    requires t == whole + ['.'] + frac
    requires |whole| > 0 && AllDigits(whole) && |frac| == 6 && AllDigits(frac)
    ensures ParseDelta(t) == Some(Value(whole) * 1000000 + Value(frac))
  {
    NoDotInDigits(whole);
    SplitAtJoin(whole, frac, '.');
    ParseDeltaOfSplit(t, whole, frac);
  }

  lemma NoDotInDigits(s: string)
    requires AllDigits(s)
    ensures '.' !in s
  {
    forall i | 0 <= i < |s|
      ensures s[i] != '.'
    {
      assert IsDigit(s[i]);
    }
  }

  lemma ParseDeltaOfSplit(t: string, whole: string, frac: string)
    requires |whole| > 0 && AllDigits(whole) && |frac| == 6 && AllDigits(frac)
    requires SplitAt(t, '.') == Some((whole, frac))
    ensures ParseDelta(t) == Some(Value(whole) * 1000000 + Value(frac))
  {
    assert ParseDelta(t) == DeltaOfParts(whole, frac);
  }

  lemma ParseTimesOfRecord(delta: nat, len: nat)
    ensures ParseTimes(FmtDelta(delta) + " " + Show(len)) == Some((delta, len))
  {
    SplitAtJoin(FmtDelta(delta), Show(len), ' ');
    assert FmtDelta(delta) + " " + Show(len) == FmtDelta(delta) + [' '] + Show(len);
    ParseDeltaOfFmtDelta(delta);
    ValueOfShow(len);
  }

  /** What the record of a chunk parses to in each timing format. */
  function EntryOf(format: LogFormat, stream: LogStream, delta: nat, len: nat): Entry {
    Entry(if format == TimingMulti then Some(stream) else None, delta, len)
  }

  /** Every data record parses back to its direction (multi-stream format only), its
      delta and its length. */
  lemma ParseEntryOfRecord(format: LogFormat, stream: LogStream, delta: nat, len: nat)
    requires format != Raw
    ensures ParseEntry(RecordBody(format, stream, delta, len)) == Some(EntryOf(format, stream, delta, len))
  {
    ParseTimesOfRecord(delta, len);
    if format == TimingMulti {
      ParseEntryOfMultiRecord(stream, delta, len);
    } else {
      ParseEntryOfSimpleRecord(delta, len);
    }
  }

  lemma ParseEntryOfMultiRecord(stream: LogStream, delta: nat, len: nat)
    requires ParseTimes(FmtDelta(delta) + " " + Show(len)) == Some((delta, len))
    ensures ParseEntry(RecordBody(TimingMulti, stream, delta, len)) == Some(Entry(Some(stream), delta, len))
  {
    var times := FmtDelta(delta) + " " + Show(len);
    Regroup([StreamChar(stream), ' '], FmtDelta(delta), " ", Show(len));
    ParseEntryOfTagged(stream, times, delta, len);
  }

  lemma ParseEntryOfSimpleRecord(delta: nat, len: nat)
    requires ParseTimes(FmtDelta(delta) + " " + Show(len)) == Some((delta, len))
    ensures ParseEntry(RecordBody(TimingSimple, Input, delta, len)) == Some(Entry(None, delta, len))
  {
    var whole := Show(delta / 1000000);
    assert IsDigit(whole[0]);
    Regroup(whole, "." + Pad(delta % 1000000, 6), " ", Show(len));
    assert "" + FmtDelta(delta) == FmtDelta(delta);
    ParseEntryOfUntagged(FmtDelta(delta) + " " + Show(len), delta, len);
  }

  /** Regrouping a record's four parts, and its first character. */
  lemma Regroup(a: string, b: string, c: string, d: string)
    ensures a + b + c + d == a + (b + c + d)
    ensures |a| > 0 ==> (a + b + c + d)[0] == a[0]
  {
  }

  /** A record with a direction tag. */
  lemma ParseEntryOfTagged(stream: LogStream, times: string, delta: nat, len: nat)
    requires ParseTimes(times) == Some((delta, len))
    ensures ParseEntry([StreamChar(stream), ' '] + times) == Some(Entry(Some(stream), delta, len))
  {
    assert ([StreamChar(stream), ' '] + times)[2..] == times;
  }

  /** A record without one: it starts with a digit. */
  lemma ParseEntryOfUntagged(times: string, delta: nat, len: nat)
    requires |times| > 0 && IsDigit(times[0]) && ParseTimes(times) == Some((delta, len))
    ensures ParseEntry(times) == Some(Entry(None, delta, len))
  {
  }

  /** Every signal record whose name has no space parses back to its delta, its
      name and its message. */
  lemma ParseSignalOfRecord(delta: nat, name: string, message: Option<string>)
    requires ' ' !in name
    ensures ParseSignal(SignalBody(delta, name, message)) == Some(Signal(delta, name, message))
  {
    var tail := match message case Some(m) => " " + m case None => "";
    var rest := name + tail;
    var line := SignalBody(delta, name, message);
    assert line == "S " + (FmtDelta(delta) + [' '] + rest);
    ParseSignalOfParts(line, FmtDelta(delta), rest, delta);
    SignalOfRest(delta, name, message, rest);
  }

  /** After `S `, the delta up to the first space. */
  lemma ParseSignalOfParts(line: string, d: string, rest: string, delta: nat)
    requires line == "S " + (d + [' '] + rest) && d == FmtDelta(delta)
    ensures ParseSignal(line) == Some(SignalOf(delta, rest))
  {
    assert line[..2] == "S " && line[2..] == d + [' '] + rest;
    SplitAtJoin(d, rest, ' ');
    ParseDeltaOfFmtDelta(delta);
  }

  /** After the delta, the name up to the next space, and the message after it. */
  lemma SignalOfRest(delta: nat, name: string, message: Option<string>, rest: string)
    requires ' ' !in name
    requires rest == name + match message case Some(m) => " " + m case None => ""
    ensures SignalOf(delta, rest) == Signal(delta, name, message)
  {
    match message
    case None =>
      assert rest == name;
    case Some(m) =>
      assert rest == name + [' '] + m;
      SplitAtJoin(name, m, ' ');
  }

  /** The entries a timing log of the chunks should read back as. */
  function Entries(format: LogFormat, stream: LogStream, last: nat, chunks: seq<string>, nows: seq<nat>)
    : (es: seq<Entry>)
    requires |chunks| == |nows|
    ensures |es| == |chunks|
  {
    seq(|chunks|, i requires 0 <= i < |chunks| => EntryOf(format, stream, Deltas(last, nows)[i], |chunks[i]|))
  }

  lemma {:induction false} TimingRecordsAreLines(format: LogFormat, stream: LogStream, last: nat,
                                                 chunks: seq<string>, nows: seq<nat>)
    requires |chunks| == |nows|
    ensures Terminated(TimingRecords(format, stream, last, chunks, nows))
  {
    if chunks != [] {
      var n := |chunks| - 1;
      var record := DataRecord(format, stream, Elapsed(Some(Previous(last, nows, n)), nows[n]), |chunks[n]|);
      var all := TimingRecords(format, stream, last, chunks, nows);
      assert all[|all| - 1] == record[|record| - 1];
    }
  }

  /** The last record of a timing log is its last line. */
  lemma LinesOfTimingRecords(format: LogFormat, stream: LogStream, last: nat, chunks: seq<string>, nows: seq<nat>)
    requires |chunks| == |nows| && chunks != []
    ensures var n := |chunks| - 1;
            Lines(TimingRecords(format, stream, last, chunks, nows))
            == Lines(TimingRecords(format, stream, last, chunks[..n], nows[..n]))
               + [RecordBody(format, stream, Elapsed(Some(Previous(last, nows, n)), nows[n]), |chunks[n]|)]
  {
    var n := |chunks| - 1;
    var before := TimingRecords(format, stream, last, chunks[..n], nows[..n]);
    var body := RecordBody(format, stream, Elapsed(Some(Previous(last, nows, n)), nows[n]), |chunks[n]|);
    TimingRecordsAreLines(format, stream, last, chunks[..n], nows[..n]);
    LinesAppend(before, body + "\n");
    LinesOfLine(body);
  }

  lemma EntriesOfPrefix(format: LogFormat, stream: LogStream, last: nat, chunks: seq<string>, nows: seq<nat>)
    requires |chunks| == |nows| && chunks != []
    ensures var n := |chunks| - 1;
            Entries(format, stream, last, chunks, nows)
            == Entries(format, stream, last, chunks[..n], nows[..n])
               + [EntryOf(format, stream, Elapsed(Some(Previous(last, nows, n)), nows[n]), |chunks[n]|)]
  {
    var n := |chunks| - 1;
    var es := Entries(format, stream, last, chunks, nows);
    var x := EntryOf(format, stream, Deltas(last, nows)[n], |chunks[n]|);
    EntriesFront(format, stream, last, chunks, nows);
    SnocEquals(es, Entries(format, stream, last, chunks[..n], nows[..n]), x);
  }

  lemma EntriesFront(format: LogFormat, stream: LogStream, last: nat, chunks: seq<string>, nows: seq<nat>)
    requires |chunks| == |nows| && chunks != []
    ensures var n := |chunks| - 1;
            forall i :: 0 <= i < n ==>
              Entries(format, stream, last, chunks, nows)[i] == Entries(format, stream, last, chunks[..n], nows[..n])[i]
  {
    var n := |chunks| - 1;
    forall i | 0 <= i < n
      ensures Entries(format, stream, last, chunks, nows)[i] == Entries(format, stream, last, chunks[..n], nows[..n])[i]
    {
      assert Previous(last, nows[..n], i) == Previous(last, nows, i);
    }
  }

  /** A sequence that agrees with `front` and ends in `x` is `front + [x]`. */
  lemma SnocEquals<T>(es: seq<T>, front: seq<T>, x: T)
    requires |es| == |front| + 1 && es[|front|] == x
    requires forall i :: 0 <= i < |front| ==> es[i] == front[i]
    ensures es == front + [x]
  {
    assert forall i :: 0 <= i < |es| ==> es[i] == (front + [x])[i];
  }

  lemma ParseEntriesSnoc(lines: seq<string>, line: string)
    ensures ParseEntries(lines + [line])
            == match ParseEntries(lines)
               case None => None
               case Some(es) => match ParseEntry(line) case None => None case Some(e) => Some(es + [e])
  {
    assert (lines + [line])[..|lines|] == lines;
  }

  /** A timing log parses back, record by record, to the delta and length of every
      chunk logged, in order. */
  lemma {:induction false} ReplayTimingRecords(format: LogFormat, stream: LogStream, last: nat,
                                               chunks: seq<string>, nows: seq<nat>)
    requires format != Raw && |chunks| == |nows|
    ensures ParseEntries(Lines(TimingRecords(format, stream, last, chunks, nows)))
            == Some(Entries(format, stream, last, chunks, nows))
  {
    if chunks == [] {
      assert Lines([]) == [];
    } else {
      var n := |chunks| - 1;
      var delta := Elapsed(Some(Previous(last, nows, n)), nows[n]);
      var body := RecordBody(format, stream, delta, |chunks[n]|);
      ReplayTimingRecords(format, stream, last, chunks[..n], nows[..n]);
      LinesOfTimingRecords(format, stream, last, chunks, nows);
      ParseEntriesSnoc(Lines(TimingRecords(format, stream, last, chunks[..n], nows[..n])), body);
      ParseEntryOfRecord(format, stream, delta, |chunks[n]|);
      EntriesOfPrefix(format, stream, last, chunks, nows);
    }
  }

  /** The lengths in the timing log of a whole session are the lengths of the chunks,
      and, with a clock that never goes back, its deltas add up to the time from the
      start to the last chunk. */
  lemma ReplayTimingSession(format: LogFormat, append: bool, existing: string, stamp: string,
                            info: SessionInfo, now: nat, stream: LogStream,
                            chunks: seq<string>, nows: seq<nat>)
    requires format != Raw && |chunks| == |nows| && Monotone(now, nows)
    ensures var file := LogAll(format, Start(format, append, Created, existing, stamp, info, now), stream, chunks, nows).file;
            && ParseEntries(Lines(file)) == Some(Entries(format, stream, now, chunks, nows))
            && Sum(Deltas(now, nows)) + now == Previous(now, nows, |nows|)
  {
    TimingSessionLog(format, append, existing, stamp, info, now, stream, chunks, nows);
    ReplayTimingRecords(format, stream, now, chunks, nows);
    DeltasAddUp(now, nows);
  }
}
