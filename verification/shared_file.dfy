/** What reaches the disk when two loggers of `src/script_control.rs` write one path.
    With a timing file and both directions logged, `setup_logging` associates an
    output and an input timing logger with the same path, and `start_logging`
    starts both. Each `start_with_data` opens the path itself with truncation and
    without append (`src/logging.rs`), so each logger writes through its own file
    handle, from its own offset. A record then lands where that logger's previous
    record ended, over whatever the other logger wrote there. In the multi-stream
    format the output timing logger is also the information log, so the `H` records
    of `start_logging` go through the output handle before any data. */
module SharedFile {
  import opened Decimal
  import opened Logging

  /** `data` written over `disk` from `offset`, as a write through a file handle
      positioned there does; the file grows when the write runs past its end. */
  function WriteAt(disk: string, offset: nat, data: string): (r: string)
    requires offset <= |disk|
    ensures |r| == if offset + |data| > |disk| then offset + |data| else |disk|
    ensures r[..offset] == disk[..offset] && r[offset..offset + |data|] == data
    ensures forall i :: offset + |data| <= i < |disk| ==> r[i] == disk[i]
  {
    disk[..offset] + data + if offset + |data| < |disk| then disk[offset + |data|..] else []
  }

  /** The file and the offsets of the output and the input logger's handles. */
  datatype Handles = Handles(disk: string, outOffset: nat, inOffset: nat)

  predicate Positioned(h: Handles) {
    h.outOffset <= |h.disk| && h.inOffset <= |h.disk|
  }

  /** Both loggers started: each `open` truncated the file, each handle is at 0.
      This is where the data records start in the classic format. */
  const Started: Handles := Handles("", 0, 0)

  /** Both loggers started, then the information records `info` written through the
      output handle: where the data records start in the multi-stream format. */
  function AfterInfo(info: string): (h: Handles)
    ensures Positioned(h) && h.disk == info && h.inOffset == 0
  {
    Handles(info, |info|, 0)
  }

  /** One record, written through the output or the input logger's own handle. */
  function WriteThrough(h: Handles, fromOutput: bool, record: string): (r: Handles)
    requires Positioned(h)
    ensures Positioned(r)
  {
    if fromOutput then Handles(WriteAt(h.disk, h.outOffset, record), h.outOffset + |record|, h.inOffset)
    else Handles(WriteAt(h.disk, h.inOffset, record), h.outOffset, h.inOffset + |record|)
  }

  /** The file after the records, in the order they were written, each through the
      handle of the logger that wrote it, from `start`: the code as written. */
  function Separate(start: Handles, writes: seq<(bool, string)>): (h: Handles)
    requires Positioned(start)
    ensures Positioned(h)
  {
    if writes == [] then start
    else
      var n := |writes| - 1;
      WriteThrough(Separate(start, writes[..n]), writes[n].0, writes[n].1)
  }

  /** The file after the same records written after `start` through one writer
      shared by both directions (or handles opened for appending): what the
      multi-stream format, whose records carry their direction, is evidently meant
      to produce. */
  function Shared(start: string, writes: seq<(bool, string)>): string {
    if writes == [] then start
    else
      var n := |writes| - 1;
      Shared(start, writes[..n]) + writes[n].1
  }

  /** With one shared writer the text written first is kept, and every record is in
      the file, whole, right after the records written before it. */
  lemma SharedKeepsEveryRecord(start: string, writes: seq<(bool, string)>)
    ensures RecordAt(Shared(start, writes), 0, start)
    ensures forall i :: 0 <= i < |writes| ==> RecordAt(Shared(start, writes), |Shared(start, writes[..i])|, writes[i].1)
  {
    SharedKeepsStart(start, writes);
    forall i | 0 <= i < |writes| ensures RecordAt(Shared(start, writes), |Shared(start, writes[..i])|, writes[i].1) {
      SharedKeepsRecord(start, writes, i);
    }
  }

  /** `record` is found in `file` from `at`. */
  predicate RecordAt(file: string, at: nat, record: string) {
    at + |record| <= |file| && file[at..at + |record|] == record
  }

  lemma {:induction false} SharedKeepsStart(start: string, writes: seq<(bool, string)>)
    ensures RecordAt(Shared(start, writes), 0, start)
  {
    if writes == [] {
      assert start[0..|start|] == start;
    } else {
      var n := |writes| - 1;
      SharedKeepsStart(start, writes[..n]);
      RecordInPrefix(Shared(start, writes[..n]), writes[n].1, 0, start);
    }
  }

  lemma {:induction false} SharedKeepsRecord(start: string, writes: seq<(bool, string)>, i: nat)
    requires i < |writes|
    ensures RecordAt(Shared(start, writes), |Shared(start, writes[..i])|, writes[i].1)
  {
    var n := |writes| - 1;
    var front := writes[..n];
    assert Shared(start, writes) == Shared(start, front) + writes[n].1;
    if i < n {
      SharedKeepsRecord(start, front, i);
      assert writes[..i] == front[..i] && writes[i] == front[i];
      RecordInPrefix(Shared(start, front), writes[n].1, |Shared(start, front[..i])|, writes[i].1);
    } else {
      assert writes[..i] == front;
      assert (Shared(start, front) + writes[n].1)[|Shared(start, front)|..] == writes[n].1;
    }
  }

  /** A piece of a text is still there once more text follows it. */
  lemma RecordInPrefix(file: string, more: string, at: nat, record: string)
    requires RecordAt(file, at, record)
    ensures RecordAt(file + more, at, record)
  {
    assert (file + more)[..|file|] == file;
  }

  /** As written, from the started file, a record of one logger followed by a record
      of the other that is at least as long leaves only the second on disk. */
  lemma SeparateHandlesOverwrite(firstFromOutput: bool, first: string, second: string)
    requires |first| <= |second|
    ensures Separate(Started, [(firstFromOutput, first), (!firstFromOutput, second)]).disk == second
    ensures Shared("", [(firstFromOutput, first), (!firstFromOutput, second)]) == first + second
  {
    var writes := [(firstFromOutput, first), (!firstFromOutput, second)];
    assert writes[..1] == [(firstFromOutput, first)] && writes[..1][..0] == [];
    assert Separate(Started, writes[..1]).disk == first;
    assert Shared("", writes[..1]) == "" + first == first;
  }

  /** The classic format (`-m classic` with both directions and a timing file): a
      typed chunk is logged to the input logger, then its echo, with the same delay
      and length, to the output logger. The two records are the same line, and as
      written the file holds it once, where two records were written. */
  lemma ClassicEchoLosesRecord(delta: nat, len: nat)
    ensures var i, o := DataRecord(TimingSimple, Input, delta, len), DataRecord(TimingSimple, Output, delta, len);
            && i == o
            && Separate(Started, [(false, i), (true, o)]).disk == o
            && Shared("", [(false, i), (true, o)]) == i + o
  {
    var i, o := DataRecord(TimingSimple, Input, delta, len), DataRecord(TimingSimple, Output, delta, len);
    SeparateHandlesOverwrite(false, i, o);
  }

  /** The multi-stream format: the information records `info`, the first of them the
      `START_TIME` record, went through the output handle. A typed chunk's input
      record, no longer than `info`, then lands at offset 0, over the `START_TIME`
      record, and the echo's output record after `info`. Both data records are on
      disk, but the header is damaged; one writer would keep the header and both. */
  lemma AdvancedEchoOverwritesInfo(delta: nat, len: nat, stamp: string, rest: string)
    requires |DataRecord(TimingMulti, Input, delta, len)| <= |InfoRecord("START_TIME", stamp) + rest|
    ensures var info := InfoRecord("START_TIME", stamp) + rest;
            var i, o := DataRecord(TimingMulti, Input, delta, len), DataRecord(TimingMulti, Output, delta, len);
            var disk := Separate(AfterInfo(info), [(false, i), (true, o)]).disk;
            && disk == i + info[|i|..] + o
            && RecordAt(disk, 0, i) && RecordAt(disk, |info|, o)
            && !RecordAt(disk, 0, InfoRecord("START_TIME", stamp))
            && Shared(info, [(false, i), (true, o)]) == info + i + o
  {
    var info := InfoRecord("START_TIME", stamp) + rest;
    var i, o := DataRecord(TimingMulti, Input, delta, len), DataRecord(TimingMulti, Output, delta, len);
    assert i[0] == 'I' && InfoRecord("START_TIME", stamp)[0] == 'H';
    InputFirstOverInfo(info, i, o, InfoRecord("START_TIME", stamp));
  }

  /** The two writes of `AdvancedEchoOverwritesInfo`, over any texts: `first` goes
      through the input handle at 0 over `info`, `second` through the output handle
      after `info`, and a leading piece of `info` that `first` starts differently
      from is gone. */
  lemma InputFirstOverInfo(info: string, first: string, second: string, lead: string)
    requires |first| <= |info| && |first| > 0 && |lead| > 0 && first[0] != lead[0]
    ensures var disk := Separate(AfterInfo(info), [(false, first), (true, second)]).disk;
            && disk == first + info[|first|..] + second
            && RecordAt(disk, 0, first) && RecordAt(disk, |info|, second)
            && !RecordAt(disk, 0, lead)
            && Shared(info, [(false, first), (true, second)]) == info + first + second
  {
    var writes := [(false, first), (true, second)];
    SeparateTwo(AfterInfo(info), writes);
    SharedTwo(info, writes);
    var h1 := InputOverInfo(info, first);
    OutputAtEnd(h1, second);
    TextsInPlace(info, first, second, lead);
  }

  /** The first input write, from offset 0 of `info`. */
  lemma InputOverInfo(info: string, first: string) returns (h1: Handles)
    requires |first| <= |info|
    ensures h1 == WriteThrough(AfterInfo(info), false, first)
    ensures h1 == Handles(first + info[|first|..], |info|, |first|)
  {
    h1 := WriteThrough(AfterInfo(info), false, first);
    WriteOverStart(info, first);
  }

  /** An output write with the output handle at the end of the file. */
  lemma OutputAtEnd(h: Handles, data: string)
    requires Positioned(h) && h.outOffset == |h.disk|
    ensures WriteThrough(h, true, data).disk == h.disk + data
  {
    WriteAtEnd(h.disk, data);
  }

  /** Where the pieces of `first + info[|first|..] + second` are. */
  lemma TextsInPlace(info: string, first: string, second: string, lead: string)
    requires |first| <= |info| && |first| > 0 && |lead| > 0 && first[0] != lead[0]
    ensures var disk := first + info[|first|..] + second;
            RecordAt(disk, 0, first) && RecordAt(disk, |info|, second) && !RecordAt(disk, 0, lead)
  {
    var disk := first + info[|first|..] + second;
    assert disk[0..|first|] == first;
    assert disk[|info|..|info| + |second|] == second;
    assert disk[0] == first[0];
  }

  /** Two records, one write after the other. */
  lemma SeparateTwo(start: Handles, writes: seq<(bool, string)>)
    requires Positioned(start) && |writes| == 2
    ensures Separate(start, writes) == WriteThrough(WriteThrough(start, writes[0].0, writes[0].1), writes[1].0, writes[1].1)
  {
    var front := writes[..1];
    assert front[..0] == [] && front[0] == writes[0];
    assert Separate(start, front[..0]) == start;
    assert Separate(start, front) == WriteThrough(start, writes[0].0, writes[0].1);
  }

  /** Two records, one after the other. */
  lemma SharedTwo(start: string, writes: seq<(bool, string)>)
    requires |writes| == 2
    ensures Shared(start, writes) == start + writes[0].1 + writes[1].1
  {
    var front := writes[..1];
    assert front[..0] == [] && front[0] == writes[0];
    assert Shared(start, front[..0]) == start;
    assert Shared(start, front) == start + writes[0].1;
  }

  /** A write at offset 0 no longer than the file replaces its beginning. */
  lemma WriteOverStart(disk: string, data: string)
    requires |data| <= |disk|
    ensures WriteAt(disk, 0, data) == data + disk[|data|..]
  {
  }

  /** A write at the end of the file appends. */
  lemma WriteAtEnd(disk: string, data: string)
    ensures WriteAt(disk, |disk|, data) == disk + data
  {
    assert disk[..|disk|] == disk;
  }

  /** Later in a multi-stream session the input handle reaches the output records:
      an input record written over the start of an output record destroys it,
      since an input record has no `O` in it. */
  lemma InputRecordBreaksOutputRecord(h: Handles, delta: nat, len: nat, at: nat, r: string)
    requires Positioned(h) && RecordAt(h.disk, at, r) && |r| > 0 && r[0] == 'O'
    requires h.inOffset <= at < h.inOffset + |DataRecord(TimingMulti, Input, delta, len)|
    ensures !RecordAt(WriteThrough(h, false, DataRecord(TimingMulti, Input, delta, len)).disk, at, r)
  {
    var i := DataRecord(TimingMulti, Input, delta, len);
    InputRecordHasNoO(delta, len);
    var disk := WriteThrough(h, false, i).disk;
    assert disk[h.inOffset..h.inOffset + |i|] == i;
    assert disk[at] == i[at - h.inOffset];
  }

  /** An input data record: `I`, digits, a dot, spaces and a line break. */
  lemma InputRecordHasNoO(delta: nat, len: nat)
    ensures 'O' !in DataRecord(TimingMulti, Input, delta, len)
  {
    var fraction := Pad(delta % 1000000, 6);
    var secs, count := Show(delta / 1000000), Show(len);
    assert FmtDelta(delta) == secs + "." + fraction;
    assert DataRecord(TimingMulti, Input, delta, len) == ['I', ' '] + secs + "." + fraction + " " + count + "\n";
    assert forall c :: c in secs + fraction + count ==> IsDigit(c);
  }
}
