/** The incremental reader of a rollout log (src/pty-worker/codex-runner-recovery.js).

    A rollout log is an append-only file of newline-terminated records.  The
    reader keeps an absolute byte offset and the bytes of the record that is not
    finished yet, and is asked again and again for what is new.  The reference
    it must agree with is `Lines`, which cuts a stretch of the file at once. */
module RolloutReader {

  type Byte = bv8

  const LF: Byte := 0x0A
  const CR: Byte := 0x0D

  const ROLLOUT_REPLAY_OVERLAP_BYTES: nat := 64 * 1024

  /** Decoding the bytes of a record as UTF-8 and trimming the text: not interpreted. */
  type Decode = seq<Byte> -> string

  /** A record, with the offsets of its first byte and of the byte after its newline. */
  datatype Line = Line(text: string, startOffset: int, endOffset: int)

  datatype Delta = Delta(lines: seq<Line>, nextOffset: nat, carryover: seq<Byte>)

  // ---------------------------------------------------------------------
  // Cutting a stretch b[lo..hi] at once, with lo taken as the start of a record.
  // The byte b[i] has offset base + i.
  // ---------------------------------------------------------------------

  function StripCr(b: seq<Byte>): seq<Byte> {
    if b != [] && b[|b| - 1] == CR then b[..|b| - 1] else b
  }

  /** The record with body b[s..e] and end offset base + end. */
  function Record(decode: Decode, b: seq<Byte>, s: nat, e: nat, end: nat, base: int): Line
    requires s <= e <= |b|
  {
    Line(decode(StripCr(b[s..e])), base + s, base + end)
  }

  /** Where the record that is unfinished at hi starts. */
  function LineStart(b: seq<Byte>, lo: nat, hi: nat): (s: nat)
    requires lo <= hi <= |b|
    ensures lo <= s <= hi
    decreases hi
  {
    if hi == lo || b[hi - 1] == LF then hi else LineStart(b, lo, hi - 1)
  }

  /** The newline-terminated records, blank ones included. */
  function Records(decode: Decode, b: seq<Byte>, lo: nat, hi: nat, base: int): seq<Line>
    requires lo <= hi <= |b|
    decreases hi
  {
    if hi == lo then []
    else if b[hi - 1] != LF then Records(decode, b, lo, hi - 1, base)
    else Records(decode, b, lo, hi - 1, base)
         + [Record(decode, b, LineStart(b, lo, hi - 1), hi - 1, hi, base)]
  }

  function Kept(l: Line): seq<Line> {
    if l.text == "" then [] else [l]
  }

  /** The first n lines without the blank ones. */
  function NonBlank(lines: seq<Line>, n: nat): seq<Line>
    requires n <= |lines|
  {
    if n == 0 then [] else NonBlank(lines, n - 1) + Kept(lines[n - 1])
  }

  function Lines(decode: Decode, b: seq<Byte>, lo: nat, hi: nat, base: int): seq<Line>
    requires lo <= hi <= |b|
  {
    var r := Records(decode, b, lo, hi, base);
    NonBlank(r, |r|)
  }

  /** The unfinished record, read as if it ended at hi; an empty one is no record. */
  function TailLine(decode: Decode, b: seq<Byte>, lo: nat, hi: nat, base: int): seq<Line>
    requires lo <= hi <= |b|
  {
    var s := LineStart(b, lo, hi);
    if s == hi then [] else Kept(Record(decode, b, s, hi, hi, base))
  }

  /** b[s..e] is the body of a newline-terminated record of b[lo..hi]. */
  ghost predicate IsWholeLine(b: seq<Byte>, lo: nat, hi: nat, s: int, e: int)
    requires lo <= hi <= |b|
  {
    && lo <= s <= e < hi
    && b[e] == LF
    && (forall i :: s <= i < e ==> b[i] != LF)
    && (s == lo || b[s - 1] == LF)
  }

  lemma {:induction false} LineStartIs(b: seq<Byte>, lo: nat, hi: nat)
    requires lo <= hi <= |b|
    ensures var s := LineStart(b, lo, hi);
            (forall i :: s <= i < hi ==> b[i] != LF) && (s == lo || b[s - 1] == LF)
    decreases hi
  {
    if hi != lo && b[hi - 1] != LF {
      LineStartIs(b, lo, hi - 1);
    }
  }

  /** Records finds exactly the whole lines, each with its own bytes and offsets; of the
      bytes only a carriage return before the newline is left out of the text. */
  lemma {:induction false} RecordsAreTheWholeLines(decode: Decode, b: seq<Byte>, lo: nat, hi: nat, l: Line)
    requires lo <= hi <= |b|
    ensures l in Records(decode, b, lo, hi, 0)
       <==> IsWholeLine(b, lo, hi, l.startOffset, l.endOffset - 1)
            && var s, e := l.startOffset, l.endOffset - 1;
               l.text == decode(if s < e && b[e - 1] == 0x0D then b[s..e - 1] else b[s..e])
    decreases hi
  {
    if hi != lo {
      RecordsAreTheWholeLines(decode, b, lo, hi - 1, l);
      LineStartIs(b, lo, hi - 1);
      var s, e := LineStart(b, lo, hi - 1), hi - 1;
      assert s < e ==> b[s..e][..e - s - 1] == b[s..e - 1];
    }
  }

  /** The flushed line is what follows the last newline, if that is not empty and its
      text is not blank. */
  lemma TailIsTheRest(decode: Decode, b: seq<Byte>, lo: nat, hi: nat, l: Line)
    requires lo <= hi <= |b|
    ensures l in TailLine(decode, b, lo, hi, 0)
       <==> && lo <= l.startOffset < hi == l.endOffset
            && (l.startOffset == lo || b[l.startOffset - 1] == LF)
            && (forall i :: l.startOffset <= i < hi ==> b[i] != LF)
            && l.text == decode(if b[hi - 1] == 0x0D then b[l.startOffset..hi - 1] else b[l.startOffset..hi])
            && l.text != ""
  {
    LineStartIs(b, lo, hi);
    var s := LineStart(b, lo, hi);
    assert s < hi ==> b[s..hi][..hi - s - 1] == b[s..hi - 1];
    if lo <= l.startOffset < hi && (l.startOffset == lo || b[l.startOffset - 1] == LF) && (forall i :: l.startOffset <= i < hi ==> b[i] != LF) {
      LineStartUnique(b, lo, hi, l.startOffset);
    }
  }

  lemma {:induction false} LineStartUnique(b: seq<Byte>, lo: nat, hi: nat, s: nat)
    requires lo <= s <= hi <= |b|
    requires s == lo || b[s - 1] == LF
    requires forall i :: s <= i < hi ==> b[i] != LF
    ensures LineStart(b, lo, hi) == s
    decreases hi
  {
    if s < hi {
      LineStartUnique(b, lo, hi - 1, s);
    }
  }

  /** Each record ends where or before the next one starts, and all of them by end. */
  ghost predicate InFileOrder(lines: seq<Line>, end: int) {
    && (forall i :: 0 <= i < |lines| ==> lines[i].endOffset <= end)
    && (forall i, j :: 0 <= i < j < |lines| ==> lines[i].endOffset <= lines[j].startOffset)
  }

  lemma {:induction false} RecordsAreOrdered(decode: Decode, b: seq<Byte>, lo: nat, hi: nat, base: int)
    requires lo <= hi <= |b|
    ensures InFileOrder(Records(decode, b, lo, hi, base), base + LineStart(b, lo, hi))
    decreases hi
  {
    if hi != lo {
      RecordsAreOrdered(decode, b, lo, hi - 1, base);
    }
  }

  // ---------------------------------------------------------------------
  // Cutting in two steps
  // ---------------------------------------------------------------------

  lemma {:induction false} NonBlankPrefix(x: seq<Line>, y: seq<Line>, n: nat)
    requires n <= |x|
    ensures NonBlank(x + y, n) == NonBlank(x, n)
  {
    hide Kept;
    if n != 0 {
      NonBlankPrefix(x, y, n - 1);
    }
  }

  lemma {:induction false} NonBlankConcat(x: seq<Line>, y: seq<Line>, n: nat)
    requires n <= |y|
    ensures NonBlank(x + y, |x| + n) == NonBlank(x, |x|) + NonBlank(y, n)
  {
    hide Kept;
    if n == 0 {
      NonBlankPrefix(x, y, |x|);
    } else {
      NonBlankConcat(x, y, n - 1);
      Assoc(NonBlank(x, |x|), NonBlank(y, n - 1), Kept(y[n - 1]));
    }
  }

  lemma Assoc<T>(x: seq<T>, y: seq<T>, z: seq<T>)
    ensures (x + y) + z == x + (y + z)
  {
  }

  lemma LinesStep(decode: Decode, b: seq<Byte>, lo: nat, hi: nat, base: int)
    requires lo < hi <= |b|
    ensures LineStart(b, lo, hi) == if b[hi - 1] == LF then hi else LineStart(b, lo, hi - 1)
    ensures Lines(decode, b, lo, hi, base)
         == Lines(decode, b, lo, hi - 1, base)
            + (if b[hi - 1] == LF then Kept(Record(decode, b, LineStart(b, lo, hi - 1), hi - 1, hi, base)) else [])
  {
    hide Kept, Record;
    if b[hi - 1] == LF {
      NonBlankPrefix(Records(decode, b, lo, hi - 1, base), [Record(decode, b, LineStart(b, lo, hi - 1), hi - 1, hi, base)],
                     |Records(decode, b, lo, hi - 1, base)|);
    }
  }

  lemma NothingYet(decode: Decode, b: seq<Byte>, base: int)
    ensures LineStart(b, 0, 0) == 0 && Lines(decode, b, 0, 0, base) == []
  {
  }

  lemma NothingYetAt(decode: Decode, b: seq<Byte>, lo: nat)
    requires lo <= |b|
    ensures LineStart(b, lo, lo) == lo && Lines(decode, b, lo, lo, 0) == []
  {
  }

  lemma {:induction false} Unfinished(decode: Decode, b: seq<Byte>, lo: nat, hi: nat, base: int)
    requires lo <= hi <= |b|
    ensures var s := LineStart(b, lo, hi);
            LineStart(b, s, hi) == s && Records(decode, b, s, hi, base) == []
    decreases hi
  {
    if hi != lo && b[hi - 1] != LF {
      Unfinished(decode, b, lo, hi - 1, base);
    }
  }

  /** What is appended after mid only meets the record that is unfinished there. */
  lemma {:induction false} CutAt(decode: Decode, b: seq<Byte>, lo: nat, mid: nat, hi: nat, base: int)
    requires lo <= mid <= hi <= |b|
    ensures var s := LineStart(b, lo, mid);
            && Records(decode, b, lo, hi, base) == Records(decode, b, lo, mid, base) + Records(decode, b, s, hi, base)
            && LineStart(b, lo, hi) == LineStart(b, s, hi)
    decreases hi
  {
    if mid == hi {
      Unfinished(decode, b, lo, hi, base);
    } else {
      CutAt(decode, b, lo, mid, hi - 1, base);
    }
  }

  lemma LinesCutAt(decode: Decode, b: seq<Byte>, lo: nat, mid: nat, hi: nat)
    requires lo <= mid <= hi <= |b|
    ensures Lines(decode, b, lo, hi, 0)
         == Lines(decode, b, lo, mid, 0) + Lines(decode, b, LineStart(b, lo, mid), hi, 0)
    ensures LineStart(b, lo, hi) == LineStart(b, LineStart(b, lo, mid), hi)
    ensures TailLine(decode, b, lo, hi, 0) == TailLine(decode, b, LineStart(b, lo, mid), hi, 0)
  {
    hide Records, NonBlank, LineStart, Record, Kept;
    CutAt(decode, b, lo, mid, hi, 0);
    var later := Records(decode, b, LineStart(b, lo, mid), hi, 0);
    NonBlankConcat(Records(decode, b, lo, mid, 0), later, |later|);
  }

  ghost predicate Window(c: seq<Byte>, b: seq<Byte>, lo: nat) {
    lo + |c| <= |b| && forall i :: 0 <= i < |c| ==> c[i] == b[lo + i]
  }

  lemma {:induction false} LineStartShift(c: seq<Byte>, b: seq<Byte>, lo: nat, n: nat)
    requires n <= |c| && Window(c, b, lo)
    ensures LineStart(b, lo, lo + n) == lo + LineStart(c, 0, n)
    decreases n
  {
    if n != 0 && c[n - 1] != LF {
      LineStartShift(c, b, lo, n - 1);
    }
  }

  lemma RecordShift(decode: Decode, c: seq<Byte>, b: seq<Byte>, lo: nat, s: nat, e: nat, end: nat)
    requires s <= e <= |c| && Window(c, b, lo)
    ensures Record(decode, c, s, e, end, lo) == Record(decode, b, lo + s, lo + e, lo + end, 0)
  {
    assert c[s..e] == b[lo + s..lo + e];
  }

  /** A copy of a stretch of the file is cut like the stretch itself. */
  lemma {:induction false} RecordsShift(decode: Decode, c: seq<Byte>, b: seq<Byte>, lo: nat, n: nat)
    requires n <= |c| && Window(c, b, lo)
    ensures Records(decode, c, 0, n, lo) == Records(decode, b, lo, lo + n, 0)
    decreases n
  {
    hide Record;
    if n != 0 {
      RecordsShift(decode, c, b, lo, n - 1);
      if c[n - 1] == LF {
        LineStartShift(c, b, lo, n - 1);
        RecordShift(decode, c, b, lo, LineStart(c, 0, n - 1), n - 1, n);
      }
    }
  }

  // ---------------------------------------------------------------------
  // readRolloutDelta
  // ---------------------------------------------------------------------

  function StartOffset(file: seq<Byte>, offset: nat): nat {
    if |file| < offset then 0 else offset
  }

  function Chunk(file: seq<Byte>, offset: nat, carryover: seq<Byte>, bytesRead: nat): seq<Byte>
    requires StartOffset(file, offset) + bytesRead <= |file|
  {
    var start := StartOffset(file, offset);
    (if |file| < offset then [] else carryover) + file[start..start + bytesRead]
  }

  /** One read of a file, as the cut of the carryover followed by the bytes read.
      A file shorter than the offset was replaced: the read restarts at 0. */
  function ReadDelta(decode: Decode, file: seq<Byte>, offset: nat, carryover: seq<Byte>,
                     flushTailAtEof: bool, bytesRead: nat): Delta
    requires StartOffset(file, offset) + bytesRead <= |file|
  {
    var end := StartOffset(file, offset) + bytesRead;
    var chunk := Chunk(file, offset, carryover, bytesRead);
    var base := end - |chunk|;
    // at the end of the file the carryover is handed on unseen
    var scanned := if end - bytesRead == |file| then 0 else |chunk|;
    var tailStart := LineStart(chunk, 0, scanned);
    if flushTailAtEof then
      Delta(Lines(decode, chunk, 0, scanned, base)
            + (if tailStart == |chunk| then []
               else Kept(Record(decode, chunk, tailStart, |chunk|, |chunk|, base))),
            end, [])
    else Delta(Lines(decode, chunk, 0, scanned, base), end, chunk[tailStart..])
  }

  /** The read itself.  file is the content at the time of the stat call and
      bytesRead what the operating system returned of the bytes asked for. */
  method ReadRolloutDelta(decode: Decode, file: seq<Byte>, offset: nat, carryover: seq<Byte>,
                          flushTailAtEof: bool, bytesRead: nat)
    returns (delta: Delta)
    requires StartOffset(file, offset) + bytesRead <= |file|
    ensures delta == ReadDelta(decode, file, offset, carryover, flushTailAtEof, bytesRead)
  {
    hide Records, NonBlank, LineStart, Record;
    var nextOffset := offset;
    var nextCarryover := carryover;
    if |file| < offset {
      nextOffset := 0;
      nextCarryover := [];
    }
    if |file| == nextOffset {
      assert Chunk(file, offset, carryover, bytesRead) == nextCarryover;
      NothingYet(decode, nextCarryover, nextOffset - |nextCarryover|);
      if flushTailAtEof && |nextCarryover| > 0 {
        var flushed := FlushedLine(decode, nextCarryover, 0, nextOffset - |nextCarryover|);
        return Delta(flushed, nextOffset, []);
      }
      return Delta([], nextOffset, nextCarryover);
    }

    var buffer := file[nextOffset..nextOffset + bytesRead];
    var chunk := if |nextCarryover| > 0 then nextCarryover + buffer else buffer;
    assert chunk == Chunk(file, offset, carryover, bytesRead);
    var lines, lineStartIndex := CutChunk(decode, chunk, nextOffset - |nextCarryover|);
    var flushed: seq<Line> := [];
    if flushTailAtEof && lineStartIndex < |chunk| {
      flushed := FlushedLine(decode, chunk, lineStartIndex, nextOffset - |nextCarryover|);
    }
    return Delta(lines + flushed, nextOffset + bytesRead, if flushTailAtEof then [] else chunk[lineStartIndex..]);
  }

  method CutChunk(decode: Decode, chunk: seq<Byte>, chunkStartOffset: int)
    returns (lines: seq<Line>, lineStartIndex: nat)
    ensures lineStartIndex == LineStart(chunk, 0, |chunk|)
    ensures lines == Lines(decode, chunk, 0, |chunk|, chunkStartOffset)
  {
    hide Records, NonBlank, LineStart;
    lines, lineStartIndex := [], 0;
    NothingYet(decode, chunk, chunkStartOffset);
    for index := 0 to |chunk|
      invariant lineStartIndex == LineStart(chunk, 0, index)
      invariant lines == Lines(decode, chunk, 0, index, chunkStartOffset)
    {
      LinesStep(decode, chunk, 0, index + 1, chunkStartOffset);
      if chunk[index] != LF {
        continue;
      }
      var lineBuffer := chunk[lineStartIndex..index];
      if |lineBuffer| > 0 && lineBuffer[|lineBuffer| - 1] == CR {
        lineBuffer := lineBuffer[..|lineBuffer| - 1];
      }
      var text := decode(lineBuffer);
      if text != "" {
        lines := lines + [Line(text, chunkStartOffset + lineStartIndex, chunkStartOffset + index + 1)];
      }
      lineStartIndex := index + 1;
    }
  }

  method FlushedLine(decode: Decode, chunk: seq<Byte>, lineStartIndex: nat, chunkStartOffset: int)
    returns (lines: seq<Line>)
    requires lineStartIndex <= |chunk|
    ensures lines == Kept(Record(decode, chunk, lineStartIndex, |chunk|, |chunk|, chunkStartOffset))
  {
    var lineBuffer := chunk[lineStartIndex..];
    assert lineBuffer == chunk[lineStartIndex..|chunk|];
    if |lineBuffer| > 0 && lineBuffer[|lineBuffer| - 1] == CR {
      lineBuffer := lineBuffer[..|lineBuffer| - 1];
    }
    var text := decode(lineBuffer);
    lines := if text != "" then [Line(text, chunkStartOffset + lineStartIndex, chunkStartOffset + |chunk|)] else [];
  }

  // ---------------------------------------------------------------------
  // Any sequence of reads of a growing file
  // ---------------------------------------------------------------------

  /** A file that got shorter is read from its start, with nothing carried over. */
  lemma ShorterFileIsReadAnew(decode: Decode, file: seq<Byte>, offset: nat, carryover: seq<Byte>, flush: bool, bytesRead: nat)
    requires |file| < offset && bytesRead <= |file|
    ensures ReadDelta(decode, file, offset, carryover, flush, bytesRead) == ReadDelta(decode, file, 0, [], flush, bytesRead)
  {
  }

  /** With a newline-free carryover, the end of the file is no special case. */
  lemma ReadDeltaCuts(decode: Decode, file: seq<Byte>, offset: nat, carryover: seq<Byte>,
                      flush: bool, bytesRead: nat)
    requires offset + bytesRead <= |file| && LF !in carryover
    ensures var d := ReadDelta(decode, file, offset, carryover, flush, bytesRead);
            var chunk := Chunk(file, offset, carryover, bytesRead);
            var base := offset + bytesRead - |chunk|;
            && d.nextOffset == offset + bytesRead
            && d.lines == Lines(decode, chunk, 0, |chunk|, base)
                          + (if flush then TailLine(decode, chunk, 0, |chunk|, base) else [])
            && d.carryover == if flush then [] else chunk[LineStart(chunk, 0, |chunk|)..]
  {
    hide Record, Kept, NonBlank, Records, LineStart;
    if offset == |file| {
      NothingYet(decode, carryover, offset - |carryover|);
      LinesOfNone(decode, carryover, 0, |carryover|, offset - |carryover|);
      assert Chunk(file, offset, carryover, bytesRead) == carryover;
    }
  }

  lemma LinesOfNone(decode: Decode, b: seq<Byte>, lo: nat, hi: nat, base: int)
    requires lo <= hi <= |b| && forall i :: lo <= i < hi ==> b[i] != LF
    ensures Lines(decode, b, lo, hi, base) == [] && LineStart(b, lo, hi) == lo
  {
    NoLf(decode, b, lo, hi, base);
  }

  lemma {:induction false} NoLf(decode: Decode, b: seq<Byte>, lo: nat, hi: nat, base: int)
    requires lo <= hi <= |b| && forall i :: lo <= i < hi ==> b[i] != LF
    ensures LineStart(b, lo, hi) == lo && Records(decode, b, lo, hi, base) == []
    decreases hi
  {
    if lo != hi {
      NoLf(decode, b, lo, hi - 1, base);
    }
  }

  /** The reader that started at from holds exactly the unfinished record at offset. */
  ghost predicate InStep(file: seq<Byte>, from: nat, offset: nat, carryover: seq<Byte>) {
    && from <= offset <= |file|
    && carryover == file[LineStart(file, from, offset)..offset]
  }

  /** One read of the growing file: its size at that moment, the bytes returned, and
      whether the unterminated record was asked for as well. */
  datatype Poll = Poll(size: nat, bytesRead: nat, flush: bool)

  predicate NeverFlushes(polls: seq<Poll>) {
    forall i :: 0 <= i < |polls| ==> !polls[i].flush
  }

  /** One read keeps the reader in step and returns exactly the records finished since. */
  lemma ReadInStep(decode: Decode, file: seq<Byte>, from: nat, offset: nat, carryover: seq<Byte>,
                   poll: Poll, flush: bool)
    requires InStep(file, from, offset, carryover)
    requires offset + poll.bytesRead <= poll.size <= |file|
    ensures var d := ReadDelta(decode, file[..poll.size], offset, carryover, flush, poll.bytesRead);
            var next := offset + poll.bytesRead;
            && d.nextOffset == next
            && Lines(decode, file, from, offset, 0) + d.lines
               == Lines(decode, file, from, next, 0) + (if flush then TailLine(decode, file, from, next, 0) else [])
            && (if flush then d.carryover == [] else InStep(file, from, next, d.carryover))
  {
    hide Records, NonBlank, LineStart, ReadDelta, Lines, TailLine, Chunk;
    var f, s := file[..poll.size], LineStart(file, from, offset);
    var chunk, next := Chunk(f, offset, carryover, poll.bytesRead), offset + poll.bytesRead;
    ChunkIsWindow(file, from, offset, carryover, poll);
    ReadDeltaCuts(decode, f, offset, carryover, flush, poll.bytesRead);
    ChunkInFile(decode, file, s, chunk);
    UnfinishedInFile(file, s, chunk);
    LinesCutAt(decode, file, from, offset, next);
    Assoc(Lines(decode, file, from, offset, 0), Lines(decode, file, s, next, 0),
          if flush then TailLine(decode, file, s, next, 0) else []);
  }

  lemma ChunkIsWindow(file: seq<Byte>, from: nat, offset: nat, carryover: seq<Byte>, poll: Poll)
    requires InStep(file, from, offset, carryover)
    requires offset + poll.bytesRead <= poll.size <= |file|
    ensures var chunk := Chunk(file[..poll.size], offset, carryover, poll.bytesRead);
            var s := LineStart(file, from, offset);
            s + |chunk| == offset + poll.bytesRead && Window(chunk, file, s) && LF !in carryover
  {
    hide LineStart;
    LineStartIs(file, from, offset);
  }

  lemma ChunkInFile(decode: Decode, file: seq<Byte>, s: nat, chunk: seq<Byte>)
    requires Window(chunk, file, s)
    ensures Lines(decode, chunk, 0, |chunk|, s) == Lines(decode, file, s, s + |chunk|, 0)
    ensures TailLine(decode, chunk, 0, |chunk|, s) == TailLine(decode, file, s, s + |chunk|, 0)
  {
    hide Records, NonBlank, LineStart, Record, Kept, Window;
    RecordsShift(decode, chunk, file, s, |chunk|);
    LineStartShift(chunk, file, s, |chunk|);
    RecordShift(decode, chunk, file, s, LineStart(chunk, 0, |chunk|), |chunk|, |chunk|);
  }

  lemma UnfinishedInFile(file: seq<Byte>, s: nat, chunk: seq<Byte>)
    requires Window(chunk, file, s)
    ensures chunk[LineStart(chunk, 0, |chunk|)..] == file[LineStart(file, s, s + |chunk|)..s + |chunk|]
  {
    hide LineStart;
    LineStartShift(chunk, file, s, |chunk|);
  }

  /** The polls read a file that only grows: it has at least size bytes before them. */
  ghost predicate AppendOnly(file: seq<Byte>, offset: nat, size: nat, polls: seq<Poll>)
    decreases |polls|
  {
    offset <= size <= |file| &&
    (polls == [] || (
       var p := polls[0];
       && size <= p.size <= |file|
       && offset + p.bytesRead <= p.size
       && AppendOnly(file, offset + p.bytesRead, p.size, polls[1..])))
  }

  /** The reader polled in turn: lines are concatenated, offset and carryover handed on. */
  ghost function ReadAll(decode: Decode, file: seq<Byte>, offset: nat, carryover: seq<Byte>,
                         size: nat, polls: seq<Poll>): Delta
    requires AppendOnly(file, offset, size, polls)
    decreases |polls|
  {
    if polls == [] then Delta([], offset, carryover)
    else
      var p := polls[0];
      var d := ReadDelta(decode, file[..p.size], offset, carryover, p.flush, p.bytesRead);
      var more := ReadAll(decode, file, d.nextOffset, d.carryover, p.size, polls[1..]);
      Delta(d.lines + more.lines, more.nextOffset, more.carryover)
  }

  lemma {:induction false} ReadAllInStep(decode: Decode, file: seq<Byte>, from: nat, offset: nat,
                                         carryover: seq<Byte>, size: nat, polls: seq<Poll>)
    requires InStep(file, from, offset, carryover) && AppendOnly(file, offset, size, polls) && NeverFlushes(polls)
    ensures var d := ReadAll(decode, file, offset, carryover, size, polls);
            && offset <= d.nextOffset
            && InStep(file, from, d.nextOffset, d.carryover)
            && Lines(decode, file, from, offset, 0) + d.lines == Lines(decode, file, from, d.nextOffset, 0)
    decreases |polls|
  {
    hide Records, NonBlank, LineStart, ReadDelta, Lines;
    if polls != [] {
      var p := polls[0];
      var d := ReadDelta(decode, file[..p.size], offset, carryover, false, p.bytesRead);
      ReadInStep(decode, file, from, offset, carryover, p, false);
      ReadAllInStep(decode, file, from, d.nextOffset, d.carryover, p.size, polls[1..]);
      var more := ReadAll(decode, file, d.nextOffset, d.carryover, p.size, polls[1..]);
      var before := Lines(decode, file, from, offset, 0);
      assert before + (d.lines + more.lines) == (before + d.lines) + more.lines;
    }
  }

  /** Chunk invariance: however the file grows and however short the reads are, the
      lines are those of all the bytes consumed, with the same offsets, and the
      carryover is the newline-free tail of those bytes. */
  lemma ChunkInvariance(decode: Decode, file: seq<Byte>, from: nat, polls: seq<Poll>)
    requires AppendOnly(file, from, from, polls) && NeverFlushes(polls)
    ensures var d := ReadAll(decode, file, from, [], from, polls);
            && from <= d.nextOffset <= |file|
            && d.lines == Lines(decode, file, from, d.nextOffset, 0)
            && |d.carryover| <= d.nextOffset - from
            && d.carryover == file[d.nextOffset - |d.carryover|..d.nextOffset]
            && LF !in d.carryover
  {
    hide Records, NonBlank, LineStart, ReadDelta;
    NothingYetAt(decode, file, from);
    ReadAllInStep(decode, file, from, from, [], from, polls);
    LineStartIs(file, from, ReadAll(decode, file, from, [], from, polls).nextOffset);
  }

  /** The lines of a complete file from an offset on, its unterminated last one included. */
  function AllLines(decode: Decode, file: seq<Byte>, from: nat): seq<Line>
    requires from <= |file|
  {
    Lines(decode, file, from, |file|, 0) + TailLine(decode, file, from, |file|, 0)
  }

  /** A short read up to m cuts nothing off: what is unfinished there, and all that
      follows, is blank. */
  predicate NothingIsCutOff(decode: Decode, file: seq<Byte>, from: nat, m: nat)
    requires from <= m <= |file|
  {
    && TailLine(decode, file, from, m, 0) == []
    && Lines(decode, file, LineStart(file, from, m), |file|, 0) == []
    && TailLine(decode, file, from, |file|, 0) == []
  }

  /** One more read, with the flush, after any polls.  The flush adds the unterminated
      record of the file, once, if the read reached the end of the file; a shorter read
      is right exactly when it cuts nothing off. */
  lemma FlushIsExact(decode: Decode, file: seq<Byte>, from: nat, polls: seq<Poll>, poll: Poll)
    requires AppendOnly(file, from, from, polls) && NeverFlushes(polls)
    requires ReadAll(decode, file, from, [], from, polls).nextOffset + poll.bytesRead <= poll.size <= |file|
    ensures var before := ReadAll(decode, file, from, [], from, polls);
            var last := ReadDelta(decode, file[..poll.size], before.nextOffset, before.carryover, true, poll.bytesRead);
            && from <= last.nextOffset <= |file|
            && last.carryover == []
            && (before.lines + last.lines == AllLines(decode, file, from)
                <==> last.nextOffset == |file| || NothingIsCutOff(decode, file, from, last.nextOffset))
  {
    hide Records, NonBlank, LineStart, ReadDelta, Lines, TailLine, ReadAll;
    ReadAllInStep(decode, file, from, from, [], from, polls);
    ChunkInvariance(decode, file, from, polls);
    var before := ReadAll(decode, file, from, [], from, polls);
    ReadInStep(decode, file, from, before.nextOffset, before.carryover, poll, true);
    var m := before.nextOffset + poll.bytesRead;
    var whole, flushed := Lines(decode, file, from, m, 0), TailLine(decode, file, from, m, 0);
    if m < |file| {
      var s := LineStart(file, from, m);
      LinesCutAt(decode, file, from, m, |file|);
      RecordsEndAfter(decode, file, from, m, |file|);
      TailEndsAt(decode, file, from, m);
      TailEndsAt(decode, file, from, |file|);
      Assoc(whole, Lines(decode, file, s, |file|, 0), TailLine(decode, file, from, |file|, 0));
      var later := Lines(decode, file, s, |file|, 0) + TailLine(decode, file, from, |file|, 0);
      assert AllLines(decode, file, from) == whole + later;
      OnlyIfEmpty(whole, flushed, later, m);
    }
  }

  lemma TailEndsAt(decode: Decode, b: seq<Byte>, lo: nat, hi: nat)
    requires lo <= hi <= |b|
    ensures forall l :: l in TailLine(decode, b, lo, hi, 0) ==> l.endOffset == hi
  {
  }

  lemma OnlyIfEmpty(whole: seq<Line>, flushed: seq<Line>, later: seq<Line>, m: int)
    requires forall l :: l in flushed ==> l.endOffset == m
    requires forall l :: l in later ==> l.endOffset > m
    ensures whole + flushed == whole + later <==> flushed == [] && later == []
  {
    if flushed != [] && later != [] {
      assert flushed[0] in flushed && later[0] in later;
      assert (whole + flushed)[|whole|] == flushed[0] && (whole + later)[|whole|] == later[0];
    } else {
      assert |whole + flushed| == |whole| + |flushed| && |whole + later| == |whole| + |later|;
    }
  }

  /** A record unfinished at mid ends after mid. */
  lemma {:induction false} RecordsEndAfter(decode: Decode, b: seq<Byte>, lo: nat, mid: nat, hi: nat)
    requires lo <= mid <= hi <= |b|
    ensures forall l :: l in Lines(decode, b, LineStart(b, lo, mid), hi, 0) ==> l.endOffset > mid
    decreases hi
  {
    var s := LineStart(b, lo, mid);
    if mid == hi {
      Unfinished(decode, b, lo, mid, 0);
    } else {
      RecordsEndAfter(decode, b, lo, mid, hi - 1);
      LinesStep(decode, b, s, hi, 0);
    }
  }

  // ---------------------------------------------------------------------
  // Re-reading an overlap before a replay floor
  // ---------------------------------------------------------------------

  /** Where the re-read starts. */
  function OverlapStart(floor: nat): nat {
    if floor < ROLLOUT_REPLAY_OVERLAP_BYTES then 0 else floor - ROLLOUT_REPLAY_OVERLAP_BYTES
  }

  /** The lines a follower does not skip, of the first n: those that end after the floor. */
  function AfterN(lines: seq<Line>, floor: int, n: nat): seq<Line>
    requires n <= |lines|
  {
    if n == 0 then []
    else AfterN(lines, floor, n - 1) + if lines[n - 1].endOffset > floor then [lines[n - 1]] else []
  }

  function After(lines: seq<Line>, floor: int): seq<Line> {
    AfterN(lines, floor, |lines|)
  }

  /** Skipping drops a prefix x that ends by the floor, and nothing of what comes after. */
  lemma {:induction false} AfterDropsPrefix(x: seq<Line>, y: seq<Line>, floor: int, n: nat)
    requires n <= |x + y|
    requires forall i :: 0 <= i < |x| ==> x[i].endOffset <= floor
    requires forall i :: 0 <= i < |y| ==> y[i].endOffset > floor
    ensures AfterN(x + y, floor, n) == if n <= |x| then [] else y[..n - |x|]
  {
    if n != 0 {
      AfterDropsPrefix(x, y, floor, n - 1);
    }
  }

  /** All records of b[lo..hi] end at or before hi. */
  lemma {:induction false} RecordsEndBy(decode: Decode, b: seq<Byte>, lo: nat, hi: nat)
    requires lo <= hi <= |b|
    ensures forall l :: l in Lines(decode, b, lo, hi, 0) ==> l.endOffset <= hi
    decreases hi
  {
    if lo != hi {
      RecordsEndBy(decode, b, lo, hi - 1);
      LinesStep(decode, b, lo, hi, 0);
    }
  }

  /** What a reader that started at lo keeps: the records from the one unfinished at the floor. */
  lemma KeptAfterFloor(decode: Decode, b: seq<Byte>, lo: nat, floor: nat, n: nat)
    requires lo <= floor <= n <= |b|
    ensures After(Lines(decode, b, lo, n, 0), floor) == Lines(decode, b, LineStart(b, lo, floor), n, 0)
  {
    hide Records, NonBlank, LineStart, AfterN;
    var s := LineStart(b, lo, floor);
    var x, y := Lines(decode, b, lo, floor, 0), Lines(decode, b, s, n, 0);
    LinesCutAt(decode, b, lo, floor, n);
    RecordsEndBy(decode, b, lo, floor);
    RecordsEndAfter(decode, b, lo, floor, n);
    AfterDropsPrefix(x, y, floor, |x + y|);
    assert y[..|y|] == y;
  }

  /** The first newline at or after i, or n. */
  function NextLf(b: seq<Byte>, i: nat, n: nat): (e: nat)
    requires i <= n <= |b|
    ensures i <= e <= n && (e < n ==> b[e] == LF) && forall k :: i <= k < e ==> b[k] != LF
    decreases n - i
  {
    if i == n || b[i] == LF then i else NextLf(b, i + 1, n)
  }

  /** The first record of a stretch, then the rest. */
  lemma FirstRecord(decode: Decode, b: seq<Byte>, s: nat, e: nat, n: nat)
    requires s <= e < n <= |b| && b[e] == LF && forall k :: s <= k < e ==> b[k] != LF
    ensures Lines(decode, b, s, n, 0) == Kept(Record(decode, b, s, e, e + 1, 0)) + Lines(decode, b, e + 1, n, 0)
  {
    hide Records, NonBlank, LineStart, Record;
    LinesOfNone(decode, b, s, e, 0);
    LinesStep(decode, b, s, e + 1, 0);
    LinesCutAt(decode, b, s, e + 1, n);
  }

  function TextOf(decode: Decode, b: seq<Byte>, s: nat, e: nat): string
    requires s <= e <= |b|
  {
    Record(decode, b, s, e, e + 1, 0).text
  }

  /** The record that straddles the floor is out of reach of the re-read, but nobody
      notices: it is not finished yet, or both it and its visible part are blank. */
  predicate StraddlerDoesNotMatter(decode: Decode, file: seq<Byte>, floor: nat, n: nat)
    requires OverlapStart(floor) <= floor <= n <= |file|
  {
    var e := NextLf(file, floor, n);
    e == n || (TextOf(decode, file, LineStart(file, 0, floor), e) == ""
               && TextOf(decode, file, OverlapStart(floor), e) == "")
  }

  /** The overlap re-read finds exactly the file's own lines after the floor, up to any
      later size n, if and only if it starts early enough to see the whole line that
      straddles the floor (or that line does not matter yet). */
  lemma OverlapIsExact(decode: Decode, file: seq<Byte>, floor: nat, n: nat)
    requires floor <= n <= |file|
    ensures After(Lines(decode, file, OverlapStart(floor), n, 0), floor) == After(Lines(decode, file, 0, n, 0), floor)
       <==> (OverlapStart(floor) <= LineStart(file, 0, floor) || StraddlerDoesNotMatter(decode, file, floor, n))
  {
    var start, s := OverlapStart(floor), LineStart(file, 0, floor);
    var e := NextLf(file, floor, n);
    KeptAfterFloor(decode, file, start, floor, n);
    KeptAfterFloor(decode, file, 0, floor, n);
    LineStartIs(file, 0, floor);
    LineStartFrom(file, 0, start, floor);
    if start > s {
      assert LineStart(file, start, floor) == start;
      if e == n {
        LinesOfNone(decode, file, s, n, 0);
        LinesOfNone(decode, file, start, n, 0);
      } else {
        FirstRecord(decode, file, s, e, n);
        FirstRecord(decode, file, start, e, n);
        DifferentFirst(decode, file, s, start, e, Lines(decode, file, e + 1, n, 0));
      }
    }
  }

  /** Starting later in the same unfinished record moves the start of it, and nothing else. */
  lemma {:induction false} LineStartFrom(b: seq<Byte>, lo: nat, later: nat, hi: nat)
    requires lo <= later <= hi <= |b|
    ensures var s := LineStart(b, lo, hi); LineStart(b, later, hi) == if later <= s then s else later
    decreases hi
  {
    if later < hi && b[hi - 1] != LF {
      LineStartFrom(b, lo, later, hi - 1);
    }
  }

  lemma DifferentFirst(decode: Decode, b: seq<Byte>, s: nat, start: nat, e: nat, rest: seq<Line>)
    requires s < start <= e < |b|
    ensures Kept(Record(decode, b, s, e, e + 1, 0)) + rest == Kept(Record(decode, b, start, e, e + 1, 0)) + rest
       <==> TextOf(decode, b, s, e) == "" && TextOf(decode, b, start, e) == ""
  {
    var x, y := Record(decode, b, s, e, e + 1, 0), Record(decode, b, start, e, e + 1, 0);
    assert |Kept(x) + rest| == |Kept(x)| + |rest| && |Kept(y) + rest| == |Kept(y)| + |rest|;
    if x.text != "" && y.text != "" {
      assert (Kept(x) + rest)[0] == x && (Kept(y) + rest)[0] == y;
    }
  }

  /** So the re-read is exact whenever the line that straddles the floor has at most 65536
      bytes before it. */
  lemma OverlapCoversShortLines(decode: Decode, file: seq<Byte>, floor: nat, n: nat)
    requires floor <= n <= |file| && floor <= LineStart(file, 0, floor) + 65536
    ensures After(Lines(decode, file, OverlapStart(floor), n, 0), floor) == After(Lines(decode, file, 0, n, 0), floor)
  {
    OverlapIsExact(decode, file, floor, n);
  }
}
