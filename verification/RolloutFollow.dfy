/** The loop that follows a rollout log after a disconnect
    (followRolloutAfterDisconnect in src/pty-worker/codex-runner-recovery.js).

    The loop reads from an overlap before the replay floor and drops the lines that end
    by the floor.  Once the recovery child has exited every read flushes, so a record that
    is still being written can be cut in two. */
module RolloutFollow {
  import opened RolloutReader

  // ---------------------------------------------------------------------
  // What the reads return, piece by piece
  // ---------------------------------------------------------------------

  /** The lines of b[lo..hi], with the unterminated one if it was flushed. */
  function Stretch(decode: Decode, b: seq<Byte>, lo: nat, hi: nat, flushed: bool): seq<Line>
    requires lo <= hi <= |b|
  {
    Lines(decode, b, lo, hi, 0) + if flushed then TailLine(decode, b, lo, hi, 0) else []
  }

  /** Where the reader starts a record without having seen what is before: at from, where
      it began, and wherever a read flushed. */
  ghost function Cuts(from: nat, offset: nat, polls: seq<Poll>): seq<nat>
    decreases |polls|
  {
    if polls == [] then [from]
    else
      var m := offset + polls[0].bytesRead;
      if polls[0].flush then [from] + Cuts(m, m, polls[1..]) else Cuts(from, m, polls[1..])
  }

  ghost function LastOffset(offset: nat, polls: seq<Poll>): nat
    decreases |polls|
  {
    if polls == [] then offset else LastOffset(offset + polls[0].bytesRead, polls[1..])
  }

  predicate Sorted(cuts: seq<nat>, end: nat) {
    && (forall i, j :: 0 <= i <= j < |cuts| ==> cuts[i] <= cuts[j])
    && (forall i :: 0 <= i < |cuts| ==> cuts[i] <= end)
  }

  lemma {:induction false} CutsAreSorted(file: seq<Byte>, from: nat, offset: nat, size: nat, polls: seq<Poll>)
    requires from <= offset && AppendOnly(file, offset, size, polls)
    ensures var cuts, end := Cuts(from, offset, polls), LastOffset(offset, polls);
      cuts != [] && cuts[0] == from && offset <= end <= |file| && Sorted(cuts, end)
    decreases |polls|
  {
    if polls != [] {
      var m := offset + polls[0].bytesRead;
      CutsAreSorted(file, if polls[0].flush then m else from, m, polls[0].size, polls[1..]);
    }
  }

  /** The i-th piece goes up to the next cut, where it was flushed, or to the end. */
  function PieceEnd(cuts: seq<nat>, end: nat, i: nat): nat
    requires i < |cuts|
  {
    if i + 1 < |cuts| then cuts[i + 1] else end
  }

  function Piece(decode: Decode, b: seq<Byte>, cuts: seq<nat>, end: nat, i: nat): seq<Line>
    requires i < |cuts| && Sorted(cuts, end) && end <= |b|
  {
    Stretch(decode, b, cuts[i], PieceEnd(cuts, end, i), i + 1 < |cuts|)
  }

  function Pieces(decode: Decode, b: seq<Byte>, cuts: seq<nat>, end: nat): seq<Line>
    requires cuts != [] && Sorted(cuts, end) && end <= |b|
    decreases |cuts|
  {
    if |cuts| == 1 then Lines(decode, b, cuts[0], end, 0)
    else Stretch(decode, b, cuts[0], cuts[1], true) + Pieces(decode, b, cuts[1..], end)
  }

  /** What the reads return is the pieces. */
  lemma {:induction false} ReadsArePieces(decode: Decode, file: seq<Byte>, from: nat, offset: nat,
                                          carryover: seq<Byte>, size: nat, polls: seq<Poll>)
    requires InStep(file, from, offset, carryover) && AppendOnly(file, offset, size, polls)
    ensures var d, cuts, end := ReadAll(decode, file, offset, carryover, size, polls), Cuts(from, offset, polls), LastOffset(offset, polls);
      && cuts != [] && Sorted(cuts, end) && end <= |file|
      && d.nextOffset == end
      && Lines(decode, file, from, offset, 0) + d.lines == Pieces(decode, file, cuts, end)
    decreases |polls|
  {
    hide Records, NonBlank, LineStart, ReadDelta, Lines, TailLine;
    CutsAreSorted(file, from, offset, size, polls);
    if polls == [] {
      assert Lines(decode, file, from, offset, 0) + [] == Lines(decode, file, from, offset, 0);
    } else {
      var p := polls[0];
      var m := offset + p.bytesRead;
      var d := ReadDelta(decode, file[..p.size], offset, carryover, p.flush, p.bytesRead);
      var before := Lines(decode, file, from, offset, 0);
      ReadInStep(decode, file, from, offset, carryover, p, p.flush);
      var next := if p.flush then m else from;
      if p.flush {
        NothingYetAt(decode, file, m);
        CutsAreSorted(file, m, m, p.size, polls[1..]);
        assert Cuts(from, offset, polls)[1..] == Cuts(m, m, polls[1..]);
      }
      ReadsArePieces(decode, file, next, m, d.carryover, p.size, polls[1..]);
      var more := ReadAll(decode, file, m, d.carryover, p.size, polls[1..]);
      RolloutReader.Assoc(before, d.lines, more.lines);
      if p.flush {
        assert Lines(decode, file, m, m, 0) + more.lines == more.lines;
      } else {
        assert Lines(decode, file, from, m, 0) + [] == Lines(decode, file, from, m, 0);
      }
    }
  }

  // ---------------------------------------------------------------------
  // Lists of lines as sets of lines
  // ---------------------------------------------------------------------

  predicate Increasing(lines: seq<Line>) {
    forall i, j :: 0 <= i < j < |lines| ==> lines[i].endOffset < lines[j].endOffset
  }

  /** All lines end after lo and by hi. */
  predicate Within(lines: seq<Line>, lo: int, hi: int) {
    forall l :: l in lines ==> lo < l.endOffset <= hi
  }

  lemma SomeLine(lines: seq<Line>)
    requires lines != []
    ensures exists l :: l in lines
  {
    assert lines[0] in lines;
  }

  lemma {:induction false} SameLines(x: seq<Line>, y: seq<Line>)
    requires Increasing(x) && Increasing(y)
    requires forall l :: l in x <==> l in y
    ensures x == y
  {
    if x == [] {
      if y != [] {
        SomeLine(y);
      }
    } else {
      var n, m := |x| - 1, |y| - 1;
      assert x[n] in y && y[m] in x;
      assert x[n] == y[m];
      forall l ensures l in x[..n] <==> l in y[..m] {
        if l in x[..n] {
          assert l in y && l != y[m];
        }
        if l in y[..m] {
          assert l in x && l != x[n];
        }
      }
      SameLines(x[..n], y[..m]);
      assert x == x[..n] + [x[n]] && y == y[..m] + [y[m]];
    }
  }

  lemma {:induction false} AfterIsAFilter(lines: seq<Line>, floor: int, n: nat)
    requires n <= |lines| && Increasing(lines)
    ensures Increasing(AfterN(lines, floor, n))
    ensures forall l :: l in AfterN(lines, floor, n) <==> l in lines[..n] && l.endOffset > floor
  {
    if n != 0 {
      AfterIsAFilter(lines, floor, n - 1);
      assert lines[..n] == lines[..n - 1] + [lines[n - 1]];
    }
  }

  lemma AfterFilters(lines: seq<Line>, floor: int)
    requires Increasing(lines)
    ensures Increasing(After(lines, floor)) && (forall l :: l in After(lines, floor) <==> l in lines && l.endOffset > floor)
  {
    AfterIsAFilter(lines, floor, |lines|);
    assert lines[..|lines|] == lines;
  }

  lemma IncreasingPlus(x: seq<Line>, y: seq<Line>, lo: int, mid: int, hi: int)
    requires Increasing(x) && Increasing(y) && Within(x, lo, mid) && Within(y, mid, hi) && lo <= mid <= hi
    ensures Increasing(x + y) && Within(x + y, lo, hi)
  {
    forall i, j | 0 <= i < j < |x + y| ensures (x + y)[i].endOffset < (x + y)[j].endOffset {
      if i < |x| <= j {
        assert x[i] in x && y[j - |x|] in y;
      }
    }
  }

  lemma {:induction false} LinesIncrease(decode: Decode, b: seq<Byte>, lo: nat, hi: nat)
    requires lo <= hi <= |b|
    ensures Increasing(Lines(decode, b, lo, hi, 0)) && Within(Lines(decode, b, lo, hi, 0), lo, hi)
    decreases hi
  {
    hide Records, NonBlank, LineStart, Record, Lines;
    if lo == hi {
      NothingYetAt(decode, b, lo);
    } else {
      LinesIncrease(decode, b, lo, hi - 1);
      LinesStep(decode, b, lo, hi, 0);
      if b[hi - 1] == LF {
        var last := Kept(Record(decode, b, LineStart(b, lo, hi - 1), hi - 1, hi, 0));
        RecordEnds(decode, b, LineStart(b, lo, hi - 1), hi - 1, hi);
        IncreasingPlus(Lines(decode, b, lo, hi - 1, 0), last, lo, hi - 1, hi);
      }
    }
  }

  lemma RecordEnds(decode: Decode, b: seq<Byte>, s: nat, e: nat, end: nat)
    requires s <= e <= |b| && s < end
    ensures var x := Kept(Record(decode, b, s, e, end, 0)); Increasing(x) && Within(x, end - 1, end)
  {
  }

  lemma StretchIncreases(decode: Decode, b: seq<Byte>, lo: nat, hi: nat, flushed: bool)
    requires lo <= hi <= |b|
    ensures Increasing(Stretch(decode, b, lo, hi, flushed)) && Within(Stretch(decode, b, lo, hi, flushed), lo, hi)
  {
    hide Lines, LineStart;
    LinesIncrease(decode, b, lo, hi);
    var tail := TailLine(decode, b, lo, hi, 0);
    if flushed && tail != [] {
      var s := LineStart(b, lo, hi);
      LineStartIs(b, lo, hi);
      LinesEndByStart(decode, b, lo, hi);
      RecordEnds(decode, b, s, hi, hi);
      IncreasingPlus(Lines(decode, b, lo, hi, 0), tail, lo, s, hi);
    } else {
      assert Lines(decode, b, lo, hi, 0) + [] == Lines(decode, b, lo, hi, 0);
    }
  }

  /** The lines end where the unfinished record starts. */
  lemma LinesEndByStart(decode: Decode, b: seq<Byte>, lo: nat, hi: nat)
    requires lo <= hi <= |b|
    ensures Within(Lines(decode, b, lo, hi, 0), lo, LineStart(b, lo, hi))
  {
    hide Records, NonBlank;
    var s := LineStart(b, lo, hi);
    LinesIncrease(decode, b, lo, s);
    LineStartIs(b, lo, hi);
    LinesCutAt(decode, b, lo, s, hi);
    LineStartOfStart(b, lo, hi);
    LinesOfNone(decode, b, s, hi, 0);
    assert Lines(decode, b, lo, s, 0) + [] == Lines(decode, b, lo, s, 0);
  }

  lemma {:induction false} LineStartOfStart(b: seq<Byte>, lo: nat, hi: nat)
    requires lo <= hi <= |b|
    ensures LineStart(b, lo, LineStart(b, lo, hi)) == LineStart(b, lo, hi)
    decreases hi
  {
    if hi != lo && b[hi - 1] != LF {
      LineStartOfStart(b, lo, hi - 1);
    }
  }

  lemma {:induction false} PiecesIncrease(decode: Decode, b: seq<Byte>, cuts: seq<nat>, end: nat)
    requires cuts != [] && Sorted(cuts, end) && end <= |b|
    ensures Increasing(Pieces(decode, b, cuts, end)) && Within(Pieces(decode, b, cuts, end), cuts[0], end)
    decreases |cuts|
  {
    hide Lines, TailLine, Increasing, Within, Stretch;
    if |cuts| == 1 {
      LinesIncrease(decode, b, cuts[0], end);
    } else {
      StretchIncreases(decode, b, cuts[0], cuts[1], true);
      PiecesIncrease(decode, b, cuts[1..], end);
      IncreasingPlus(Stretch(decode, b, cuts[0], cuts[1], true), Pieces(decode, b, cuts[1..], end), cuts[0], cuts[1], end);
    }
  }

  /** A line of the pieces is a line of one of them. */
  lemma {:induction false} InPieces(decode: Decode, b: seq<Byte>, cuts: seq<nat>, end: nat, l: Line)
    requires cuts != [] && Sorted(cuts, end) && end <= |b|
    ensures l in Pieces(decode, b, cuts, end) <==> exists i :: 0 <= i < |cuts| && l in Piece(decode, b, cuts, end, i)
    decreases |cuts|
  {
    hide Lines, TailLine;
    if |cuts| == 1 {
      assert Piece(decode, b, cuts, end, 0) == Lines(decode, b, cuts[0], end, 0);
    } else {
      var rest := cuts[1..];
      InPieces(decode, b, rest, end, l);
      assert Piece(decode, b, cuts, end, 0) == Stretch(decode, b, cuts[0], cuts[1], true);
      forall i | 0 <= i < |rest| ensures Piece(decode, b, cuts, end, i + 1) == Piece(decode, b, rest, end, i) {
      }
      if i :| 0 <= i < |rest| && l in Piece(decode, b, rest, end, i) {
        assert l in Piece(decode, b, cuts, end, i + 1);
      }
      if i :| 0 <= i < |cuts| && l in Piece(decode, b, cuts, end, i) {
        assert i > 0 ==> l in Piece(decode, b, rest, end, i - 1);
      }
    }
  }

  // ---------------------------------------------------------------------
  // When a cut does no harm
  // ---------------------------------------------------------------------

  /** The line of b[lo..hi] that the byte at lies in, if it is one. */
  function LineAt(decode: Decode, b: seq<Byte>, lo: nat, hi: nat, flushed: bool, at: nat): seq<Line>
    requires lo <= at <= hi <= |b|
  {
    var s, e := LineStart(b, lo, at), NextLf(b, at, hi);
    if e < hi then Kept(Record(decode, b, s, e, e + 1, 0))
    else if flushed && s < hi then Kept(Record(decode, b, s, hi, hi, 0))
    else []
  }

  /** The follower drops them, or there are none. */
  predicate Unseen(lines: seq<Line>, floor: nat) {
    forall l :: l in lines ==> l.endOffset <= floor
  }

  /** A cut between two records does no harm, nor does the flush at the end of the file.
      Elsewhere it must not be seen: the record that is cut, and the fragments of it before
      and after the cut, are blank, not finished, or end by the floor. */
  predicate CutIsHarmless(decode: Decode, b: seq<Byte>, floor: nat, cuts: seq<nat>, end: nat, flushed: bool, i: nat)
    requires i < |cuts| && Sorted(cuts, end) && end <= |b|
  {
    var c := cuts[i];
    || LineStart(b, 0, c) == c
    || (flushed && c == end)
    || (&& (i > 0 ==> Unseen(TailLine(decode, b, cuts[i - 1], c, 0), floor))
        && Unseen(LineAt(decode, b, c, PieceEnd(cuts, end, i), i + 1 < |cuts|, c), floor)
        && Unseen(LineAt(decode, b, 0, end, flushed, c), floor))
  }

  lemma {:induction false} InNonBlank(lines: seq<Line>, n: nat, l: Line)
    requires n <= |lines|
    ensures l in NonBlank(lines, n) <==> l in lines[..n] && l.text != ""
  {
    if n != 0 {
      InNonBlank(lines, n - 1, l);
      assert lines[..n] == lines[..n - 1] + [lines[n - 1]];
    }
  }

  lemma BodyText(decode: Decode, b: seq<Byte>, s: nat, e: nat)
    requires s <= e <= |b|
    ensures decode(StripCr(b[s..e])) == decode(if s < e && b[e - 1] == 0x0D then b[s..e - 1] else b[s..e])
  {
    assert s < e ==> b[s..e][..e - s - 1] == b[s..e - 1];
  }

  /** What a stretch consists of, byte by byte. */
  lemma InStretch(decode: Decode, b: seq<Byte>, lo: nat, hi: nat, flushed: bool, l: Line)
    requires lo <= hi <= |b|
    ensures l in Stretch(decode, b, lo, hi, flushed)
       <==> || IsFullLine(decode, b, lo, hi, l)
            || (flushed && l in TailLine(decode, b, lo, hi, 0))
  {
    hide LineStart, Record;
    var records := Records(decode, b, lo, hi, 0);
    RecordsAreTheWholeLines(decode, b, lo, hi, l);
    InNonBlank(records, |records|, l);
    if IsWholeLine(b, lo, hi, l.startOffset, l.endOffset - 1) {
      BodyText(decode, b, l.startOffset, l.endOffset - 1);
    }
    assert records[..|records|] == records;
  }

  /** l is a newline-terminated line of b[lo..hi] that is not blank. */
  ghost predicate IsFullLine(decode: Decode, b: seq<Byte>, lo: nat, hi: nat, l: Line)
    requires lo <= hi <= |b|
  {
    && IsWholeLine(b, lo, hi, l.startOffset, l.endOffset - 1)
    && l.text == decode(StripCr(b[l.startOffset..l.endOffset - 1]))
    && l.text != ""
  }

  lemma FullLineAt(decode: Decode, b: seq<Byte>, lo: nat, hi: nat, at: nat, l: Line)
    requires lo <= at < hi <= |b|
    ensures IsFullLine(decode, b, lo, hi, l) && l.startOffset <= at < l.endOffset
       <==> var s, e := LineStart(b, lo, at), NextLf(b, at, hi);
            e < hi && l in Kept(Record(decode, b, s, e, e + 1, 0))
  {
    hide LineStart;
    LineStartIs(b, lo, at);
    if IsFullLine(decode, b, lo, hi, l) && l.startOffset <= at < l.endOffset {
      LineStartUnique(b, lo, at, l.startOffset);
    }
  }

  lemma TailLineAt(decode: Decode, b: seq<Byte>, lo: nat, hi: nat, at: nat, l: Line)
    requires lo <= at < hi <= |b|
    ensures l in TailLine(decode, b, lo, hi, 0) && l.startOffset <= at < l.endOffset
       <==> var s, e := LineStart(b, lo, at), NextLf(b, at, hi);
            e == hi && s < hi && l in Kept(Record(decode, b, s, hi, hi, 0))
  {
    hide LineStart;
    LineStartIs(b, lo, at);
    LineStartIs(b, lo, hi);
    var s, e, tail := LineStart(b, lo, at), NextLf(b, at, hi), LineStart(b, lo, hi);
    if e == hi {
      LineStartUnique(b, lo, hi, s);
    } else {
      assert e < tail;
    }
  }

  /** The line at a byte is the one line of the stretch that it lies in. */
  lemma LineAtIs(decode: Decode, b: seq<Byte>, lo: nat, hi: nat, flushed: bool, at: nat, l: Line)
    requires lo <= at < hi <= |b|
    ensures l in LineAt(decode, b, lo, hi, flushed, at)
       <==> l in Stretch(decode, b, lo, hi, flushed) && l.startOffset <= at < l.endOffset
  {
    hide LineStart, IsFullLine, TailLine, Stretch, Record, Kept;
    InStretch(decode, b, lo, hi, flushed, l);
    FullLineAt(decode, b, lo, hi, at, l);
    TailLineAt(decode, b, lo, hi, at, l);
  }

  // ---------------------------------------------------------------------
  // Pieces and the whole
  // ---------------------------------------------------------------------

  /** The pieces of a follower whose last flush, if flushed is set, was at the end. */
  ghost predicate AreCuts(b: seq<Byte>, cuts: seq<nat>, end: nat, flushed: bool) {
    && cuts != [] && Sorted(cuts, end) && end <= |b|
    && (flushed ==> |cuts| > 1 && cuts[|cuts| - 1] == end)
  }

  /** Where a line of a stretch lies: it has no newline inside, and starts after one. */
  lemma LineShape(decode: Decode, b: seq<Byte>, lo: nat, hi: nat, flushed: bool, l: Line)
    requires lo <= hi <= |b| && l in Stretch(decode, b, lo, hi, flushed)
    ensures lo <= l.startOffset < l.endOffset <= hi
    ensures l.startOffset == lo || b[l.startOffset - 1] == LF
    ensures forall k :: l.startOffset <= k < l.endOffset - 1 ==> b[k] != LF
    ensures b[l.endOffset - 1] == LF <==> IsFullLine(decode, b, lo, hi, l)
    ensures b[l.endOffset - 1] != LF ==> flushed && l in TailLine(decode, b, lo, hi, 0) && l.endOffset == hi
  {
    hide LineStart, Stretch;
    InStretch(decode, b, lo, hi, flushed, l);
    LineStartIs(b, lo, hi);
  }

  /** A line that starts after a newline, or at the start of the file, starts at a boundary. */
  lemma Boundary(b: seq<Byte>, c: nat)
    requires c <= |b|
    ensures LineStart(b, 0, c) == c <==> c == 0 || b[c - 1] == LF
  {
    LineStartIs(b, 0, c);
  }

  lemma PieceIsWhole(decode: Decode, b: seq<Byte>, cuts: seq<nat>, end: nat, flushed: bool, i: nat, l: Line)
    requires AreCuts(b, cuts, end, flushed) && i < |cuts| && l in Piece(decode, b, cuts, end, i)
    requires l.startOffset == cuts[i] ==> LineStart(b, 0, cuts[i]) == cuts[i]
    requires 0 < l.endOffset <= |b| && (b[l.endOffset - 1] != LF ==> flushed && l.endOffset == end)
    ensures l in Stretch(decode, b, 0, end, flushed)
  {
    hide LineStart, Stretch;
    var lo, hi := cuts[i], PieceEnd(cuts, end, i);
    LineShape(decode, b, lo, hi, i + 1 < |cuts|, l);
    Boundary(b, lo);
    InStretch(decode, b, 0, end, flushed, l);
    if b[l.endOffset - 1] != LF {
      LineStartIs(b, lo, hi);
      LineStartUnique(b, 0, end, l.startOffset);
    }
  }

  lemma {:induction false} FindPiece(cuts: seq<nat>, end: nat, at: nat, n: nat) returns (i: nat)
    requires 0 < n <= |cuts| && Sorted(cuts, end) && cuts[0] <= at
    requires n < |cuts| ==> at < cuts[n]
    ensures i < n && cuts[i] <= at && (i + 1 < |cuts| ==> at < cuts[i + 1])
  {
    if cuts[n - 1] <= at {
      i := n - 1;
    } else {
      i := FindPiece(cuts, end, at, n - 1);
    }
  }

  lemma WholeIsPiece(decode: Decode, b: seq<Byte>, cuts: seq<nat>, end: nat, flushed: bool, l: Line) returns (i: nat)
    requires AreCuts(b, cuts, end, flushed) && l in Stretch(decode, b, 0, end, flushed)
    requires cuts[0] <= l.startOffset
    requires forall k :: 0 <= k < |cuts| ==> !(l.startOffset < cuts[k] < l.endOffset)
    ensures i < |cuts| && l in Piece(decode, b, cuts, end, i)
  {
    hide LineStart, Stretch;
    LineShape(decode, b, 0, end, flushed, l);
    i := FindPiece(cuts, end, l.startOffset, |cuts|);
    var lo, hi := cuts[i], PieceEnd(cuts, end, i);
    InStretch(decode, b, lo, hi, i + 1 < |cuts|, l);
    if b[l.endOffset - 1] != LF {
      LineStartIs(b, 0, end);
      LineStartUnique(b, lo, hi, l.startOffset);
    }
  }

  ghost predicate AllHarmless(decode: Decode, b: seq<Byte>, floor: nat, cuts: seq<nat>, end: nat, flushed: bool)
    requires AreCuts(b, cuts, end, flushed)
  {
    forall i :: 0 <= i < |cuts| ==> CutIsHarmless(decode, b, floor, cuts, end, flushed, i)
  }

  lemma KeptIsWhole(decode: Decode, b: seq<Byte>, floor: nat, cuts: seq<nat>, end: nat, flushed: bool, i: nat, l: Line)
    requires AreCuts(b, cuts, end, flushed) && AllHarmless(decode, b, floor, cuts, end, flushed)
    requires i < |cuts| && l in Piece(decode, b, cuts, end, i) && l.endOffset > floor
    ensures l in Stretch(decode, b, 0, end, flushed)
  {
    hide LineStart, Stretch, LineAt, TailLine;
    var lo, hi := cuts[i], PieceEnd(cuts, end, i);
    LineShape(decode, b, lo, hi, i + 1 < |cuts|, l);
    assert CutIsHarmless(decode, b, floor, cuts, end, flushed, i);
    if l.startOffset == lo {
      LineAtIs(decode, b, lo, hi, i + 1 < |cuts|, lo, l);
    }
    if b[l.endOffset - 1] != LF {
      assert CutIsHarmless(decode, b, floor, cuts, end, flushed, i + 1);
      Boundary(b, hi);
    }
    PieceIsWhole(decode, b, cuts, end, flushed, i, l);
  }

  lemma WholeIsKept(decode: Decode, b: seq<Byte>, floor: nat, cuts: seq<nat>, end: nat, flushed: bool, l: Line)
    requires AreCuts(b, cuts, end, flushed) && AllHarmless(decode, b, floor, cuts, end, flushed) && cuts[0] <= floor
    requires l in Stretch(decode, b, 0, end, flushed) && l.endOffset > floor
    ensures exists i :: 0 <= i < |cuts| && l in Piece(decode, b, cuts, end, i)
  {
    hide LineStart, Stretch, LineAt, TailLine;
    LineShape(decode, b, 0, end, flushed, l);
    forall k | 0 <= k < |cuts| ensures !(l.startOffset < cuts[k] < l.endOffset) {
      var c := cuts[k];
      if l.startOffset < c < l.endOffset {
        assert CutIsHarmless(decode, b, floor, cuts, end, flushed, k);
        Boundary(b, c);
        LineAtIs(decode, b, 0, end, flushed, c, l);
      }
    }
    var i := WholeIsPiece(decode, b, cuts, end, flushed, l);
  }

  /** The follower keeps exactly the lines of the whole. */
  ghost predicate KeepsTheWhole(decode: Decode, b: seq<Byte>, floor: nat, cuts: seq<nat>, end: nat, flushed: bool)
    requires AreCuts(b, cuts, end, flushed)
  {
    forall l: Line :: l.endOffset > floor ==>
      (l in Stretch(decode, b, 0, end, flushed) <==> exists i :: 0 <= i < |cuts| && l in Piece(decode, b, cuts, end, i))
  }

  lemma BeforeIsUnseen(decode: Decode, b: seq<Byte>, floor: nat, cuts: seq<nat>, end: nat, flushed: bool, i: nat)
    requires AreCuts(b, cuts, end, flushed) && KeepsTheWhole(decode, b, floor, cuts, end, flushed)
    requires 0 < i < |cuts| && !(flushed && cuts[i] == end)
    ensures Unseen(TailLine(decode, b, cuts[i - 1], cuts[i], 0), floor)
  {
    hide LineStart, Stretch, TailLine;
    var lo, c := cuts[i - 1], cuts[i];
    forall l | l in TailLine(decode, b, lo, c, 0) ensures l.endOffset <= floor {
      InStretch(decode, b, lo, c, true, l);
      TailShape(decode, b, lo, c, l);
      if l.endOffset > floor {
        assert l in Piece(decode, b, cuts, end, i - 1);
        LineShape(decode, b, 0, end, flushed, l);
      }
    }
  }

  lemma TailShape(decode: Decode, b: seq<Byte>, lo: nat, hi: nat, l: Line)
    requires lo <= hi <= |b| && l in TailLine(decode, b, lo, hi, 0)
    ensures lo <= l.startOffset < l.endOffset == hi && b[hi - 1] != LF
  {
    LineStartIs(b, lo, hi);
  }

  lemma AfterIsUnseen(decode: Decode, b: seq<Byte>, floor: nat, cuts: seq<nat>, end: nat, flushed: bool, i: nat)
    requires AreCuts(b, cuts, end, flushed) && KeepsTheWhole(decode, b, floor, cuts, end, flushed)
    requires i < |cuts| && LineStart(b, 0, cuts[i]) != cuts[i]
    ensures Unseen(LineAt(decode, b, cuts[i], PieceEnd(cuts, end, i), i + 1 < |cuts|, cuts[i]), floor)
  {
    hide LineStart, Stretch, LineAt;
    var c, hi := cuts[i], PieceEnd(cuts, end, i);
    Boundary(b, c);
    if c == hi {
      NoLineAtEnd(decode, b, c, i + 1 < |cuts|);
    } else {
      forall l | l in LineAt(decode, b, c, hi, i + 1 < |cuts|, c) ensures l.endOffset <= floor {
        LineAtIs(decode, b, c, hi, i + 1 < |cuts|, c, l);
        LineShape(decode, b, c, hi, i + 1 < |cuts|, l);
        if l.endOffset > floor {
          assert l in Piece(decode, b, cuts, end, i);
          LineShape(decode, b, 0, end, flushed, l);
        }
      }
    }
  }

  lemma NoLineAtEnd(decode: Decode, b: seq<Byte>, c: nat, flushed: bool)
    requires c <= |b|
    ensures LineAt(decode, b, c, c, flushed, c) == []
  {
  }

  lemma CutRecordIsUnseen(decode: Decode, b: seq<Byte>, floor: nat, cuts: seq<nat>, end: nat, flushed: bool, i: nat)
    requires AreCuts(b, cuts, end, flushed) && KeepsTheWhole(decode, b, floor, cuts, end, flushed)
    requires i < |cuts| && LineStart(b, 0, cuts[i]) != cuts[i] && !(flushed && cuts[i] == end)
    ensures Unseen(LineAt(decode, b, 0, end, flushed, cuts[i]), floor)
  {
    hide LineStart, Stretch;
    var c := cuts[i];
    Boundary(b, c);
    if c < end {
      hide LineAt;
      forall l | l in LineAt(decode, b, 0, end, flushed, c) ensures l.endOffset <= floor {
        LineAtIs(decode, b, 0, end, flushed, c, l);
        LineShape(decode, b, 0, end, flushed, l);
        if l.endOffset > floor {
          var j :| 0 <= j < |cuts| && l in Piece(decode, b, cuts, end, j);
          LineShape(decode, b, cuts[j], PieceEnd(cuts, end, j), j + 1 < |cuts|, l);
        }
      }
    }
  }

  lemma WholeExactly(decode: Decode, b: seq<Byte>, floor: nat, cuts: seq<nat>, end: nat, flushed: bool)
    requires AreCuts(b, cuts, end, flushed) && cuts[0] <= floor
    ensures KeepsTheWhole(decode, b, floor, cuts, end, flushed) <==> AllHarmless(decode, b, floor, cuts, end, flushed)
  {
    hide LineStart, Stretch, LineAt, TailLine, Piece;
    if AllHarmless(decode, b, floor, cuts, end, flushed) {
      forall l: Line | l.endOffset > floor
        ensures l in Stretch(decode, b, 0, end, flushed) <==> exists i :: 0 <= i < |cuts| && l in Piece(decode, b, cuts, end, i)
      {
        if l in Stretch(decode, b, 0, end, flushed) {
          WholeIsKept(decode, b, floor, cuts, end, flushed, l);
        }
        if i :| 0 <= i < |cuts| && l in Piece(decode, b, cuts, end, i) {
          KeptIsWhole(decode, b, floor, cuts, end, flushed, i, l);
        }
      }
    }
    if KeepsTheWhole(decode, b, floor, cuts, end, flushed) {
      hide KeepsTheWhole;
      forall i | 0 <= i < |cuts| ensures CutIsHarmless(decode, b, floor, cuts, end, flushed, i) {
        if LineStart(b, 0, cuts[i]) != cuts[i] && !(flushed && cuts[i] == end) {
          if i > 0 {
            BeforeIsUnseen(decode, b, floor, cuts, end, flushed, i);
          }
          AfterIsUnseen(decode, b, floor, cuts, end, flushed, i);
          CutRecordIsUnseen(decode, b, floor, cuts, end, flushed, i);
        }
      }
    }
  }

  // ---------------------------------------------------------------------
  // The follower
  // ---------------------------------------------------------------------

  /** A read has flushed at the end of the file as it finally is. */
  ghost predicate FlushedAtTheEnd(file: seq<Byte>, cuts: seq<nat>) {
    |cuts| > 1 && cuts[|cuts| - 1] == |file|
  }

  /** After any growths, short reads and flushes the follower has kept exactly the file's
      lines that end after the floor (the unterminated one as well if it flushed at the end
      of the file) if and only if no cut is seen: neither the one where the overlap starts
      nor one that a flush made before the end of the file. */
  lemma FollowIsExact(decode: Decode, file: seq<Byte>, floor: nat, polls: seq<Poll>)
    requires floor <= |file|
    requires AppendOnly(file, OverlapStart(floor), OverlapStart(floor), polls)
    ensures var start := OverlapStart(floor);
      var d, cuts := ReadAll(decode, file, start, [], start, polls), Cuts(start, start, polls);
      var flushed := FlushedAtTheEnd(file, cuts);
      && AreCuts(file, cuts, d.nextOffset, flushed)
      && (After(d.lines, floor) == After(Stretch(decode, file, 0, d.nextOffset, flushed), floor)
          <==> forall i :: 0 <= i < |cuts| ==> CutIsHarmless(decode, file, floor, cuts, d.nextOffset, flushed, i))
  {
    hide Records, NonBlank, LineStart, Stretch, ReadAll, Cuts, Lines, CutIsHarmless, Increasing, Pieces, Piece;
    var start := OverlapStart(floor);
    var d, cuts, end := ReadAll(decode, file, start, [], start, polls), Cuts(start, start, polls), LastOffset(start, polls);
    var flushed := FlushedAtTheEnd(file, cuts);
    NothingYetAt(decode, file, start);
    ReadsArePieces(decode, file, start, start, [], start, polls);
    CutsAreSorted(file, start, start, start, polls);
    assert [] + d.lines == d.lines;
    PiecesIncrease(decode, file, cuts, end);
    StretchIncreases(decode, file, 0, end, flushed);
    WholeExactly(decode, file, floor, cuts, end, flushed);
    SameAfter(decode, file, floor, cuts, end, flushed);
  }

  lemma SameAfter(decode: Decode, b: seq<Byte>, floor: nat, cuts: seq<nat>, end: nat, flushed: bool)
    requires AreCuts(b, cuts, end, flushed)
    requires Increasing(Pieces(decode, b, cuts, end)) && Increasing(Stretch(decode, b, 0, end, flushed))
    ensures After(Pieces(decode, b, cuts, end), floor) == After(Stretch(decode, b, 0, end, flushed), floor)
       <==> KeepsTheWhole(decode, b, floor, cuts, end, flushed)
  {
    hide Increasing, Pieces, Piece, Stretch, After;
    var kept, whole := Pieces(decode, b, cuts, end), Stretch(decode, b, 0, end, flushed);
    AfterFilters(kept, floor);
    AfterFilters(whole, floor);
    forall l: Line ensures l in kept <==> exists i :: 0 <= i < |cuts| && l in Piece(decode, b, cuts, end, i) {
      InPieces(decode, b, cuts, end, l);
    }
    if KeepsTheWhole(decode, b, floor, cuts, end, flushed) {
      SameLines(After(kept, floor), After(whole, floor));
    }
  }

  /** Flushing while a record is being written is seen: two letters and a newline, read as
      one byte and then the rest, both with the flush. */
  lemma FlushingFollowerTruncates(decode: Decode, file: seq<Byte>)
    requires |file| == 3 && file[0] != LF && file[1] != LF && file[2] == LF
    requires decode(StripCr(file[0..1])) != ""
    ensures var polls := [Poll(1, 1, true), Poll(3, 2, true)];
      && AppendOnly(file, 0, 0, polls)
      && var d := ReadAll(decode, file, 0, [], 0, polls);
         d.nextOffset == 3 && After(d.lines, 0) != After(Lines(decode, file, 0, 3, 0) + TailLine(decode, file, 0, 3, 0), 0)
  {
    hide Records, NonBlank, ReadDelta;
    var polls := [Poll(1, 1, true), Poll(3, 2, true)];
    assert polls[1..] == [Poll(3, 2, true)] && polls[1..][1..] == [];
    assert AppendOnly(file, 3, 3, []);
    assert AppendOnly(file, 1, 1, [Poll(3, 2, true)]);
    assert Cuts(3, 3, []) == [3];
    assert Cuts(1, 1, [Poll(3, 2, true)]) == [1, 3];
    assert Cuts(0, 0, polls) == [0, 1, 3];
    FollowIsExact(decode, file, 0, polls);
    ReadsArePieces(decode, file, 0, 0, [], 0, polls);
    var first := Record(decode, file, 0, 1, 1, 0);
    assert LineStart(file, 0, 0) == 0 && LineStart(file, 0, 1) == 0;
    assert TailLine(decode, file, 0, 1, 0) == [first] && first in [first];
    assert !CutIsHarmless(decode, file, 0, [0, 1, 3], 3, true, 1);
  }
}
