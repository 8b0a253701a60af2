/** Bounded texts (src/codex-exec/jsonl-log-mirror.js, src/codex-exec/telegram-exec-runner.js).

    A text is a sequence of UTF-16 code units, but limits count UTF-8 bytes
    (section 3 of RFC 3629); an unpaired surrogate is written as U+FFFD. */
module Utf8Tail {

  type Unit = u: int | 0 <= u < 0x1_0000
  type Text = seq<Unit>

  const NEWLINE: Unit := 0x0A

  const STDERR_TAIL_LINES: nat := 20
  const STDERR_TAIL_MAX_BYTES: nat := 16 * 1024
  const STDERR_TAIL_LINE_MAX_BYTES: nat := 2 * 1024

  predicate IsHigh(u: Unit) { 0xD800 <= u < 0xDC00 }

  predicate IsLow(u: Unit) { 0xDC00 <= u < 0xE000 }

  function UnitBytes(u: Unit): nat {
    if u < 0x80 then 1 else if u < 0x800 then 2 else 3
  }

  /** The units at i - 1 and i form a surrogate pair: one character of four bytes. */
  predicate IsPairEnd(t: Text, i: int) {
    0 < i < |t| && IsLow(t[i]) && IsHigh(t[i - 1])
  }

  /** The UTF-8 length of the first n units, cut there even inside a pair. */
  function PrefixBytes(t: Text, n: nat): (bytes: nat)
    requires n <= |t|
  {
    if n == 0 then 0
    else if IsPairEnd(t, n - 1) then PrefixBytes(t, n - 2) + 4
    else PrefixBytes(t, n - 1) + UnitBytes(t[n - 1])
  }

  function ByteLength(t: Text): nat {
    PrefixBytes(t, |t|)
  }

  /** One more unit always costs bytes: one when it completes a pair, whose first half
      alone had counted for three. */
  lemma {:induction false} PrefixBytesGrow(t: Text, n: nat)
    requires n < |t|
    ensures PrefixBytes(t, n + 1) - PrefixBytes(t, n) == if IsPairEnd(t, n) then 1 else UnitBytes(t[n])
  {
    if IsPairEnd(t, n) {
      assert !IsPairEnd(t, n - 1);
    }
  }

  lemma {:induction false} PrefixBytesMonotone(t: Text, m: nat, n: nat)
    requires m <= n <= |t|
    ensures n - m <= PrefixBytes(t, n) - PrefixBytes(t, m) <= 3 * (n - m)
  {
    if m < n {
      PrefixBytesMonotone(t, m, n - 1);
      PrefixBytesGrow(t, n - 1);
    }
  }

  lemma {:induction false} PrefixOfConcat(a: Text, b: Text, n: nat)
    requires n <= |a|
    ensures PrefixBytes(a + b, n) == PrefixBytes(a, n)
  {
    if n != 0 {
      PrefixOfConcat(a, b, n - 1);
      if IsPairEnd(a, n - 1) {
        PrefixOfConcat(a, b, n - 2);
      }
    }
  }

  predicate Joins(a: Text, b: Text) {
    a != [] && b != [] && IsHigh(a[|a| - 1]) && IsLow(b[0])
  }

  /** Lengths add up, except that halves meeting at the seam save two bytes. */
  lemma {:induction false} ConcatBytes(a: Text, b: Text, n: nat)
    requires n <= |b|
    ensures PrefixBytes(a + b, |a| + n) == ByteLength(a) + PrefixBytes(b, n) - if n > 0 && Joins(a, b) then 2 else 0
  {
    if n == 0 {
      PrefixOfConcat(a, b, |a|);
    } else {
      ConcatBytes(a, b, n - 1);
      PrefixBytesGrow(a + b, |a| + n - 1);
      PrefixBytesGrow(b, n - 1);
      assert IsPairEnd(a + b, |a| + n - 1) <==> IsPairEnd(b, n - 1) || (n == 1 && Joins(a, b));
    }
  }

  lemma PrefixIsByteLength(t: Text, n: nat)
    requires n <= |t|
    ensures ByteLength(t[..n]) == PrefixBytes(t, n)
  {
    PrefixOfConcat(t[..n], t[n..], n);
    assert t[..n] + t[n..] == t;
  }

  // ---------------------------------------------------------------------
  // The encoding itself
  // ---------------------------------------------------------------------

  /** The UTF-8 bytes of a character, by its code point (section 3 of RFC 3629). */
  function CharacterBytes(c: nat): (bytes: seq<nat>)
    requires c < 0x11_0000
    ensures forall i :: 0 <= i < |bytes| ==> bytes[i] < 0x100 && (i > 0 ==> bytes[i] / 0x40 == 2)
  {
    if c < 0x80 then [c]
    else if c < 0x800 then [0xC0 + c / 0x40, 0x80 + c % 0x40]
    else if c < 0x1_0000 then [0xE0 + c / 0x1000, 0x80 + c / 0x40 % 0x40, 0x80 + c % 0x40]
    else [0xF0 + c / 0x4_0000, 0x80 + c / 0x1000 % 0x40, 0x80 + c / 0x40 % 0x40, 0x80 + c % 0x40]
  }

  /** The characters of the first n units: a pair of surrogates is one, an unpaired one is
      replaced by U+FFFD. */
  function Characters(t: Text, n: nat): (cs: seq<nat>)
    requires n <= |t|
    ensures forall i :: 0 <= i < |cs| ==> cs[i] < 0x11_0000
  {
    if n == 0 then []
    else
      var u := t[n - 1];
      if 0xDC00 <= u < 0xE000 && n >= 2 && 0xD800 <= t[n - 2] < 0xDC00 then
        Characters(t, n - 2) + [0x1_0000 + (t[n - 2] as int - 0xD800) * 0x400 + (u as int - 0xDC00)]
      else Characters(t, n - 1) + [if 0xD800 <= u < 0xE000 then 0xFFFD else u]
  }

  function Encoded(cs: seq<nat>, n: nat): seq<nat>
    requires n <= |cs| && (forall i :: 0 <= i < |cs| ==> cs[i] < 0x11_0000)
  {
    if n == 0 then [] else Encoded(cs, n - 1) + CharacterBytes(cs[n - 1])
  }

  lemma {:induction false} EncodedPrefix(x: seq<nat>, y: seq<nat>, n: nat)
    requires n <= |x| && (forall i :: 0 <= i < |x + y| ==> (x + y)[i] < 0x11_0000) && (forall i :: 0 <= i < |x| ==> x[i] < 0x11_0000)
    ensures Encoded(x + y, n) == Encoded(x, n)
  {
    hide CharacterBytes;
    if n != 0 {
      EncodedPrefix(x, y, n - 1);
    }
  }

  /** The byte lengths counted are those of the encoded text. */
  lemma {:induction false} PrefixBytesAreEncoded(t: Text, n: nat)
    requires n <= |t|
    ensures |Encoded(Characters(t, n), |Characters(t, n)|)| == PrefixBytes(t, n)
  {
    if n != 0 {
      var k := if IsPairEnd(t, n - 1) then n - 2 else n - 1;
      PrefixBytesAreEncoded(t, k);
      var before, cs := Characters(t, k), Characters(t, n);
      EncodedPrefix(before, [cs[|before|]], |before|);
      assert cs == before + [cs[|before|]];
    }
  }

  // ---------------------------------------------------------------------
  // truncateUtf8
  // ---------------------------------------------------------------------

  function Available(maxBytes: nat, suffix: Text): nat {
    if maxBytes < ByteLength(suffix) then 0 else maxBytes - ByteLength(suffix)
  }

  /** The longest prefix of t, of at most n units, within a limit: a linear search. */
  function LongestPrefix(t: Text, limit: nat, n: nat): (k: nat)
    requires n <= |t|
    ensures k <= n && PrefixBytes(t, k) <= limit
    ensures forall i :: k < i <= n ==> PrefixBytes(t, i) > limit
  {
    if PrefixBytes(t, n) <= limit then n else LongestPrefix(t, limit, n - 1)
  }

  /** The text itself if it fits, else its longest prefix that leaves room for the
      suffix, followed by the suffix. */
  function Truncated(text: Text, maxBytes: nat, suffix: Text): Text {
    if ByteLength(text) <= maxBytes then text
    else text[..LongestPrefix(text, Available(maxBytes, suffix), |text|)] + suffix
  }

  /** The binary search, which relies on PrefixBytesMonotone. */
  method TruncateUtf8(text: Text, maxBytes: nat, suffix: Text) returns (r: Text)
    ensures r == Truncated(text, maxBytes, suffix)
  {
    if ByteLength(text) <= maxBytes {
      return text;
    }
    var availableBytes := Available(maxBytes, suffix);
    var low, high := 0, |text|;
    while low < high
      invariant 0 <= low <= high <= |text|
      invariant PrefixBytes(text, low) <= availableBytes
      invariant forall k :: high < k <= |text| ==> PrefixBytes(text, k) > availableBytes
    {
      var mid := (low + high + 1) / 2;
      PrefixIsByteLength(text, mid);
      if ByteLength(text[..mid]) <= availableBytes {
        low := mid;
      } else {
        forall k | mid <= k <= |text| ensures PrefixBytes(text, k) > availableBytes {
          PrefixBytesMonotone(text, mid, k);
        }
        high := mid - 1;
      }
    }
    return text[..low] + suffix;
  }

  /** A text that fits is returned as it is; of one that does not, the result keeps a
      prefix that leaves room for the suffix, and no longer prefix would. */
  lemma TruncatedKeepsTheMost(text: Text, maxBytes: nat, suffix: Text)
    ensures ByteLength(text) <= maxBytes ==> Truncated(text, maxBytes, suffix) == text
    ensures ByteLength(text) > maxBytes ==>
      exists k :: 0 <= k <= |text| && Truncated(text, maxBytes, suffix) == text[..k] + suffix
                  && (k == 0 || ByteLength(text[..k]) + ByteLength(suffix) <= maxBytes)
                  && (forall j :: k < j <= |text| ==> ByteLength(text[..j]) + ByteLength(suffix) > maxBytes)
  {
    if ByteLength(text) > maxBytes {
      var k := LongestPrefix(text, Available(maxBytes, suffix), |text|);
      forall j | 0 <= j <= |text| ensures ByteLength(text[..j]) == PrefixBytes(text, j) {
        PrefixIsByteLength(text, j);
      }
      if k != 0 {
        PrefixBytesMonotone(text, 0, k);
      }
      forall j | k < j <= |text| ensures ByteLength(text[..j]) + ByteLength(suffix) > maxBytes {
        assert PrefixBytes(text, j) > Available(maxBytes, suffix);
      }
      assert Truncated(text, maxBytes, suffix) == text[..k] + suffix;
    }
  }

  /** The result keeps the limit; only the suffix is never cut. */
  lemma TruncatedFits(text: Text, maxBytes: nat, suffix: Text)
    ensures ByteLength(Truncated(text, maxBytes, suffix))
         <= if maxBytes < ByteLength(suffix) then ByteLength(suffix) else maxBytes
  {
    if ByteLength(text) > maxBytes {
      var n := LongestPrefix(text, Available(maxBytes, suffix), |text|);
      PrefixIsByteLength(text, n);
      ConcatBytes(text[..n], suffix, |suffix|);
    }
  }

  /** And one unit more would not have: no longer prefix with the suffix keeps the
      limit, unless the suffix completes a pair. */
  lemma TruncatedIsTight(text: Text, maxBytes: nat, suffix: Text, n: nat)
    requires ByteLength(text) > maxBytes >= ByteLength(suffix)
    requires LongestPrefix(text, Available(maxBytes, suffix), |text|) < n <= |text|
    requires suffix == [] || !IsLow(suffix[0])
    ensures ByteLength(text[..n] + suffix) > maxBytes
  {
    PrefixIsByteLength(text, n);
    ConcatBytes(text[..n], suffix, |suffix|);
  }

  // ---------------------------------------------------------------------
  // rememberTail
  // ---------------------------------------------------------------------

  function Join(lines: seq<Text>): Text {
    if lines == [] then []
    else if |lines| == 1 then lines[0]
    else Join(lines[..|lines| - 1]) + [NEWLINE] + lines[|lines| - 1]
  }

  function TailBytes(lines: seq<Text>): nat {
    ByteLength(Join(lines))
  }

  lemma {:induction false} AddLine(lines: seq<Text>, x: Text)
    requires lines != []
    ensures TailBytes(lines + [x]) == TailBytes(lines) + 1 + ByteLength(x)
  {
    var a := Join(lines);
    assert (lines + [x])[..|lines|] == lines;
    ConcatBytes(a, [NEWLINE], 1);
    ConcatBytes(a + [NEWLINE], x, |x|);
    assert PrefixBytes([NEWLINE], 1) == 1;
  }

  predicate Fits(lines: seq<Text>, maxLines: nat, maxBytes: nat) {
    |lines| <= maxLines && TailBytes(lines) <= maxBytes
  }

  /** lines is a suffix of the history, and no longer one fits both limits. */
  ghost predicate NoLongerFits(lines: seq<Text>, history: seq<Text>, maxLines: nat, maxBytes: nat) {
    && |lines| <= |history|
    && lines == history[|history| - |lines|..]
    && forall k :: 0 <= k < |history| - |lines| ==> !Fits(history[k..], maxLines, maxBytes)
  }

  lemma {:induction false} FitsWithoutNewest(lines: seq<Text>, x: Text, maxLines: nat, maxBytes: nat)
    requires Fits(lines + [x], maxLines, maxBytes)
    ensures Fits(lines, maxLines, maxBytes)
  {
    if lines != [] {
      AddLine(lines, x);
    }
  }

  /** The bounded tail of a stream of lines.  history is what has been offered to it,
      truncated, without the lines that were empty. */
  class StderrTail {
    var lines: seq<Text>
    ghost var history: seq<Text>
    const maxLines: nat
    const maxBytes: nat
    const maxLineBytes: nat
    const suffix: Text

    ghost predicate Valid()
      reads this
    {
      NoLongerFits(lines, history, maxLines, maxBytes) && Fits(lines, maxLines, maxBytes)
    }

    constructor (suffix: Text, maxLines: nat := STDERR_TAIL_LINES, maxBytes: nat := STDERR_TAIL_MAX_BYTES,
                 maxLineBytes: nat := STDERR_TAIL_LINE_MAX_BYTES)
      ensures Valid() && lines == [] && history == []
      ensures this.maxLines == maxLines && this.maxBytes == maxBytes
      ensures this.maxLineBytes == maxLineBytes && this.suffix == suffix
    {
      this.maxLines, this.maxBytes, this.maxLineBytes, this.suffix := maxLines, maxBytes, maxLineBytes, suffix;
      lines, history := [], [];
    }

    /** Keeps the longest suffix of the history that fits both limits.  line is taken
        without its trailing white space. */
    method RememberTail(line: Text)
      requires Valid()
      modifies this
      ensures Valid()
      ensures var normalized := Truncated(line, maxLineBytes, suffix);
              history == if normalized == [] then old(history) else old(history) + [normalized]
      ensures lines == history[|history| - |lines|..] && |lines| <= maxLines && ByteLength(Join(lines)) <= maxBytes
      ensures forall k :: 0 <= k < |history| - |lines| ==> |history| - k > maxLines || ByteLength(Join(history[k..])) > maxBytes
    {
      var normalized := TruncateUtf8(line, maxLineBytes, suffix);
      if normalized == [] {
        return;
      }
      Pushed(lines, history, normalized, maxLines, maxBytes);
      lines := lines + [normalized];
      history := history + [normalized];
      hide NoLongerFits;
      while |lines| > maxLines || TailBytes(lines) > maxBytes
        invariant NoLongerFits(lines, history, maxLines, maxBytes)
        invariant history == old(history) + [normalized]
        decreases |lines|
      {
        Shifted(lines, history, maxLines, maxBytes);
        lines := lines[1..];
      }
    }
  }

  lemma Shifted(lines: seq<Text>, history: seq<Text>, maxLines: nat, maxBytes: nat)
    requires NoLongerFits(lines, history, maxLines, maxBytes) && !Fits(lines, maxLines, maxBytes)
    ensures lines != [] && NoLongerFits(lines[1..], history, maxLines, maxBytes)
  {
  }

  /** After a push, only suffixes of the old tail and the new line can fit. */
  lemma Pushed(tail: seq<Text>, history: seq<Text>, x: Text, maxLines: nat, maxBytes: nat)
    requires NoLongerFits(tail, history, maxLines, maxBytes)
    ensures NoLongerFits(tail + [x], history + [x], maxLines, maxBytes)
  {
    forall k | 0 <= k < |history| - |tail|
      ensures !Fits((history + [x])[k..], maxLines, maxBytes)
    {
      assert (history + [x])[k..] == history[k..] + [x];
      if Fits((history + [x])[k..], maxLines, maxBytes) {
        FitsWithoutNewest(history[k..], x, maxLines, maxBytes);
      }
    }
  }
}
