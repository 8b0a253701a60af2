/** Rewriting the MCP tables of a Codex configuration (src/hosts/codex-mcp-config.js).

    A text is the sequence of its lines, as split at the newlines: a text that ends in a
    newline ends in an empty line.  Of a line the code asks whether it opens a table, an
    MCP table, or one MCP server, and how much white space ends it. */
module McpConfig {
  import opened Options

  type Name = string
  type Content = string

  /** A line that opens no table; an MCP server is described by its command and arguments. */
  datatype Setting = Command(program: string) | Args(values: seq<string>) | Other(text: Content)

  datatype Kind =
    | Blank
    | McpServer(name: Name)
    | McpOther(header: Content)
    | Table(header: Content)
    | Text(setting: Setting)

  /** A line: what it says, and the number of white-space characters at its end. */
  datatype Line = Line(kind: Kind, padding: nat)

  type Lines = seq<Line>

  const Empty := Line(Blank, 0)

  predicate IsTomlTableHeader(line: Line) {
    line.kind.McpServer? || line.kind.McpOther? || line.kind.Table?
  }

  predicate IsMcpServerTableHeader(line: Line) {
    line.kind.McpServer? || line.kind.McpOther?
  }

  // ---------------------------------------------------------------------
  // Tidying: runs of newlines, white space at the end
  // ---------------------------------------------------------------------

  /** The first n lines without those an empty line of which follows another one, from
      index lead on.  Shortening every run of three newlines to two keeps two empty
      lines at the start of a text (lead is 2) and one anywhere else. */
  function Squeeze(lines: Lines, lead: nat, n: nat): Lines
    requires 1 <= lead && n <= |lines|
  {
    if n == 0 then []
    else if n - 1 >= lead && lines[n - 1] == Empty && lines[n - 2] == Empty then Squeeze(lines, lead, n - 1)
    else Squeeze(lines, lead, n - 1) + [lines[n - 1]]
  }

  /** The first n lines without the blank ones, and the white space, at their end. */
  function TrimEnd(lines: Lines, n: nat): Lines
    requires n <= |lines|
  {
    if n == 0 then []
    else if lines[n - 1].kind.Blank? then TrimEnd(lines, n - 1)
    else lines[..n - 1] + [Line(lines[n - 1].kind, 0)]
  }

  function Tidy(output: Lines): Lines {
    Finish(Squeeze(output, 2, |output|))
  }

  function Finish(squeezed: Lines): Lines {
    Close(TrimEnd(squeezed, |squeezed|))
  }

  /** A trimmed text with its final newline. */
  function Close(trimmed: Lines): Lines {
    (if trimmed == [] then [Empty] else trimmed) + [Empty]
  }

  // ---------------------------------------------------------------------
  // The same on the text, where lines are separated by newlines
  // ---------------------------------------------------------------------

  /** A newline, or what is written on a line that is not empty. */
  datatype Token = Newline | Written(line: Line)

  function LineTokens(line: Line): seq<Token> {
    if line == Empty then [] else [Written(line)]
  }

  /** The first n lines joined by newlines. */
  function Joined(lines: Lines, n: nat): seq<Token>
    requires n <= |lines|
  {
    if n == 0 then []
    else if n == 1 then LineTokens(lines[0])
    else Joined(lines, n - 1) + [Newline] + LineTokens(lines[n - 1])
  }

  predicate EndsInNewline(text: seq<Token>) {
    text != [] && text[|text| - 1] == Newline
  }

  predicate EndsInTwo(text: seq<Token>) {
    |text| >= 2 && text[|text| - 1] == Newline && text[|text| - 2] == Newline
  }

  /** The text with every run of three or more newlines cut to two: a newline goes if two
      others stand right before it. */
  function Collapsed(text: seq<Token>, n: nat): seq<Token>
    requires n <= |text|
  {
    if n == 0 then []
    else if n >= 3 && text[n - 1] == Newline && text[n - 2] == Newline && text[n - 3] == Newline then Collapsed(text, n - 1)
    else Collapsed(text, n - 1) + [text[n - 1]]
  }

  /** The text without the white space at its end. */
  function TrimmedText(text: seq<Token>, n: nat): seq<Token>
    requires n <= |text|
  {
    if n == 0 then []
    else if text[n - 1] == Newline || text[n - 1].line.kind.Blank? then TrimmedText(text, n - 1)
    else text[..n - 1] + [Written(Line(text[n - 1].line.kind, 0))]
  }

  lemma {:induction false} CollapsedPrefix(text: seq<Token>, more: seq<Token>, n: nat)
    requires n <= |text|
    ensures Collapsed(text + more, n) == Collapsed(text, n)
  {
    if n != 0 {
      CollapsedPrefix(text, more, n - 1);
    }
  }

  lemma CollapsedStep(text: seq<Token>, n: nat)
    requires 0 < n <= |text|
    ensures Collapsed(text, n)
         == if n >= 3 && text[n - 1] == Newline && text[n - 2] == Newline && text[n - 3] == Newline then Collapsed(text, n - 1)
            else Collapsed(text, n - 1) + [text[n - 1]]
  {
  }

  lemma CollapsedPlus(text: seq<Token>, t: Token)
    ensures Collapsed(text + [t], |text + [t]|)
         == if t == Newline && EndsInTwo(text) then Collapsed(text, |text|) else Collapsed(text, |text|) + [t]
  {
    hide Collapsed;
    CollapsedPrefix(text, [t], |text|);
    CollapsedStep(text + [t], |text| + 1);
  }

  /** The last of the first n lines is left out by squeezing. */
  predicate LeftOut(lines: Lines, n: nat)
    requires n <= |lines|
  {
    n >= 3 && lines[n - 1] == Empty && lines[n - 2] == Empty
  }

  lemma {:induction false} TrailingNewlines(lines: Lines, n: nat)
    requires n <= |lines|
    ensures EndsInNewline(Joined(lines, n)) <==> n >= 2 && lines[n - 1] == Empty
    ensures EndsInTwo(Joined(lines, n)) <==> LeftOut(lines, n)
  {
    if n >= 2 {
      TrailingNewlines(lines, n - 1);
      var before, text := Joined(lines, n - 1), Joined(lines, n);
      if lines[n - 1] == Empty {
        assert text == before + [Newline];
        assert text[|text| - 1] == Newline;
        assert before != [] ==> text[|text| - 2] == before[|before| - 1];
      } else {
        assert text[|text| - 1] == Written(lines[n - 1]);
      }
    }
  }

  lemma JoinedPlus(lines: Lines, line: Line)
    ensures Joined(lines + [line], |lines| + 1)
         == if lines == [] then LineTokens(line) else Joined(lines, |lines|) + [Newline] + LineTokens(line)
  {
    JoinedPrefix(lines, [line], |lines|);
  }

  lemma {:induction false} JoinedPrefix(lines: Lines, more: Lines, n: nat)
    requires n <= |lines|
    ensures Joined(lines + more, n) == Joined(lines, n)
  {
    if n != 0 {
      JoinedPrefix(lines, more, n - 1);
    }
  }

  /** Squeezing the lines collapses the newlines between them; one newline more is left
      for an empty line left out at the end. */
  lemma {:induction false} SqueezingCollapses(lines: Lines, n: nat)
    requires n <= |lines|
    ensures var squeezed := Squeeze(lines, 2, n);
      && (squeezed == [] <==> n == 0)
      && Collapsed(Joined(lines, n), |Joined(lines, n)|)
         == Joined(squeezed, |squeezed|) + (if LeftOut(lines, n) then [Newline] else [])
  {
    hide Joined, Collapsed, EndsInTwo, EndsInNewline;
    if n == 0 {
      JoinedNone(lines);
      JoinedNone([]);
    } else if n == 1 {
      JoinedNone(lines);
      SqueezingCollapses(lines, 0);
      JoinedPlus([], lines[0]);
      CollapsedPlus([], Written(lines[0]));
      assert [] + [lines[0]] == [lines[0]];
      assert [] + [Written(lines[0])] == [Written(lines[0])];
    } else {
      SqueezingCollapses(lines, n - 1);
      TrailingNewlines(lines, n - 1);
      var before, line, squeezed := Joined(lines, n - 1), lines[n - 1], Squeeze(lines, 2, n - 1);
      JoinedStep(lines, n);
      CollapsedPlus(before, Newline);
      CollapsedPlus(before + [Newline], Written(line));
      JoinedPlus(squeezed, line);
      assert line == Empty ==> Joined(lines, n) == before + [Newline];
    }
  }

  lemma TrimmedTextStep(text: seq<Token>, n: nat)
    requires 0 < n <= |text|
    ensures TrimmedText(text, n)
         == if text[n - 1] == Newline || text[n - 1].line.kind.Blank? then TrimmedText(text, n - 1)
            else text[..n - 1] + [Written(Line(text[n - 1].line.kind, 0))]
  {
  }

  lemma {:induction false} TrimmedTextPrefix(text: seq<Token>, more: seq<Token>, n: nat)
    requires n <= |text|
    ensures TrimmedText(text + more, n) == TrimmedText(text, n)
  {
    if n != 0 {
      TrimmedTextPrefix(text, more, n - 1);
      assert (text + more)[..n - 1] == text[..n - 1];
    }
  }

  lemma TrimmedTextPlus(text: seq<Token>, t: Token)
    ensures TrimmedText(text + [t], |text + [t]|)
         == if t == Newline || t.line.kind.Blank? then TrimmedText(text, |text|) else text + [Written(Line(t.line.kind, 0))]
  {
    hide TrimmedText;
    TrimmedTextPrefix(text, [t], |text|);
    TrimmedTextStep(text + [t], |text| + 1);
    assert (text + [t])[..|text|] == text;
  }

  /** Trimming the lines trims the text. */
  lemma {:induction false} TrimmingLinesTrims(lines: Lines, n: nat)
    requires n <= |lines|
    ensures var trimmed := TrimEnd(lines, n);
      TrimmedText(Joined(lines, n), |Joined(lines, n)|) == Joined(trimmed, |trimmed|)
  {
    hide Joined, TrimmedText;
    JoinedNone(lines);
    JoinedNone([]);
    TrimmedNone();
    if n != 0 {
      var line := lines[n - 1];
      var before := if n == 1 then [] else Joined(lines, n - 1) + [Newline];
      if n == 1 {
        assert [] + LineTokens(line) == LineTokens(line);
      } else {
        JoinedStep(lines, n);
        TrimmedTextPlus(Joined(lines, n - 1), Newline);
      }
      assert Joined(lines, n) == before + LineTokens(line);
      TrimmingLinesTrims(lines, n - 1);
      TrimmedTextPlus(before, Written(line));
      if line.kind.Blank? {
        assert line == Empty ==> Joined(lines, n) == before;
      } else {
        JoinedPrefix(lines[..n - 1], lines[n - 1..], n - 1);
        assert lines[..n - 1] + lines[n - 1..] == lines;
        JoinedPlus(lines[..n - 1], Line(line.kind, 0));
      }
    }
  }

  lemma TrimmedNone()
    ensures TrimmedText([], 0) == []
  {
  }

  /** Tidying is what the source does with the joined text: collapse, trim, end the line. */
  lemma TidyingIsCollapsingAndTrimming(output: Lines)
    ensures var text := Joined(output, |output|);
      var collapsed := Collapsed(text, |text|);
      Joined(Tidy(output), |Tidy(output)|) == TrimmedText(collapsed, |collapsed|) + [Newline]
  {
    hide Joined, Collapsed, TrimmedText, Squeeze, TrimEnd;
    var squeezed := Squeeze(output, 2, |output|);
    var trimmed := TrimEnd(squeezed, |squeezed|);
    SqueezingCollapses(output, |output|);
    TrimmingLinesTrims(squeezed, |squeezed|);
    var text := Joined(squeezed, |squeezed|);
    TrimmedTextPlus(text, Newline);
    assert text + [] == text;
    JoinedNone([]);
    if trimmed == [] {
      JoinedPlus([Empty], Empty);
      JoinedNone([Empty]);
    } else {
      JoinedPlus(trimmed, Empty);
    }
  }

  lemma JoinedNone(lines: Lines)
    ensures Joined(lines, 0) == [] && Collapsed([], 0) == []
    ensures |lines| > 0 ==> Joined(lines, 1) == LineTokens(lines[0])
  {
  }

  lemma JoinedStep(lines: Lines, n: nat)
    requires 2 <= n <= |lines|
    ensures Joined(lines, n) == Joined(lines, n - 1) + [Newline] + LineTokens(lines[n - 1])
  {
  }

  // ---------------------------------------------------------------------
  // Which lines belong to an MCP table
  // ---------------------------------------------------------------------

  /** Whether the n-th line, and what follows it up to the next header, is in an MCP table. */
  predicate InMcp(inMcp: bool, lines: Lines, n: nat)
    requires n <= |lines|
  {
    if n == 0 then inMcp
    else if IsTomlTableHeader(lines[n - 1]) then IsMcpServerTableHeader(lines[n - 1])
    else InMcp(inMcp, lines, n - 1)
  }

  /** The lines, among the first n, outside the MCP tables. */
  function Outside(inMcp: bool, lines: Lines, n: nat): Lines
    requires n <= |lines|
  {
    if n == 0 then []
    else if InMcp(inMcp, lines, n) then Outside(inMcp, lines, n - 1)
    else Outside(inMcp, lines, n - 1) + [lines[n - 1]]
  }

  function OutsideAll(lines: Lines): Lines {
    Outside(false, lines, |lines|)
  }

  predicate NoMcp(lines: Lines) {
    forall k :: 0 <= k < |lines| ==> !IsMcpServerTableHeader(lines[k])
  }

  /** A line that opens no table. */
  predicate Continues(line: Line) {
    line.kind.Blank? || line.kind.Text?
  }

  /** The k-th line opens an MCP table, or goes on with one: no header stands between. */
  ghost predicate InMcpTable(lines: Lines, k: nat)
    requires k < |lines|
  {
    exists h :: 0 <= h <= k && (lines[h].kind.McpServer? || lines[h].kind.McpOther?) && (forall j :: h < j <= k ==> Continues(lines[j]))
  }

  lemma {:induction false} InMcpIs(lines: Lines, k: nat)
    requires k < |lines|
    ensures InMcp(false, lines, k + 1) <==> InMcpTable(lines, k)
  {
    if lines[k].kind.McpServer? || lines[k].kind.McpOther? {
      assert InMcpTable(lines, k);
    } else if Continues(lines[k]) && k > 0 {
      InMcpIs(lines, k - 1);
      assert InMcp(false, lines, k + 1) == InMcp(false, lines, k);
      if InMcpTable(lines, k - 1) {
        var h :| 0 <= h <= k - 1 && (lines[h].kind.McpServer? || lines[h].kind.McpOther?) && (forall j :: h < j <= k - 1 ==> Continues(lines[j]));
        assert forall j :: h < j <= k ==> Continues(lines[j]);
        assert InMcpTable(lines, k);
      }
    } else if k == 0 {
      assert !InMcp(false, lines, 0);
    }
  }

  /** Line by line: what is kept is every line outside the MCP tables, and no other. */
  lemma OutsideKeepsTheOthers(lines: Lines, k: nat)
    requires k < |lines|
    ensures Outside(false, lines, 0) == []
    ensures Outside(false, lines, k + 1) == Outside(false, lines, k) + (if InMcpTable(lines, k) then [] else [lines[k]])
  {
    InMcpIs(lines, k);
    assert Outside(false, lines, k) + [] == Outside(false, lines, k);
  }

  // ---------------------------------------------------------------------
  // Where the new text goes
  // ---------------------------------------------------------------------

  /** The index of the first MCP header from k on, or the length. */
  function FirstMcp(lines: Lines, k: nat): (i: nat)
    requires k <= |lines|
    ensures k <= i <= |lines| && (forall j :: k <= j < i ==> !IsMcpServerTableHeader(lines[j]))
    ensures i < |lines| ==> IsMcpServerTableHeader(lines[i])
    decreases |lines| - k
  {
    if k == |lines| || IsMcpServerTableHeader(lines[k]) then k else FirstMcp(lines, k + 1)
  }

  function FirstHeader(lines: Lines, k: nat): (i: nat)
    requires k <= |lines|
    ensures k <= i <= |lines| && (forall j :: k <= j < i ==> !IsTomlTableHeader(lines[j]))
    ensures i < |lines| ==> IsTomlTableHeader(lines[i])
    decreases |lines| - k
  {
    if k == |lines| || IsTomlTableHeader(lines[k]) then k else FirstHeader(lines, k + 1)
  }

  predicate HasMcp(lines: Lines) {
    FirstMcp(lines, 0) < |lines|
  }

  predicate HasHeader(lines: Lines) {
    FirstHeader(lines, 0) < |lines|
  }

  /** The lines, set off by an empty one unless they end in one. */
  function SetOff(lines: Lines): Lines {
    if lines != [] && lines[|lines| - 1] != Empty then lines + [Empty] else lines
  }

  /** What comes before and after the new text: it takes the place of the first MCP
      table, else it goes before the first table, else to the end. */
  function Before(lines: Lines): Lines {
    if HasMcp(lines) then SetOff(lines[..FirstMcp(lines, 0)])
    else if HasHeader(lines) then lines[..FirstHeader(lines, 0)] + [Empty]
    else SetOff(lines)
  }

  function Gap(lines: Lines): Lines {
    if HasMcp(lines) || !HasHeader(lines) then [] else [Empty]
  }

  function Rest(lines: Lines): Lines {
    if HasMcp(lines) then OutsideAll(lines[FirstMcp(lines, 0)..]) else lines[FirstHeader(lines, 0)..]
  }

  predicate AllBlank(lines: Lines) {
    forall k :: 0 <= k < |lines| ==> lines[k].kind.Blank?
  }

  function Replaced(lines: Lines, rendered: Lines): Lines {
    if AllBlank(rendered) then Tidy(OutsideAll(lines)) else Tidy(Before(lines) + (rendered + (Gap(lines) + Rest(lines))))
  }

  // ---------------------------------------------------------------------
  // Putting lines together
  // ---------------------------------------------------------------------

  lemma {:induction false} OutsidePrefix(inMcp: bool, a: Lines, b: Lines, k: nat)
    requires k <= |a|
    ensures InMcp(inMcp, a + b, k) == InMcp(inMcp, a, k)
    ensures Outside(inMcp, a + b, k) == Outside(inMcp, a, k)
  {
    if k != 0 {
      OutsidePrefix(inMcp, a, b, k - 1);
    }
  }

  lemma {:induction false} OutsideConcat(inMcp: bool, a: Lines, b: Lines, k: nat)
    requires k <= |b|
    ensures InMcp(inMcp, a + b, |a| + k) == InMcp(InMcp(inMcp, a, |a|), b, k)
    ensures Outside(inMcp, a + b, |a| + k) == Outside(inMcp, a, |a|) + Outside(InMcp(inMcp, a, |a|), b, k)
  {
    if k == 0 {
      OutsidePrefix(inMcp, a, b, |a|);
    } else {
      OutsideConcat(inMcp, a, b, k - 1);
      assert (a + b)[|a| + k - 1] == b[k - 1];
      var r := InMcp(inMcp, a, |a|);
      Assoc(Outside(inMcp, a, |a|), Outside(r, b, k - 1), [b[k - 1]]);
    }
  }

  lemma Assoc(x: Lines, y: Lines, z: Lines)
    ensures (x + y) + z == x + (y + z)
  {
  }

  lemma {:induction false} OutsideOfNoMcp(a: Lines, n: nat)
    requires n <= |a| && NoMcp(a)
    ensures !InMcp(false, a, n) && Outside(false, a, n) == a[..n]
  {
    if n != 0 {
      OutsideOfNoMcp(a, n - 1);
    }
  }

  lemma RestIsOutside(lines: Lines)
    ensures HasMcp(lines) ==> OutsideAll(lines) == lines[..FirstMcp(lines, 0)] + Rest(lines)
    ensures !HasMcp(lines) ==> NoMcp(lines) && OutsideAll(lines) == lines
  {
    var f := FirstMcp(lines, 0);
    OutsideOfNoMcp(lines[..f], f);
    OutsideConcat(false, lines[..f], lines[f..], |lines| - f);
    assert lines[..f] + lines[f..] == lines;
    assert lines[..f][..f] == lines[..f];
  }

  // ---------------------------------------------------------------------
  // The loops
  // ---------------------------------------------------------------------

  /** Skips an MCP table: the loop inside the two rewriting loops. */
  method SkipTable(lines: Lines, start: nat) returns (index: nat)
    requires start < |lines| && IsMcpServerTableHeader(lines[start])
    ensures start < index <= |lines| && (index < |lines| ==> IsTomlTableHeader(lines[index]))
    ensures InMcp(false, lines, index)
    ensures Outside(false, lines, index) == Outside(false, lines, start)
  {
    index := start + 1;
    while index < |lines| && !IsTomlTableHeader(lines[index])
      invariant start < index <= |lines|
      invariant InMcp(false, lines, index)
      invariant Outside(false, lines, index) == Outside(false, lines, start)
    {
      index := index + 1;
    }
  }

  method RemoveMcpServerBlocks(lines: Lines) returns (result: Lines)
    ensures result == Tidy(OutsideAll(lines))
  {
    var output: Lines := [];
    var index := 0;
    while index < |lines|
      invariant 0 <= index <= |lines|
      invariant output == Outside(false, lines, index)
      invariant InMcp(false, lines, index) ==> index == |lines| || IsTomlTableHeader(lines[index])
    {
      if !IsMcpServerTableHeader(lines[index]) {
        output := output + [lines[index]];
        index := index + 1;
        continue;
      }
      index := SkipTable(lines, index);
    }
    result := Tidy(output);
  }

  lemma LineKept(lines: Lines, k: nat)
    requires k < |lines| && !IsMcpServerTableHeader(lines[k])
    requires InMcp(false, lines, k) ==> IsTomlTableHeader(lines[k])
    ensures !InMcp(false, lines, k + 1) && Outside(false, lines, k + 1) == Outside(false, lines, k) + [lines[k]]
  {
  }

  lemma ReplacedInPlace(lines: Lines, rendered: Lines, rest: Lines)
    requires HasMcp(lines) && OutsideAll(lines) == lines[..FirstMcp(lines, 0)] + rest
    ensures Before(lines) + (rendered + (Gap(lines) + Rest(lines))) == SetOff(lines[..FirstMcp(lines, 0)]) + (rendered + rest)
  {
    RestIsOutside(lines);
    var first := lines[..FirstMcp(lines, 0)];
    assert rest == (first + rest)[|first|..] == (first + Rest(lines))[|first|..] == Rest(lines);
    assert Gap(lines) + Rest(lines) == rest;
  }

  lemma Regroup(a: Lines, b: Lines, c: Lines, d: Lines)
    ensures a + (b + (c + d)) == a + b + c + d
  {
    Assoc(b, c, d);
    Assoc(a, b + c, d);
    Assoc(a, b, c);
  }

  lemma ReplacedElsewhere(lines: Lines, rendered: Lines)
    requires !HasMcp(lines)
    ensures var i := FirstHeader(lines, 0);
      Before(lines) + (rendered + (Gap(lines) + Rest(lines)))
      == if i == |lines| then SetOff(lines) + rendered else lines[..i] + [Empty] + rendered + [Empty] + lines[i..]
  {
    hide FirstHeader, FirstMcp, SetOff;
    Regroup(Before(lines), rendered, Gap(lines), Rest(lines));
  }

  method ReplaceMcpServerBlocks(lines: Lines, rendered: Lines) returns (result: Lines)
    ensures result == Replaced(lines, rendered)
  {
    hide InMcp, Outside, FirstMcp, FirstHeader, Tidy, Before, Rest, Gap;
    if AllBlank(rendered) {
      result := RemoveMcpServerBlocks(lines);
      return;
    }
    RestIsOutside(lines);
    ghost var first := FirstMcp(lines, 0);
    ghost var rest: Lines := [];
    var output: Lines := [];
    var inserted := false;
    var index := 0;
    OutsideOfNoMcp(lines[..first], first);
    OutsidePrefix(false, lines[..first], lines[first..], first);
    assert lines[..first] + lines[first..] == lines && lines[..first][..first] == lines[..first];
    OutsideStart(lines);
    while index < |lines|
      invariant 0 <= index <= |lines|
      invariant inserted <==> first < index
      invariant !inserted ==> rest == [] && output == Outside(false, lines, index)
      invariant inserted ==> output == SetOff(lines[..first]) + (rendered + rest)
      invariant inserted ==> Outside(false, lines, index) == lines[..first] + rest
      invariant InMcp(false, lines, index) ==> index == |lines| || IsTomlTableHeader(lines[index])
    {
      if !IsMcpServerTableHeader(lines[index]) {
        LineKept(lines, index);
        output := output + [lines[index]];
        if inserted {
          Assoc(lines[..first], rest, [lines[index]]);
          Assoc(rendered, rest, [lines[index]]);
          Assoc(SetOff(lines[..first]), rendered + rest, [lines[index]]);
          rest := rest + [lines[index]];
        }
        index := index + 1;
        continue;
      }
      if !inserted {
        assert index == first;
        if output != [] && output[|output| - 1] != Empty {
          output := output + [Empty];
        }
        output := output + rendered;
        assert rendered + rest == rendered && lines[..first] + rest == lines[..first];
        inserted := true;
      }
      index := SkipTable(lines, index);
    }
    if inserted {
      ReplacedInPlace(lines, rendered, rest);
    } else {
      ReplacedElsewhere(lines, rendered);
      var insertAt := FirstHeader(output, 0);
      if insertAt == |output| {
        if output != [] && output[|output| - 1] != Empty {
          output := output + [Empty];
        }
        output := output + rendered;
      } else {
        output := output[..insertAt] + [Empty] + rendered + [Empty] + output[insertAt..];
      }
    }
    result := Tidy(output);
  }

  lemma OutsideStart(lines: Lines)
    ensures !InMcp(false, lines, 0) && Outside(false, lines, 0) == []
  {
  }

  // ---------------------------------------------------------------------
  // Squeezing and trimming
  // ---------------------------------------------------------------------

  /** No empty line follows another from index lead on. */
  predicate NoDouble(lines: Lines, lead: nat)
    requires 1 <= lead
  {
    forall k :: lead <= k < |lines| ==> !(lines[k] == Empty && lines[k - 1] == Empty)
  }

  /** Nothing to trim. */
  predicate Ended(lines: Lines) {
    lines == [] || (!lines[|lines| - 1].kind.Blank? && lines[|lines| - 1].padding == 0)
  }

  lemma {:induction false} SqueezePrefix(a: Lines, b: Lines, lead: nat, k: nat)
    requires 1 <= lead && k <= |a|
    ensures Squeeze(a + b, lead, k) == Squeeze(a, lead, k)
  {
    if k != 0 {
      SqueezePrefix(a, b, lead, k - 1);
    }
  }

  lemma {:induction false} SqueezeConcat(a: Lines, b: Lines, lead: nat, k: nat)
    requires 1 <= lead <= 2 && a != [] && k <= |b|
    requires b == [] || a[|a| - 1] != Empty || b[0] != Empty
    ensures Squeeze(a + b, lead, |a| + k) == Squeeze(a, lead, |a|) + Squeeze(b, 1, k)
  {
    if k == 0 {
      SqueezePrefix(a, b, lead, |a|);
    } else {
      SqueezeConcat(a, b, lead, k - 1);
      var i := |a| + k - 1;
      assert (a + b)[i] == b[k - 1] && (a + b)[i - 1] == if k == 1 then a[|a| - 1] else b[k - 2];
      Assoc(Squeeze(a, lead, |a|), Squeeze(b, 1, k - 1), [b[k - 1]]);
    }
  }

  /** Squeezing leaves no double empty line, and keeps the first and the last line. */
  lemma {:induction false} SqueezedWell(lines: Lines, lead: nat, n: nat)
    requires 1 <= lead && n <= |lines|
    ensures var r := Squeeze(lines, lead, n);
            && NoDouble(r, lead) && (n <= lead ==> r == lines[..n])
            && (n > 0 ==> r != [] && r[0] == lines[0] && r[|r| - 1] == lines[n - 1])
            && (NoMcp(lines) ==> NoMcp(r))
  {
    if n != 0 {
      SqueezedWell(lines, lead, n - 1);
    }
  }

  lemma {:induction false} SqueezeFixed(lines: Lines, lead: nat, n: nat)
    requires 1 <= lead && n <= |lines| && NoDouble(lines, lead)
    ensures Squeeze(lines, lead, n) == lines[..n]
  {
    if n != 0 {
      SqueezeFixed(lines, lead, n - 1);
    }
  }

  lemma {:induction false} TrimEndConcat(x: Lines, y: Lines, k: nat)
    requires x != [] && Ended(x) && k <= |y|
    ensures TrimEnd(x + y, |x| + k) == x + TrimEnd(y, k)
  {
    if k == 0 {
      assert (x + y)[|x| - 1] == x[|x| - 1];
    } else {
      assert (x + y)[|x| + k - 1] == y[k - 1];
      TrimEndConcat(x, y, k - 1);
      if !y[k - 1].kind.Blank? {
        assert (x + y)[..|x| + k - 1] == x + y[..k - 1];
      }
    }
  }

  /** Trimming leaves nothing to trim, and otherwise keeps a prefix as it is. */
  lemma {:induction false} TrimmedWell(lines: Lines, n: nat)
    requires n <= |lines|
    ensures var r := TrimEnd(lines, n);
            && Ended(r) && |r| <= n
            && (forall k :: 0 <= k < |r| - 1 ==> r[k] == lines[k])
            && (r != [] ==> r[|r| - 1].kind == lines[|r| - 1].kind)
            && (forall k :: |r| <= k < n ==> lines[k].kind.Blank?)
            && (forall lead :: 1 <= lead && NoDouble(lines, lead) ==> NoDouble(r, lead))
            && (NoMcp(lines) ==> NoMcp(r))
  {
    if n != 0 {
      TrimmedWell(lines, n - 1);
    }
  }

  lemma TrimFixed(lines: Lines)
    requires Ended(lines)
    ensures TrimEnd(lines, |lines|) == lines && TrimEnd(lines + [Empty], |lines| + 1) == lines
  {
    if lines != [] {
      TrimEndConcat(lines, [], 0);
      assert lines + [] == lines;
      TrimEndConcat(lines, [Empty], 1);
    }
  }

  /** The end of a text: squeezed after a line that is not empty, and trimmed. */
  function TidyTail(lines: Lines): Lines {
    var squeezed := Squeeze(lines, 1, |lines|);
    TrimEnd(squeezed, |squeezed|)
  }

  lemma TidyTailWell(lines: Lines)
    ensures var r := TidyTail(lines);
            && Ended(r) && NoDouble(r, 1) && (NoMcp(lines) ==> NoMcp(r))
            && (lines == [] ==> r == [])
            && (lines != [] && !lines[0].kind.Blank? ==> r != [] && r[0].kind == lines[0].kind)
  {
    hide Squeeze, TrimEnd;
    SqueezedWell(lines, 1, |lines|);
    var squeezed := Squeeze(lines, 1, |lines|);
    TrimmedWell(squeezed, |squeezed|);
  }

  lemma TidyTailFixed(lines: Lines)
    requires Ended(lines) && NoDouble(lines, 1)
    ensures TidyTail(lines) == lines && (lines != [] ==> TidyTail(lines + [Empty]) == lines)
  {
    hide Squeeze, TrimEnd;
    SqueezeFixed(lines, 1, |lines|);
    TrimFixed(lines);
    assert lines[..|lines|] == lines;
    if lines != [] {
      SqueezeFixed(lines + [Empty], 1, |lines| + 1);
      assert (lines + [Empty])[..|lines| + 1] == lines + [Empty];
    }
  }

  // ---------------------------------------------------------------------
  // What a rewritten text looks like
  // ---------------------------------------------------------------------

  /** The shape of a rendered MCP text: MCP tables only, from its first line on, and nothing to tidy. */
  predicate IsRendering(r: Lines) {
    && r != [] && IsMcpServerTableHeader(r[0]) && Ended(r) && NoDouble(r, 1)
    && (forall k :: 0 <= k < |r| && IsTomlTableHeader(r[k]) ==> IsMcpServerTableHeader(r[k]))
  }

  lemma SqueezeBody(r: Lines, v: Lines, lead: nat)
    requires 1 <= lead <= 2 && r != [] && !r[|r| - 1].kind.Blank? && NoDouble(r, 1)
    ensures Squeeze(r + v, lead, |r + v|) == r + Squeeze(v, 1, |v|)
  {
    hide Squeeze;
    SqueezeFixed(r, lead, |r|);
    SqueezeConcat(r, v, lead, |v|);
    assert r[..|r|] == r;
  }

  lemma SqueezeAround(u: Lines, r: Lines, v: Lines)
    requires r != [] && !r[0].kind.Blank? && Ended(r) && NoDouble(r, 1)
    ensures Squeeze(u + (r + v), 2, |u + (r + v)|) == Squeeze(u, 2, |u|) + (r + Squeeze(v, 1, |v|))
  {
    hide Squeeze, NoDouble;
    SqueezeBody(r, v, 2);
    if u == [] {
      SqueezedWell(u, 2, 0);
      assert u + (r + v) == r + v;
      assert Squeeze(u, 2, |u|) + (r + Squeeze(v, 1, |v|)) == r + Squeeze(v, 1, |v|);
    } else {
      SqueezeBody(r, v, 1);
      assert (r + v)[0] == r[0];
      SqueezeConcat(u, r + v, 2, |r + v|);
    }
  }

  lemma TrimEndPlus(h: Lines, t: Lines)
    requires h != [] && Ended(h)
    ensures TrimEnd(h + t, |h + t|) == h + TrimEnd(t, |t|)
  {
    hide TrimEnd, Ended;
    TrimEndConcat(h, t, |t|);
  }

  lemma FinishConcat(h: Lines, t: Lines)
    requires h != [] && Ended(h)
    ensures Finish(h + t) == h + (TrimEnd(t, |t|) + [Empty])
  {
    hide TrimEnd, Close, Ended;
    TrimEndPlus(h, t);
    CloseConcat(h, TrimEnd(t, |t|));
  }

  lemma CloseConcat(h: Lines, t: Lines)
    requires h != []
    ensures Close(h + t) == h + (t + [Empty])
  {
  }

  lemma TidyAround(u: Lines, r: Lines, v: Lines)
    requires r != [] && !r[0].kind.Blank? && Ended(r) && NoDouble(r, 1)
    ensures Tidy(u + (r + v)) == Squeeze(u, 2, |u|) + (r + (TidyTail(v) + [Empty]))
  {
    hide Squeeze, TrimEnd, NoDouble, Finish;
    var head := Squeeze(u, 2, |u|);
    var tail := Squeeze(v, 1, |v|);
    SqueezeAround(u, r, v);
    Assoc(head, r, tail);
    EndsWith(head, r);
    FinishConcat(head + r, tail);
    Assoc(head, r, TidyTail(v) + [Empty]);
  }

  lemma EndsWith(h: Lines, r: Lines)
    requires r != [] && Ended(r)
    ensures h + r != [] && Ended(h + r)
  {
  }

  /** The text after a rewrite, piece by piece. */
  lemma ReplacedShape(lines: Lines, r: Lines)
    requires IsRendering(r)
    ensures Replaced(lines, r) == Head(lines) + (r + (Gap(lines) + (Tail(lines) + [Empty])))
    ensures Head(lines) == [] || Head(lines)[|Head(lines)| - 1] == Empty
    ensures NoMcp(Head(lines)) && NoDouble(Head(lines), 2)
    ensures NoMcp(Tail(lines)) && NoDouble(Tail(lines), 1) && Ended(Tail(lines))
    ensures Tail(lines) == [] ==> Gap(lines) == []
    ensures Tail(lines) != [] ==> IsTomlTableHeader(Tail(lines)[0])
  {
    hide Squeeze, Tidy, TidyTail, Before, Rest, NoMcp, NoDouble, Gap;
    assert !AllBlank(r) by { assert !r[0].kind.Blank?; }
    TidyAround(Before(lines), r, Gap(lines) + Rest(lines));
    BeforeAndRest(lines);
    SqueezedWell(Before(lines), 2, |Before(lines)|);
    TidyTailWell(Rest(lines));
    GapKept(lines);
    Assoc(Gap(lines), TidyTail(Rest(lines)), [Empty]);
  }

  function Head(lines: Lines): Lines {
    Squeeze(Before(lines), 2, |Before(lines)|)
  }

  function Tail(lines: Lines): Lines {
    TidyTail(Rest(lines))
  }

  lemma {:induction false} OutsideWell(inMcp: bool, lines: Lines, n: nat)
    requires n <= |lines|
    ensures NoMcp(Outside(inMcp, lines, n))
    ensures inMcp && Outside(inMcp, lines, n) != [] ==> IsTomlTableHeader(Outside(inMcp, lines, n)[0])
    ensures inMcp && Outside(inMcp, lines, n) == [] ==> InMcp(inMcp, lines, n)
  {
    if n != 0 {
      OutsideWell(inMcp, lines, n - 1);
    }
  }

  lemma BeforeAndRest(lines: Lines)
    ensures Before(lines) == [] || Before(lines)[|Before(lines)| - 1] == Empty
    ensures NoMcp(Before(lines)) && NoMcp(Rest(lines))
    ensures Rest(lines) != [] ==> IsTomlTableHeader(Rest(lines)[0])
    ensures Rest(lines) == [] ==> Gap(lines) == []
  {
    hide FirstMcp, FirstHeader, InMcp, Outside;
    RestIsOutside(lines);
    if HasMcp(lines) {
      RestOfTable(lines[FirstMcp(lines, 0)..]);
    }
  }

  lemma RestOfTable(from: Lines)
    requires from != [] && IsMcpServerTableHeader(from[0])
    ensures NoMcp(OutsideAll(from))
    ensures OutsideAll(from) != [] ==> IsTomlTableHeader(OutsideAll(from)[0])
  {
    hide InMcp, Outside;
    OutsideOfMcp([from[0]], 1);
    OutsideWell(true, from[1..], |from| - 1);
    assert [from[0]] + from[1..] == from;
    OutsideConcat(false, [from[0]], from[1..], |from| - 1);
  }

  lemma {:induction false} OutsideOfMcp(r: Lines, n: nat)
    requires 0 < n <= |r| && IsMcpServerTableHeader(r[0])
    requires forall k :: 0 <= k < n && IsTomlTableHeader(r[k]) ==> IsMcpServerTableHeader(r[k])
    ensures InMcp(false, r, n) && Outside(false, r, n) == []
  {
    if n != 1 {
      OutsideOfMcp(r, n - 1);
    } else {
      assert Outside(false, r, 0) == [];
    }
  }

  lemma EmptyThen(rest: Lines)
    requires rest != [] && !rest[0].kind.Blank?
    ensures TidyTail([Empty] + rest) == [Empty] + TidyTail(rest)
  {
    hide Squeeze, TrimEnd;
    var squeezed := Squeeze(rest, 1, |rest|);
    SqueezeConcat([Empty], rest, 1, |rest|);
    SqueezeFixed([Empty], 1, 1);
    assert [Empty][..1] == [Empty];
    SqueezedWell(rest, 1, |rest|);
    TrimEndOfGap(squeezed, |squeezed|);
  }

  lemma GapKept(lines: Lines)
    requires Rest(lines) != [] ==> IsTomlTableHeader(Rest(lines)[0])
    requires Rest(lines) == [] ==> Gap(lines) == []
    ensures TidyTail(Gap(lines) + Rest(lines)) == Gap(lines) + TidyTail(Rest(lines))
  {
    hide Rest, TidyTail, HasMcp, HasHeader;
    var rest := Rest(lines);
    if Gap(lines) == [] {
      assert [] + rest == rest && [] + TidyTail(rest) == TidyTail(rest);
    } else {
      EmptyThen(rest);
    }
  }

  lemma {:induction false} TrimEndOfGap(lines: Lines, n: nat)
    requires 0 < n <= |lines| && !lines[0].kind.Blank?
    ensures TrimEnd([Empty] + lines, n + 1) == [Empty] + TrimEnd(lines, n)
  {
    assert ([Empty] + lines)[n] == lines[n - 1];
    if lines[n - 1].kind.Blank? {
      TrimEndOfGap(lines, n - 1);
    } else {
      assert ([Empty] + lines)[..n] == [Empty] + lines[..n - 1];
    }
  }

  // ---------------------------------------------------------------------
  // Rewriting twice
  // ---------------------------------------------------------------------

  lemma {:induction false} FirstMcpOf(a: Lines, r: Lines, k: nat)
    requires k <= |a| && NoMcp(a) && r != [] && IsMcpServerTableHeader(r[0])
    ensures FirstMcp(a + r, k) == |a|
    decreases |a| - k
  {
    if k < |a| {
      assert (a + r)[k] == a[k];
      FirstMcpOf(a, r, k + 1);
    }
  }

  /** What a rewritten text keeps outside its MCP tables after the new ones. */
  function Kept(tail: Lines): Lines {
    if tail == [] then [] else tail + [Empty]
  }

  lemma OutsideOfTail(tail: Lines)
    requires NoMcp(tail) && (tail != [] ==> IsTomlTableHeader(tail[0]))
    ensures Outside(true, tail + [Empty], |tail + [Empty]|) == Kept(tail)
  {
    hide Outside, InMcp, NoMcp;
    EmptyInMcp();
    if tail == [] {
      assert tail + [Empty] == [Empty];
    } else {
      TailOutside(tail);
    }
  }

  lemma OutsideOfGap(tail: Lines)
    ensures Outside(true, [Empty] + tail, |[Empty] + tail|) == Outside(true, tail, |tail|)
  {
    hide Outside, InMcp;
    EmptyInMcp();
    OutsideConcat(true, [Empty], tail, |tail|);
  }

  lemma OutsideOfEnd(r: Lines, gap: Lines, tail: Lines)
    requires IsRendering(r) && NoMcp(tail) && (gap == [] || gap == [Empty])
    requires tail != [] ==> IsTomlTableHeader(tail[0])
    ensures OutsideAll(r + (gap + (tail + [Empty]))) == Kept(tail)
  {
    hide Outside, InMcp, NoMcp, NoDouble, Ended, Kept, IsTomlTableHeader;
    var end := tail + [Empty];
    OutsideOfTail(tail);
    OutsideOfRendering(r);
    if gap == [] {
      assert gap + end == end;
    } else {
      OutsideOfGap(end);
    }
    OutsideConcat(false, r, gap + end, |gap + end|);
  }

  lemma OutsideOfRendering(r: Lines)
    requires IsRendering(r)
    ensures InMcp(false, r, |r|) && Outside(false, r, |r|) == []
  {
    OutsideOfMcp(r, |r|);
  }

  lemma EmptyInMcp()
    ensures InMcp(true, [Empty], 1) && Outside(true, [Empty], 1) == [] && InMcp(true, [Empty], 0)
  {
  }

  lemma {:induction false} TailOutsideUpTo(tail: Lines, n: nat)
    requires 0 < n <= |tail| && NoMcp(tail) && IsTomlTableHeader(tail[0])
    ensures !InMcp(true, tail, n) && Outside(true, tail, n) == tail[..n]
  {
    if n != 1 {
      TailOutsideUpTo(tail, n - 1);
    } else {
      assert Outside(true, tail, 0) == [];
    }
  }

  lemma TailOutside(tail: Lines)
    requires tail != [] && NoMcp(tail) && IsTomlTableHeader(tail[0])
    ensures Outside(true, tail + [Empty], |tail| + 1) == tail + [Empty]
  {
    assert NoMcp(tail + [Empty]) && (tail + [Empty])[0] == tail[0];
    TailOutsideUpTo(tail + [Empty], |tail| + 1);
    assert (tail + [Empty])[..|tail| + 1] == tail + [Empty];
  }

  /** A rewrite of a rewritten text drops the gap behind the new tables. */
  lemma RewrittenAgain(head: Lines, r: Lines, gap: Lines, tail: Lines)
    requires IsRendering(r) && NoMcp(head) && NoDouble(head, 2) && (gap == [] || gap == [Empty])
    requires head == [] || head[|head| - 1] == Empty
    requires NoMcp(tail) && NoDouble(tail, 1) && Ended(tail)
    requires tail == [] ==> gap == []
    requires tail != [] ==> IsTomlTableHeader(tail[0])
    ensures Replaced(head + (r + (gap + (tail + [Empty]))), r) == head + (r + (tail + [Empty]))
  {
    hide Outside, InMcp, NoMcp, NoDouble, Squeeze, Tidy, TidyTail, Replaced, Ended;
    OutsideOfEnd(r, gap, tail);
    Rewritten(head, r, gap + (tail + [Empty]), Kept(tail));
    TidyTailFixed(tail);
  }

  lemma GapIs(lines: Lines)
    ensures Gap(lines) == [] || Gap(lines) == [Empty]
  {
  }

  /** Rewriting a text whose first MCP table begins at r. */
  lemma Rewritten(head: Lines, r: Lines, after: Lines, kept: Lines)
    requires IsRendering(r) && NoMcp(head) && NoDouble(head, 2)
    requires head == [] || head[|head| - 1] == Empty
    requires OutsideAll(r + after) == kept
    ensures Replaced(head + (r + after), r) == head + (r + (TidyTail(kept) + [Empty]))
  {
    hide Outside, InMcp, NoMcp, NoDouble, Squeeze, Tidy, TidyTail, FirstMcp;
    var lines := head + (r + after);
    assert (r + after)[0] == r[0];
    FirstMcpOf(head, r + after, 0);
    assert lines[..|head|] == head && lines[|head|..] == r + after;
    assert Before(lines) == head && Gap(lines) == [] && Rest(lines) == kept;
    assert [] + kept == kept;
    assert !AllBlank(r) by { assert !r[0].kind.Blank?; }
    TidyAround(head, r, kept);
    SqueezeFixed(head, 2, |head|);
    assert head[..|head|] == head;
  }

  /** A second rewrite with the same text changes nothing exactly when the first one found
      an MCP table to replace, or no table at all. */
  lemma RewritingIsIdempotent(lines: Lines, r: Lines)
    requires IsRendering(r)
    ensures Replaced(Replaced(lines, r), r) == Replaced(lines, r) <==> HasMcp(lines) || !HasHeader(lines)
    ensures Replaced(Replaced(Replaced(lines, r), r), r) == Replaced(Replaced(lines, r), r)
  {
    hide FirstMcp, FirstHeader, Replaced, Head, Tail, NoMcp, NoDouble, Ended;
    ReplacedShape(lines, r);
    GapIs(lines);
    var head, gap, tail := Head(lines), Gap(lines), Tail(lines);
    RewrittenAgain(head, r, gap, tail);
    RewrittenAgain(head, r, [], tail);
    assert [] + (tail + [Empty]) == tail + [Empty];
    if gap != [] {
      assert |head + (r + (gap + (tail + [Empty])))| == |head + (r + (tail + [Empty]))| + 1;
    }
  }

  // ---------------------------------------------------------------------
  // What survives
  // ---------------------------------------------------------------------

  /** The lines, among the first n, that are not blank. */
  function Solid(lines: Lines, n: nat): Lines
    requires n <= |lines|
  {
    if n == 0 then []
    else if lines[n - 1].kind.Blank? then Solid(lines, n - 1)
    else Solid(lines, n - 1) + [lines[n - 1]]
  }

  function SolidAll(lines: Lines): Lines {
    Solid(lines, |lines|)
  }

  /** The lines without the white space after the last. */
  function Unpadded(lines: Lines): Lines {
    if lines == [] then [] else lines[..|lines| - 1] + [Line(lines[|lines| - 1].kind, 0)]
  }

  lemma {:induction false} SolidPrefix(a: Lines, b: Lines, k: nat)
    requires k <= |a|
    ensures Solid(a + b, k) == Solid(a, k)
  {
    if k != 0 {
      SolidPrefix(a, b, k - 1);
    }
  }

  lemma {:induction false} SolidConcat(a: Lines, b: Lines, k: nat)
    requires k <= |b|
    ensures Solid(a + b, |a| + k) == Solid(a, |a|) + Solid(b, k)
  {
    if k == 0 {
      SolidPrefix(a, b, |a|);
    } else {
      SolidConcat(a, b, k - 1);
      assert (a + b)[|a| + k - 1] == b[k - 1];
    }
  }

  lemma SolidPlus(a: Lines, b: Lines)
    ensures SolidAll(a + b) == SolidAll(a) + SolidAll(b)
    ensures SolidAll([Empty]) == [] && SolidAll([]) == []
  {
    SolidConcat(a, b, |b|);
    assert Solid([Empty], 0) == [];
  }

  lemma {:induction false} SolidSqueezed(lines: Lines, lead: nat, n: nat)
    requires 1 <= lead && n <= |lines|
    ensures SolidAll(Squeeze(lines, lead, n)) == Solid(lines, n)
  {
    hide SolidAll;
    if n == 0 {
      SolidPlus([], []);
    } else {
      SolidSqueezed(lines, lead, n - 1);
      SolidPlus(Squeeze(lines, lead, n - 1), [lines[n - 1]]);
      SolidOne(lines[n - 1]);
    }
  }

  lemma SolidOne(line: Line)
    ensures SolidAll([line]) == if line.kind.Blank? then [] else [line]
  {
    assert Solid([line], 0) == [];
  }

  lemma {:induction false} SolidTrimmed(lines: Lines, n: nat)
    requires n <= |lines|
    ensures SolidAll(TrimEnd(lines, n)) == Unpadded(Solid(lines, n))
  {
    if n != 0 {
      if lines[n - 1].kind.Blank? {
        SolidTrimmed(lines, n - 1);
      } else {
        var last := Line(lines[n - 1].kind, 0);
        SolidPlus(lines[..n - 1], [last]);
        SolidOne(last);
        assert lines[..n - 1] + lines[n - 1..] == lines;
        SolidPrefix(lines[..n - 1], lines[n - 1..], n - 1);
      }
    }
  }

  lemma SolidTidyTail(lines: Lines)
    ensures SolidAll(TidyTail(lines)) == Unpadded(SolidAll(lines))
  {
    hide Squeeze, TrimEnd;
    SolidSqueezed(lines, 1, |lines|);
    SolidTrimmed(Squeeze(lines, 1, |lines|), |Squeeze(lines, 1, |lines|)|);
  }

  lemma SolidSplit(lines: Lines)
    ensures SolidAll(OutsideAll(lines)) == SolidAll(Before(lines)) + SolidAll(Rest(lines))
  {
    hide Solid, SolidAll, FirstMcp, FirstHeader, InMcp, Outside;
    RestIsOutside(lines);
    var i := if HasMcp(lines) then FirstMcp(lines, 0) else FirstHeader(lines, 0);
    SolidPlus(lines[..i], Rest(lines));
    SolidPlus(lines[..i], [Empty]);
    assert !HasMcp(lines) ==> lines == lines[..i] + lines[i..];
    assert !HasMcp(lines) && i == |lines| ==> lines[..i] == lines;
  }

  /** Equal but for the white space at the very end. */
  predicate SameUpToEnd(before: Lines, after: Lines) {
    after == before || after == Unpadded(before)
  }

  lemma SolidKept(tail: Lines)
    ensures SolidAll(Kept(tail)) == SolidAll(tail)
  {
    hide Solid, SolidAll;
    SolidPlus(tail, [Empty]);
  }

  lemma UnpaddedPlus(a: Lines, b: Lines)
    ensures SameUpToEnd(a + b, a + Unpadded(b))
  {
    if b != [] {
      assert a + Unpadded(b) == Unpadded(a + b);
    }
  }

  /** A rewrite keeps every line outside the MCP tables that is not blank, in order. */
  lemma OutsideSurvives(lines: Lines, r: Lines)
    requires IsRendering(r)
    ensures SameUpToEnd(SolidAll(OutsideAll(lines)), SolidAll(OutsideAll(Replaced(lines, r))))
  {
    hide Solid, SolidAll, Outside, InMcp, NoMcp, NoDouble, Squeeze, Tidy, TidyTail, Replaced, Ended, Before, Rest, Gap, Unpadded, Kept, SameUpToEnd;
    ReplacedShape(lines, r);
    GapIs(lines);
    var head, gap, tail := Head(lines), Gap(lines), Tail(lines);
    var end := gap + (tail + [Empty]);
    OutsideOfEnd(r, gap, tail);
    OutsideOfNoMcp(head, |head|);
    OutsideConcat(false, head, r + end, |r + end|);
    assert head[..|head|] == head;
    SolidPlus(head, Kept(tail));
    SolidKept(tail);
    SolidSqueezed(Before(lines), 2, |Before(lines)|);
    SolidWhole(Before(lines));
    SolidTidyTail(Rest(lines));
    SolidSplit(lines);
    UnpaddedPlus(SolidAll(Before(lines)), SolidAll(Rest(lines)));
  }

  /** Where a rewrite puts the new text: at the first MCP table, else at the first table,
      else at the end. */
  predicate IsPlace(lines: Lines, f: nat) {
    && f <= |lines|
    && (forall j :: 0 <= j < f ==> !lines[j].kind.McpServer? && !lines[j].kind.McpOther?)
    && if f < |lines| && (lines[f].kind.McpServer? || lines[f].kind.McpOther?) then true
       else
         && (forall j :: 0 <= j < f ==> Continues(lines[j]))
         && (forall j :: f <= j < |lines| ==> !lines[j].kind.McpServer? && !lines[j].kind.McpOther?)
         && (f < |lines| ==> lines[f].kind.Table?)
  }

  function After(lines: Lines): Lines {
    Gap(lines) + (Tail(lines) + [Empty])
  }

  lemma PlaceIs(lines: Lines, f: nat)
    requires IsPlace(lines, f)
    ensures f == if HasMcp(lines) then FirstMcp(lines, 0) else FirstHeader(lines, 0)
    ensures OutsideAll(lines[f..]) == Rest(lines)
  {
    hide FirstMcp, FirstHeader, Outside, InMcp;
    var m, i := FirstMcp(lines, 0), FirstHeader(lines, 0);
    if f < |lines| && (lines[f].kind.McpServer? || lines[f].kind.McpOther?) {
      assert !(m < f) && !(f < m);
    } else {
      assert m == |lines|;
      assert !(i < f) && !(f < i);
      OutsideOfNoMcp(lines[f..], |lines| - f);
      assert lines[f..][..|lines| - f] == lines[f..];
    }
  }

  /** The lines before the place stay before the new text and those after it stay after. */
  lemma NewTextIsPlaced(lines: Lines, r: Lines, f: nat)
    requires IsRendering(r) && IsPlace(lines, f)
    ensures Replaced(lines, r) == Head(lines) + (r + After(lines))
    ensures SolidAll(Head(lines)) == SolidAll(lines[..f])
    ensures SolidAll(After(lines)) == Unpadded(SolidAll(OutsideAll(lines[f..])))
  {
    hide Solid, SolidAll, FirstMcp, FirstHeader, InMcp, Outside, Replaced, Squeeze, TidyTail, Unpadded;
    PlaceIs(lines, f);
    ReplacedShape(lines, r);
    GapIs(lines);
    SolidSqueezed(Before(lines), 2, |Before(lines)|);
    SolidWhole(Before(lines));
    SolidPlus(lines[..f], [Empty]);
    assert f == |lines| ==> lines[..f] == lines;
    SolidTidyTail(Rest(lines));
    SolidPlus(Tail(lines), [Empty]);
    SolidPlus(Gap(lines), Tail(lines) + [Empty]);
    assert SolidAll(Tail(lines)) + [] == SolidAll(Tail(lines));
  }

  lemma SolidWhole(lines: Lines)
    ensures Solid(lines, |lines|) == SolidAll(lines)
  {
  }

  /** Removal leaves no MCP table and keeps every other line that is not blank, in order;
      a second removal changes nothing. */
  lemma RemovalIsClean(lines: Lines)
    ensures var result := Replaced(lines, []);
      && NoMcp(result)
      && SolidAll(result) == Unpadded(SolidAll(OutsideAll(lines)))
      && Replaced(result, []) == result
  {
    hide Solid, Outside, InMcp, Squeeze, TrimEnd, NoDouble, Ended, Unpadded;
    var outside := OutsideAll(lines);
    OutsideWell(false, lines, |lines|);
    var squeezed := Squeeze(outside, 2, |outside|);
    var trimmed := TrimEnd(squeezed, |squeezed|);
    SqueezedWell(outside, 2, |outside|);
    TrimmedWell(squeezed, |squeezed|);
    SolidSqueezed(outside, 2, |outside|);
    SolidTrimmed(squeezed, |squeezed|);
    SolidPlus(trimmed, [Empty]);
    SolidPlus([Empty], [Empty]);
    ClosedIsTidy(trimmed);
    OutsideOfNoMcp(Close(trimmed), |Close(trimmed)|);
    assert Close(trimmed)[..|Close(trimmed)|] == Close(trimmed);
  }

  lemma ClosedIsTidy(trimmed: Lines)
    requires Ended(trimmed) && NoDouble(trimmed, 2)
    ensures Tidy(Close(trimmed)) == Close(trimmed)
  {
    hide Squeeze, TrimEnd;
    var closed := Close(trimmed);
    SqueezeFixed(closed, 2, |closed|);
    assert closed[..|closed|] == closed;
    if trimmed == [] {
      assert closed == [Empty, Empty];
      TrimEmpty();
    } else {
      TrimFixed(trimmed);
    }
  }

  lemma TrimEmpty()
    ensures TrimEnd([Empty, Empty], 2) == []
  {
    assert TrimEnd([Empty, Empty], 1) == TrimEnd([Empty, Empty], 0) == [];
  }

  // ---------------------------------------------------------------------
  // Reading the servers back
  // ---------------------------------------------------------------------

  datatype Block = Block(name: Name, lines: Lines)

  datatype Parsing = Parsing(open: Option<Block>, blocks: map<Name, Lines>)

  const NothingRead := Parsing(None, map[])

  function Flush(p: Parsing): Parsing {
    match p.open
    case None => p
    case Some(block) => Parsing(None, p.blocks[block.name := block.lines])
  }

  function ParseLine(p: Parsing, line: Line): Parsing {
    match line.kind
    case McpServer(name) => Parsing(Some(Block(name, [line])), Flush(p).blocks)
    case McpOther(_) => Flush(p)
    case Table(_) => Flush(p)
    case _ =>
      match p.open
      case None => p
      case Some(block) => Parsing(Some(Block(block.name, block.lines + [line])), p.blocks)
  }

  function ParseFrom(p: Parsing, lines: Lines, n: nat): Parsing
    requires n <= |lines|
  {
    if n == 0 then p else ParseLine(ParseFrom(p, lines, n - 1), lines[n - 1])
  }

  function Parsed(lines: Lines): map<Name, Lines> {
    Flush(ParseFrom(NothingRead, lines, |lines|)).blocks
  }

  method ParseMcpServerBlocks(lines: Lines) returns (blocks: map<Name, Lines>)
    ensures blocks == Parsed(lines)
  {
    blocks := map[];
    var current: Option<Block> := None;
    var index := 0;
    while index < |lines|
      invariant 0 <= index <= |lines|
      invariant Parsing(current, blocks) == ParseFrom(NothingRead, lines, index)
    {
      var line := lines[index];
      if IsTomlTableHeader(line) {
        if current.Some? {
          blocks := blocks[current.value.name := current.value.lines];
        }
        current := if line.kind.McpServer? then Some(Block(line.kind.name, [line])) else None;
      } else if current.Some? {
        current := Some(Block(current.value.name, current.value.lines + [line]));
      }
      index := index + 1;
    }
    if current.Some? {
      blocks := blocks[current.value.name := current.value.lines];
    }
  }

  /** The table of a server: its header at h, and the lines up to the next header or the end. */
  predicate IsTableOf(lines: Lines, name: Name, h: nat, e: nat) {
    && h < e <= |lines| && lines[h].kind == McpServer(name)
    && (forall j :: h < j < e ==> Continues(lines[j]))
    && (e < |lines| ==> !Continues(lines[e]))
  }

  lemma {:induction false} TableIsOpen(lines: Lines, name: Name, h: nat, e: nat, n: nat)
    requires IsTableOf(lines, name, h, e) && h < n <= e
    ensures ParseFrom(NothingRead, lines, n).open == Some(Block(name, lines[h..n]))
  {
    if n == h + 1 {
      assert lines[h..n] == [lines[h]];
    } else {
      TableIsOpen(lines, name, h, e, n - 1);
      assert Continues(lines[n - 1]);
      assert lines[h..n] == lines[h..n - 1] + [lines[n - 1]];
    }
  }

  lemma {:induction false} TableStays(lines: Lines, name: Name, h: nat, e: nat, n: nat)
    requires IsTableOf(lines, name, h, e) && e < n <= |lines|
    requires forall j :: e <= j < |lines| ==> lines[j].kind != McpServer(name)
    ensures var p := ParseFrom(NothingRead, lines, n);
      && (p.open.None? || p.open.value.name != name)
      && name in p.blocks && p.blocks[name] == lines[h..e]
  {
    if n == e + 1 {
      TableIsOpen(lines, name, h, e, e);
    } else {
      TableStays(lines, name, h, e, n - 1);
    }
  }

  lemma {:induction false} NamesUpTo(lines: Lines, name: Name, n: nat)
    requires n <= |lines|
    ensures name in Flush(ParseFrom(NothingRead, lines, n)).blocks <==> exists h :: 0 <= h < n && lines[h].kind == McpServer(name)
  {
    if n != 0 {
      NamesUpTo(lines, name, n - 1);
      if lines[n - 1].kind != McpServer(name) && name in Flush(ParseFrom(NothingRead, lines, n)).blocks {
        assert name in Flush(ParseFrom(NothingRead, lines, n - 1)).blocks;
      }
    }
  }

  /** Reading back in general: a name is read exactly if some header has it, and it is read
      as the lines of the last such table. */
  lemma ParsedTables(lines: Lines, name: Name)
    ensures name in Parsed(lines) <==> exists h :: 0 <= h < |lines| && lines[h].kind == McpServer(name)
    ensures forall h: nat, e: nat :: (
      IsTableOf(lines, name, h, e) && (forall j :: e <= j < |lines| ==> lines[j].kind != McpServer(name)) ==>
        name in Parsed(lines) && Parsed(lines)[name] == lines[h..e])
  {
    hide ParseFrom;
    NamesUpTo(lines, name, |lines|);
    forall h: nat, e: nat | IsTableOf(lines, name, h, e) && (forall j :: e <= j < |lines| ==> lines[j].kind != McpServer(name))
      ensures name in Parsed(lines) && Parsed(lines)[name] == lines[h..e]
    {
      if e == |lines| {
        TableIsOpen(lines, name, h, e, e);
      } else {
        TableStays(lines, name, h, e, |lines|);
      }
    }
  }

  /** A server to render: its header is followed by settings, none of them blank. */
  datatype McpTable = McpTable(name: Name, body: Lines)

  predicate IsTable(t: McpTable) {
    forall k :: 0 <= k < |t.body| ==> t.body[k].kind.Text? && t.body[k].padding == 0
  }

  function TableLines(t: McpTable): Lines {
    [Line(McpServer(t.name), 0)] + t.body
  }

  /** The first n tables, an empty line between any two. */
  function Render(tables: seq<McpTable>, n: nat): Lines
    requires n <= |tables|
  {
    if n == 0 then []
    else if n == 1 then TableLines(tables[0])
    else Render(tables, n - 1) + ([Empty] + TableLines(tables[n - 1]))
  }

  /** The lines of each server; of two with one name the later counts. */
  function ServersOf(tables: seq<McpTable>, n: nat): map<Name, Lines>
    requires n <= |tables|
  {
    if n == 0 then map[] else ServersOf(tables, n - 1)[tables[n - 1].name := TableLines(tables[n - 1])]
  }

  /** The blocks are those of the servers, some with an empty line at their end. */
  predicate Reads(blocks: map<Name, Lines>, servers: map<Name, Lines>) {
    && blocks.Keys == servers.Keys
    && (forall name :: name in servers ==> blocks[name] == servers[name] || blocks[name] == servers[name] + [Empty])
  }

  lemma {:induction false} ParsePrefix(p: Parsing, a: Lines, b: Lines, k: nat)
    requires k <= |a|
    ensures ParseFrom(p, a + b, k) == ParseFrom(p, a, k)
  {
    if k != 0 {
      ParsePrefix(p, a, b, k - 1);
    }
  }

  lemma {:induction false} ParseConcat(p: Parsing, a: Lines, b: Lines, k: nat)
    requires k <= |b|
    ensures ParseFrom(p, a + b, |a| + k) == ParseFrom(ParseFrom(p, a, |a|), b, k)
  {
    hide ParseLine;
    if k == 0 {
      ParsePrefix(p, a, b, |a|);
    } else {
      ParseConcat(p, a, b, k - 1);
      assert (a + b)[|a| + k - 1] == b[k - 1];
    }
  }

  lemma {:induction false} ParseNoMcp(p: Parsing, lines: Lines, n: nat)
    requires n <= |lines| && NoMcp(lines) && p.open.None?
    ensures ParseFrom(p, lines, n) == p
  {
    if n != 0 {
      ParseNoMcp(p, lines, n - 1);
    }
  }

  lemma {:induction false} ParseBody(p: Parsing, block: Block, lines: Lines, n: nat)
    requires n <= |lines| && p.open == Some(block)
    requires forall k :: 0 <= k < n ==> !IsTomlTableHeader(lines[k])
    ensures ParseFrom(p, lines, n) == Parsing(Some(Block(block.name, block.lines + lines[..n])), p.blocks)
  {
    if n == 0 {
      assert block.lines + lines[..0] == block.lines;
    } else {
      ParseBody(p, block, lines, n - 1);
      assert lines[..n] == lines[..n - 1] + [lines[n - 1]];
      Assoc(block.lines, lines[..n - 1], [lines[n - 1]]);
    }
  }

  lemma ParseTable(p: Parsing, t: McpTable)
    requires IsTable(t)
    ensures ParseFrom(p, TableLines(t), |TableLines(t)|) == Parsing(Some(Block(t.name, TableLines(t))), Flush(p).blocks)
  {
    var header := Line(McpServer(t.name), 0);
    ParseConcat(p, [header], t.body, |t.body|);
    assert ParseFrom(p, [header], 0) == p;
    ParseBody(Parsing(Some(Block(t.name, [header])), Flush(p).blocks), Block(t.name, [header]), t.body, |t.body|);
    assert t.body[..|t.body|] == t.body;
  }

  /** Reading rendered tables: the last one is still open. */
  lemma {:induction false} ParseRendered(tables: seq<McpTable>, n: nat)
    requires 0 < n <= |tables| && (forall k :: 0 <= k < n ==> IsTable(tables[k]))
    ensures var p := ParseFrom(NothingRead, Render(tables, n), |Render(tables, n)|);
      p.open == Some(Block(tables[n - 1].name, TableLines(tables[n - 1]))) && Reads(Flush(p).blocks, ServersOf(tables, n))
    ensures tables[n - 1].name in ServersOf(tables, n) && ServersOf(tables, n)[tables[n - 1].name] == TableLines(tables[n - 1])
  {
    hide ParseLine, TableLines, IsTable;
    var t := tables[n - 1];
    if n == 1 {
      ParseTable(NothingRead, t);
      assert ServersOf(tables, 0) == map[];
    } else {
      ParseRendered(tables, n - 1);
      var before := Render(tables, n - 1);
      var p := ParseFrom(NothingRead, before, |before|);
      var q := Parsing(Some(Block(p.open.value.name, p.open.value.lines + [Empty])), p.blocks);
      ParseConcat(NothingRead, before, [Empty] + TableLines(t), 1 + |TableLines(t)|);
      ParseConcat(p, [Empty], TableLines(t), |TableLines(t)|);
      ParseBlank(p);
      ParseTable(q, t);
    }
  }

  lemma ParseBlank(p: Parsing)
    requires p.open.Some?
    ensures ParseFrom(p, [Empty], 1) == Parsing(Some(Block(p.open.value.name, p.open.value.lines + [Empty])), p.blocks)
  {
    assert ParseFrom(p, [Empty], 0) == p;
  }

  lemma {:induction false} RenderIsRendering(tables: seq<McpTable>, n: nat)
    requires 0 < n <= |tables| && (forall k :: 0 <= k < n ==> IsTable(tables[k]))
    ensures IsRendering(Render(tables, n))
  {
    hide TableLines, IsTable;
    TableIsRendering(tables[n - 1]);
    if n != 1 {
      RenderIsRendering(tables, n - 1);
      RenderingsTogether(Render(tables, n - 1), TableLines(tables[n - 1]));
    }
  }

  lemma TableIsRendering(t: McpTable)
    requires IsTable(t)
    ensures IsRendering(TableLines(t))
  {
  }

  lemma RenderingsTogether(a: Lines, b: Lines)
    requires IsRendering(a) && IsRendering(b)
    ensures IsRendering(a + ([Empty] + b))
  {
    var r := a + ([Empty] + b);
    assert r[|r| - 1] == b[|b| - 1] && r[|a|] == Empty;
    forall k | 1 <= k < |r| ensures !(r[k] == Empty && r[k - 1] == Empty) {
      if k > |a| + 1 {
        assert r[k] == b[k - |a| - 1] && r[k - 1] == b[k - |a| - 2];
      }
    }
  }

  lemma ParseHeaderAndAfter(p: Parsing, tail: Lines)
    requires NoMcp(tail) && tail != [] && IsTomlTableHeader(tail[0])
    ensures ParseFrom(p, tail, |tail|) == Flush(p)
  {
    var rest := tail[1..];
    assert tail == [tail[0]] + rest;
    assert NoMcp(rest) by {
      forall k | 0 <= k < |rest| ensures !IsMcpServerTableHeader(rest[k]) {
        assert rest[k] == tail[k + 1];
      }
    }
    ParseConcat(p, [tail[0]], rest, |rest|);
    assert ParseFrom(p, [tail[0]], 0) == p;
    ParseNoMcp(Flush(p), rest, |rest|);
  }

  /** A block that is open and exactly a server's lines; n empty lines follow. */
  predicate ReadsOpen(p: Parsing, servers: map<Name, Lines>, blank: bool) {
    && p.open.Some? && p.open.value.name in servers
    && p.open.value.lines == servers[p.open.value.name] + (if blank then [Empty] else [])
    && Reads(Flush(p).blocks, servers)
  }

  lemma ParseGap(p: Parsing, servers: map<Name, Lines>)
    requires ReadsOpen(p, servers, false)
    ensures ReadsOpen(ParseFrom(p, [Empty], 1), servers, true)
  {
    ParseBlank(p);
    assert servers[p.open.value.name] + [] == servers[p.open.value.name];
  }

  lemma ParseEnd(p: Parsing, gap: Lines, tail: Lines, servers: map<Name, Lines>)
    requires ReadsOpen(p, servers, false)
    requires gap == [] || gap == [Empty]
    requires NoMcp(tail) && (tail == [] ==> gap == []) && (tail != [] ==> IsTomlTableHeader(tail[0]))
    ensures var end := gap + (tail + [Empty]); Reads(Flush(ParseFrom(p, end, |end|)).blocks, servers)
  {
    hide ParseFrom, ParseLine, NoMcp, Reads;
    var end := tail + [Empty];
    ParseGap(p, servers);
    if tail == [] {
      assert gap + end == [Empty];
    } else {
      assert NoMcp(end) by { NoMcpPlus(tail); }
      assert end[0] == tail[0];
      var q := if gap == [] then p else ParseFrom(p, [Empty], 1);
      ParseHeaderAndAfter(q, end);
      if gap == [] {
        assert gap + end == end;
      } else {
        ParseConcat(p, [Empty], end, |end|);
      }
    }
  }

  lemma NoMcpPlus(tail: Lines)
    requires NoMcp(tail)
    ensures NoMcp(tail + [Empty])
  {
  }

  lemma ParsePieces(head: Lines, r: Lines, end: Lines)
    requires NoMcp(head)
    ensures var p := ParseFrom(NothingRead, r, |r|);
      Parsed(head + (r + end)) == Flush(ParseFrom(p, end, |end|)).blocks
  {
    hide ParseFrom, NoMcp;
    ParseConcat(NothingRead, head, r + end, |r + end|);
    ParseNoMcp(NothingRead, head, |head|);
    ParseConcat(NothingRead, r, end, |end|);
  }

  lemma RenderedIsOpen(tables: seq<McpTable>)
    requires tables != [] && (forall k :: 0 <= k < |tables| ==> IsTable(tables[k]))
    ensures var r := Render(tables, |tables|); ReadsOpen(ParseFrom(NothingRead, r, |r|), ServersOf(tables, |tables|), false)
  {
    hide ParseFrom, ServersOf, Reads, IsTable, Render, TableLines;
    ParseRendered(tables, |tables|);
    var t := tables[|tables| - 1];
    assert TableLines(t) + [] == TableLines(t);
  }

  /** The servers read back from a rewritten text are exactly those written. */
  lemma WrittenServersAreRead(lines: Lines, tables: seq<McpTable>)
    requires tables != [] && (forall k :: 0 <= k < |tables| ==> IsTable(tables[k]))
    ensures Reads(Parsed(Replaced(lines, Render(tables, |tables|))), ServersOf(tables, |tables|))
  {
    hide *;
    var r := Render(tables, |tables|);
    RenderIsRendering(tables, |tables|);
    ReplacedShape(lines, r);
    GapIs(lines);
    var end := Gap(lines) + (Tail(lines) + [Empty]);
    ParsePieces(Head(lines), r, end);
    RenderedIsOpen(tables);
    ParseEnd(ParseFrom(NothingRead, r, |r|), Gap(lines), Tail(lines), ServersOf(tables, |tables|));
  }

  /** Nothing is read back after a removal. */
  lemma RemovedServersAreNotRead(lines: Lines)
    ensures Parsed(Replaced(lines, [])) == map[]
  {
    hide Replaced, ParseFrom, SolidAll, Unpadded;
    RemovalIsClean(lines);
    ParseNoMcp(NothingRead, Replaced(lines, []), |Replaced(lines, [])|);
  }
}
