/** The markdown subset of the text layers: line classification (headers, rules,
    blank and normal lines), the leftmost `*`/`**`/`***` run parser, the
    `## Footer` splitter, header stripping and segment concatenation. */
module TextFormat {

  import opened StringUtil

  // ---------------------------------------------------------------------------
  // Styled text
  // ---------------------------------------------------------------------------

  /** Only the two flags the parser sets; size and colour are chosen at draw time. */
  datatype TextStyle = TextStyle(bold: bool, italic: bool)

  const Plain := TextStyle(false, false)

  datatype FormattedText = FormattedText(content: string, style: TextStyle)

  datatype LineKind = Normal | Header | Rule

  /** A parsed line; `level` is the header level and 0 for the other kinds. */
  datatype FormattedLine = FormattedLine(segments: seq<FormattedText>, kind: LineKind, level: int)

  const BlankLine := FormattedLine([], Normal, 0)
  const RuleLine := FormattedLine([], Rule, 0)

  // ---------------------------------------------------------------------------
  // Inline runs: parseFormattingRecursive
  // ---------------------------------------------------------------------------

  /** The marker string for a run of 1, 2 or 3 asterisks. */
  function MarkerOf(n: nat): (m: string)
    requires 1 <= n <= 3
    ensures |m| == n && forall i :: 0 <= i < n ==> m[i] == '*'
  {
    if n == 3 then "***" else if n == 2 then "**" else "*"
  }

  /** `***` is bold and italic, `**` bold, `*` italic. */
  function StyleOf(n: nat): TextStyle
  {
    TextStyle(n >= 2, n != 2)
  }

  /** The asterisks that re-create a style when a segment is written back. */
  function Decoration(st: TextStyle): string
  {
    if st.bold && st.italic then "***"
    else if st.bold then "**"
    else if st.italic then "*"
    else ""
  }

  /** Length, capped at three, of the run of asterisks starting at `p`. */
  function StarRun(text: string, p: nat): (n: nat)
    requires p < |text| && text[p] == '*'
    ensures 1 <= n <= 3 && p + n <= |text|
    ensures text[p..p + n] == MarkerOf(n)
    ensures n < 3 ==> p + n == |text| || text[p + n] != '*'
  {
    if p + 2 < |text| && text[p + 1] == '*' && text[p + 2] == '*' then
      assert text[p..p + 3] == MarkerOf(3);
      3
    else if p + 1 < |text| && text[p + 1] == '*' then
      assert text[p..p + 2] == MarkerOf(2);
      2
    else
      assert text[p..p + 1] == MarkerOf(1);
      1
  }

  /** When `long` starts with `short`, every occurrence of `long` is one of
      `short`, so `short` is found no later than `long`. */
  lemma IndexOfExtension(text: string, short: string, long: string)
    requires HasPrefix(long, short)
    ensures Index(text, long) >= 0 ==> 0 <= Index(text, short) <= Index(text, long)
    ensures Index(text, short) >= 0 ==>
      (Index(text, long) == Index(text, short) <==> OccursAt(text, long, Index(text, short)))
  {
    var l := Index(text, long);
    if l >= 0 {
      assert text[l..l + |short|] == text[l..l + |long|][..|short|];
      assert OccursAt(text, short, l);
    }
  }

  lemma FirstStar(text: string)
    ensures Index(text, "*") >= 0 ==> text[Index(text, "*")] == '*'
  {
    var p := Index(text, "*");
    if p >= 0 {
      assert text[p..p + 1] == "*";
    }
  }

  /** Where `**` and `***` are found, relative to the first `*`. */
  lemma StarIndices(text: string)
    ensures var p1 := Index(text, "*");
      && (p1 < 0 ==> Index(text, "**") < 0 && Index(text, "***") < 0)
      && (p1 >= 0 ==> text[p1] == '*')
    ensures var p1 := Index(text, "*");
      var p2 := Index(text, "**");
      p1 >= 0 ==> (p2 < 0 || p2 >= p1) && (p2 == p1 <==> StarRun(text, p1) >= 2)
    ensures var p1 := Index(text, "*");
      var p3 := Index(text, "***");
      p1 >= 0 ==> (p3 < 0 || p3 >= p1) && (p3 == p1 <==> StarRun(text, p1) == 3)
  {
    var p1 := Index(text, "*");
    IndexOfExtension(text, "*", "**");
    IndexOfExtension(text, "*", "***");
    if p1 >= 0 {
      assert text[p1..p1 + 1] == "*";
      var n := StarRun(text, p1);
      if OccursAt(text, "**", p1) {
        assert text[p1 + 1] == text[p1..p1 + 2][1];
      }
      if OccursAt(text, "***", p1) {
        assert text[p1 + 1] == text[p1..p1 + 3][1];
        assert text[p1 + 2] == text[p1..p1 + 3][2];
      }
      if n >= 2 {
        assert text[p1..p1 + 2] == "**";
      }
      if n == 3 {
        assert text[p1..p1 + 3] == "***";
      }
    }
  }

  /** The three "is it here" checks of the source for `***`, `**` and `*`, in
      that order: a later check replaces the choice when its marker is found
      strictly earlier. Returns the position (or -1) and the marker length,
      which are the first asterisk and the run it starts. */
  function ChooseMarker(text: string): (r: (int, nat))
    ensures var p := Index(text, "*");
      r == if p < 0 then (-1, 0) else (p, StarRun(text, p))
  {
    var p3 := Index(text, "***");
    var p2 := Index(text, "**");
    var p1 := Index(text, "*");
    var c3 := if p3 >= 0 then (p3, 3) else (-1, 0);
    var c2 := if (c3.0 == -1 || c3.0 > p2) && p2 >= 0 then (p2, 2) else c3;
    var c1 := if (c2.0 == -1 || c2.0 > p1) && p1 >= 0 then (p1, 1) else c2;
    StarIndices(text);
    c1
  }

  /** Splits `text` into plain and styled segments: plain text up to the first
      asterisk, then the run it starts (capped at three) up to the next equal
      run as one styled segment, then the rest parsed again; a run with no
      closing run leaves the whole remainder as plain text. Nothing is lost:
      writing the segments back with their asterisks gives the input. */
  function ParseFormatting(text: string): (r: seq<FormattedText>)
    ensures !Contains(text, "*") ==> r == (if text == "" then [] else [FormattedText(text, Plain)])
    ensures NoEmptyPlain(r)
    ensures Unparse(r) == text
    decreases |text|, 2
  {
    var (pos, n) := ChooseMarker(text);
    if pos < 0 then
      if text == "" then [] else [FormattedText(text, Plain)]
    else
      FirstStar(text);
      ParseRun(text, pos, n)
  }

  /** The rest of ParseFormatting once the first run, at `pos` and of length
      `n`, is chosen: without a closing run everything from `pos` on is plain. */
  function ParseRun(text: string, pos: nat, n: nat): (r: seq<FormattedText>)
    requires pos < |text| && text[pos] == '*' && n == StarRun(text, pos)
    ensures NoEmptyPlain(r)
    ensures Unparse(r) == text
    decreases |text|, 1
  {
    var close := Index(text[pos + n..], MarkerOf(n));
    if close < 0 then
      UnparsePlainPieces(text, pos);
      (if pos > 0 then [FormattedText(text[..pos], Plain)] else []) + [FormattedText(text[pos..], Plain)]
    else
      ParseClosed(text, pos, n, close)
  }

  /** A run closed at `close` within the text after it: one styled segment for
      what lies between, then the rest parsed again. */
  function ParseClosed(text: string, pos: nat, n: nat, close: nat): (r: seq<FormattedText>)
    requires pos < |text| && text[pos] == '*' && n == StarRun(text, pos)
    requires close + n <= |text[pos + n..]| && OccursAt(text[pos + n..], MarkerOf(n), close)
    ensures NoEmptyPlain(r)
    ensures Unparse(r) == text
    decreases |text|, 0
  {
    var after := text[pos + n..][close + n..];
    var rest := if after != "" then ParseFormatting(after) else [];
    ClosedPieces(text, pos, n, close, rest);
    (if pos > 0 then [FormattedText(text[..pos], Plain)] else [])
      + [FormattedText(text[pos + n..][..close], StyleOf(n))] + rest
  }

  /** The segments for a closed run keep both properties of the parse, given
      that the rest does. */
  lemma ClosedPieces(text: string, pos: nat, n: nat, close: nat, rest: seq<FormattedText>)
    requires pos < |text| && text[pos] == '*' && n == StarRun(text, pos)
    requires close + n <= |text[pos + n..]| && OccursAt(text[pos + n..], MarkerOf(n), close)
    requires NoEmptyPlain(rest) && Unparse(rest) == text[pos + n..][close + n..]
    ensures var r := (if pos > 0 then [FormattedText(text[..pos], Plain)] else [])
      + [FormattedText(text[pos + n..][..close], StyleOf(n))] + rest;
      NoEmptyPlain(r) && Unparse(r) == text
  {
    var before := if pos > 0 then [FormattedText(text[..pos], Plain)] else [];
    UnparseStyledPieces(text, pos, n, close, rest);
    NoEmptyPlainAppend(before + [FormattedText(text[pos + n..][..close], StyleOf(n))], rest);
  }

  /** Unparse of the segments for an unclosed run. */
  lemma UnparsePlainPieces(text: string, pos: nat)
    requires pos < |text|
    ensures var before := if pos > 0 then [FormattedText(text[..pos], Plain)] else [];
      Unparse(before + [FormattedText(text[pos..], Plain)]) == text
  {
    var before := if pos > 0 then [FormattedText(text[..pos], Plain)] else [];
    UnparseAppend(before, [FormattedText(text[pos..], Plain)]);
    UnparseSingle(FormattedText(text[pos..], Plain));
    if pos > 0 {
      UnparseSingle(FormattedText(text[..pos], Plain));
    }
    assert text == text[..pos] + text[pos..];
  }

  /** Unparse of the segments for a closed run, given that of the rest. */
  lemma UnparseStyledPieces(text: string, pos: nat, n: nat, close: nat, rest: seq<FormattedText>)
    requires pos < |text| && text[pos] == '*' && n == StarRun(text, pos)
    requires close + n <= |text[pos + n..]| && OccursAt(text[pos + n..], MarkerOf(n), close)
    requires Unparse(rest) == text[pos + n..][close + n..]
    ensures var before := if pos > 0 then [FormattedText(text[..pos], Plain)] else [];
      Unparse(before + [FormattedText(text[pos + n..][..close], StyleOf(n))] + rest) == text
  {
    var before := if pos > 0 then [FormattedText(text[..pos], Plain)] else [];
    var c := text[pos + n..][..close];
    UnparseBefore(text, pos);
    UnparseStyledSingle(c, n);
    UnparseThree(before, [FormattedText(c, StyleOf(n))], rest);
    StyledPieces(text, pos, n, close);
  }

  lemma UnparseBefore(text: string, pos: nat)
    requires pos <= |text|
    ensures Unparse(if pos > 0 then [FormattedText(text[..pos], Plain)] else []) == text[..pos]
  {
    if pos > 0 {
      UnparseSingle(FormattedText(text[..pos], Plain));
    }
  }

  lemma UnparseStyledSingle(c: string, n: nat)
    requires 1 <= n <= 3
    ensures Unparse([FormattedText(c, StyleOf(n))]) == MarkerOf(n) + c + MarkerOf(n)
  {
    UnparseSingle(FormattedText(c, StyleOf(n)));
  }

  lemma UnparseThree(a: seq<FormattedText>, b: seq<FormattedText>, c: seq<FormattedText>)
    ensures Unparse(a + b + c) == Unparse(a) + Unparse(b) + Unparse(c)
  {
    UnparseAppend(a + b, c);
    UnparseAppend(a, b);
  }

  lemma UnparseSingle(seg: FormattedText)
    ensures Unparse([seg]) == Decoration(seg.style) + seg.content + Decoration(seg.style)
  {
    assert [seg][1..] == [];
  }

  /** Every plain segment has some text (styled ones may be empty, as in "******"). */
  predicate NoEmptyPlain(segs: seq<FormattedText>)
  {
    forall k :: 0 <= k < |segs| ==> segs[k].style == Plain ==> segs[k].content != ""
  }

  lemma NoEmptyPlainAppend(a: seq<FormattedText>, b: seq<FormattedText>)
    requires NoEmptyPlain(a) && NoEmptyPlain(b)
    ensures NoEmptyPlain(a + b)
  {
    forall k | 0 <= k < |a + b|
      ensures (a + b)[k].style == Plain ==> (a + b)[k].content != ""
    {
      if k >= |a| {
        assert (a + b)[k] == b[k - |a|];
      }
    }
  }

  /** Writes segments back as markdown, each styled segment between the
      asterisks of its style. */
  function Unparse(segs: seq<FormattedText>): string
  {
    if |segs| == 0 then ""
    else Decoration(segs[0].style) + segs[0].content + Decoration(segs[0].style) + Unparse(segs[1..])
  }

  lemma {:induction false} UnparseAppend(a: seq<FormattedText>, b: seq<FormattedText>)
    ensures Unparse(a + b) == Unparse(a) + Unparse(b)
    decreases |a|
  {
    if |a| > 0 {
      assert (a + b)[1..] == a[1..] + b;
      UnparseAppend(a[1..], b);
    } else {
      assert a + b == b;
    }
  }

  /** The input around a styled segment: plain prefix, opening run, content,
      closing run, and the rest. */
  lemma StyledPieces(text: string, pos: nat, n: nat, close: nat)
    requires pos < |text| && text[pos] == '*' && n == StarRun(text, pos)
    requires close + n <= |text[pos + n..]| && OccursAt(text[pos + n..], MarkerOf(n), close)
    ensures text == text[..pos] + (MarkerOf(n) + text[pos + n..][..close] + MarkerOf(n))
                    + text[pos + n..][close + n..]
  {
    Around(text, pos, close, MarkerOf(n));
  }

  /** A string cut around two occurrences of `m`, the second one `close`
      characters after the end of the first. */
  lemma Around(text: string, pos: nat, close: nat, m: string)
    requires pos + |m| <= |text| && text[pos..pos + |m|] == m
    requires close + |m| <= |text[pos + |m|..]| && text[pos + |m|..][close..close + |m|] == m
    ensures text == text[..pos] + (m + text[pos + |m|..][..close] + m) + text[pos + |m|..][close + |m|..]
  {
    var r := text[pos + |m|..];
    var c := r[..close];
    var a := r[close + |m|..];
    assert r == c + m + a by {
      ThreePieces(r, close, close + |m|);
    }
    assert text == text[..pos] + m + r by {
      ThreePieces(text, pos, pos + |m|);
    }
    Regroup(text[..pos], m, c, a);
  }

  lemma Regroup(p: string, m: string, c: string, a: string)
    ensures p + m + (c + m + a) == p + (m + c + m) + a
  {
    assert p + m + (c + m + a) == p + (m + c + m) + a;
  }

  /** A run with no closing run: everything from the first asterisk on is one
      plain segment and nothing after it is parsed. */
  lemma Unterminated(text: string)
    requires Contains(text, "*")
    requires !Contains(text[Index(text, "*") + StarRun(text, Index(text, "*"))..],
                       MarkerOf(StarRun(text, Index(text, "*"))))
    ensures var p := Index(text, "*");
      ParseFormatting(text)
        == (if p > 0 then [FormattedText(text[..p], Plain)] else []) + [FormattedText(text[p..], Plain)]
  {
    var p := Index(text, "*");
    FirstStar(text);
    var n := StarRun(text, p);
    assert ChooseMarker(text) == (p, n);
    assert ParseFormatting(text) == ParseRun(text, p, n);
    assert Index(text[p + n..], MarkerOf(n)) < 0;
  }

  /** A run that is closed: the plain text before the first asterisk `p`
      (when there is some), the text up to the first equal run (at `close`
      after the opening run of `n`) in the style of the run, then the parse of
      what follows the closing run. */
  lemma ClosedRun(text: string, p: nat, n: nat, close: nat)
    requires p == Index(text, "*") && p < |text| && text[p] == '*' && n == StarRun(text, p)
    requires close == Index(text[p + n..], MarkerOf(n))
    ensures ParseFormatting(text)
      == (if p > 0 then [FormattedText(text[..p], Plain)] else [])
         + [FormattedText(text[p + n..][..close], StyleOf(n))]
         + (if text[p + n..][close + n..] != "" then ParseFormatting(text[p + n..][close + n..]) else [])
  {
    assert ChooseMarker(text) == (p, n);
    assert ParseFormatting(text) == ParseRun(text, p, n);
    assert OccursAt(text[p + n..], MarkerOf(n), close);
    assert ParseRun(text, p, n) == ParseClosed(text, p, n, close);
    ClosedValue(text, p, n, close);
  }

  lemma ClosedValue(text: string, pos: nat, n: nat, close: nat)
    requires pos < |text| && text[pos] == '*' && n == StarRun(text, pos)
    requires close + n <= |text[pos + n..]| && OccursAt(text[pos + n..], MarkerOf(n), close)
    ensures var after := text[pos + n..][close + n..];
      ParseClosed(text, pos, n, close)
        == (if pos > 0 then [FormattedText(text[..pos], Plain)] else [])
           + [FormattedText(text[pos + n..][..close], StyleOf(n))]
           + (if after != "" then ParseFormatting(after) else [])
  {
  }

  /** combineSegments: the segment texts, concatenated. */
  function CombineSegments(segs: seq<FormattedText>): string
  {
    if |segs| == 0 then "" else segs[0].content + CombineSegments(segs[1..])
  }

  /** On plain segments, concatenating and writing back agree. */
  lemma {:induction false} CombinePlain(segs: seq<FormattedText>)
    requires forall k :: 0 <= k < |segs| ==> segs[k].style == Plain
    ensures CombineSegments(segs) == Unparse(segs)
    decreases |segs|
  {
    if |segs| > 0 {
      CombinePlain(segs[1..]);
    }
  }

  /** Text without asterisks comes back unchanged from parse-then-combine. */
  lemma CombineParseNoStars(text: string)
    requires !Contains(text, "*")
    ensures CombineSegments(ParseFormatting(text)) == text
  {
  }

  // ---------------------------------------------------------------------------
  // Line classification: ProcessMarkdown
  // ---------------------------------------------------------------------------

  /** Number of leading '#' characters. */
  function HashRun(s: string): (n: nat)
    ensures n <= |s|
    ensures forall i :: 0 <= i < n ==> s[i] == '#'
    ensures n < |s| ==> s[n] != '#'
    decreases |s|
  {
    if |s| == 0 || s[0] != '#' then 0 else 1 + HashRun(s[1..])
  }

  /** What the header loop leaves behind: the level it counted and the text.
      A space after the hashes cuts the text after it; any other character
      resets the level to 0; a line of hashes only keeps its whole text. */
  function HeaderScan(line: string): (r: (int, string))
    ensures r.0 == 0 || r.0 == HashRun(line)
    ensures r.0 > 0 <==> HashRun(line) > 0 && (HashRun(line) == |line| || line[HashRun(line)] == ' ')
    ensures HashRun(line) < |line| && line[HashRun(line)] == ' ' ==> r.1 == line[HashRun(line) + 1..]
    ensures HashRun(line) == |line| || line[HashRun(line)] != ' ' ==> r.1 == line
  {
    var n := HashRun(line);
    if n == |line| then (n, line)
    else if line[n] == ' ' then (n, line[n + 1..])
    else (0, line)
  }

  /** The header loop of ProcessMarkdown, character by character. */
  method ScanHeader(line: string) returns (level: int, text: string)
    ensures (level, text) == HeaderScan(line)
  {
    level, text := 0, line;
    var i := 0;
    while i < |line|
      invariant 0 <= i <= |line|
      invariant level == i && text == line
      invariant forall k :: 0 <= k < i ==> line[k] == '#'
    {
      if line[i] == '#' {
        level := level + 1;
      } else if line[i] == ' ' {
        text := line[i + 1..];
        return;
      } else {
        level := 0;
        return;
      }
      i := i + 1;
    }
  }

  /** The line ProcessMarkdown emits for one input line. */
  function ClassifyLine(raw: string): (l: FormattedLine)
    ensures TrimSpace(raw) == "" ==> l == BlankLine
    ensures l.kind == Rule <==>
      TrimSpace(raw) != "" && (HasPrefix(TrimSpace(raw), "---") || HasPrefix(TrimSpace(raw), "***"))
    ensures l.kind == Header ==> 1 <= l.level <= 6
    ensures l.kind != Header ==> l.level == 0
  {
    var line := TrimSpace(raw);
    if line == "" then BlankLine
    else if HasPrefix(line, "---") || HasPrefix(line, "***") then RuleLine
    else if HasPrefix(line, "#") && 1 <= HeaderScan(line).0 <= 6 then
      FormattedLine(ParseFormatting(HeaderScan(line).1), Header, HeaderScan(line).0)
    else if HasPrefix(line, "#") then FormattedLine(ParseFormatting(HeaderScan(line).1), Normal, 0)
    else FormattedLine(ParseFormatting(line), Normal, 0)
  }

  /** A trimmed line of one to six '#' followed by a space (or of hashes only)
      is a header at that level whose text is what follows the space. */
  lemma HeaderLine(raw: string)
    requires var t := TrimSpace(raw);
      var n := HashRun(t);
      && !HasPrefix(t, "---") && !HasPrefix(t, "***")
      && 1 <= n <= 6 && (n == |t| || t[n] == ' ')
    ensures var t := TrimSpace(raw);
      var n := HashRun(t);
      ClassifyLine(raw)
        == FormattedLine(ParseFormatting(if n == |t| then t else t[n + 1..]), Header, n)
  {
    var t := TrimSpace(raw);
    assert t[..1] == "#";
  }

  /** Seven or more '#' and a space give a normal line whose hashes and space
      have already been cut off. */
  lemma OverlongHeader(raw: string)
    requires var t := TrimSpace(raw);
      var n := HashRun(t);
      n >= 7 && n < |t| && t[n] == ' '
    ensures var t := TrimSpace(raw);
      ClassifyLine(raw) == FormattedLine(ParseFormatting(t[HashRun(t) + 1..]), Normal, 0)
  {
    var t := TrimSpace(raw);
    assert t[..1] == "#";
    assert t[..3] == "###";
  }

  /** The body of ProcessMarkdown's loop for one input line. */
  method FormatLine(raw: string) returns (l: FormattedLine)
    ensures l == ClassifyLine(raw)
  {
    var line := TrimSpace(raw);
    if line == "" {
      return BlankLine;
    }
    if HasPrefix(line, "---") || HasPrefix(line, "***") {
      return RuleLine;
    }
    if HasPrefix(line, "#") {
      var level, text := ScanHeader(line);
      if 1 <= level <= 6 {
        return FormattedLine(ParseFormatting(text), Header, level);
      }
      line := text;
    }
    l := FormattedLine(ParseFormatting(line), Normal, 0);
  }

  /** ProcessMarkdown: one formatted line per "\n"-separated input line, in order. */
  method ProcessMarkdown(content: string) returns (lines: seq<FormattedLine>)
    ensures |lines| == |Split(content, "\n")|
    ensures forall i :: 0 <= i < |lines| ==> lines[i] == ClassifyLine(Split(content, "\n")[i])
  {
    var raw := Split(content, "\n");
    lines := [];
    var i := 0;
    while i < |raw|
      invariant 0 <= i <= |raw|
      invariant |lines| == i
      invariant forall k :: 0 <= k < i ==> lines[k] == ClassifyLine(raw[k])
    {
      var l := FormatLine(raw[i]);
      lines := lines + [l];
      i := i + 1;
    }
  }

  // ---------------------------------------------------------------------------
  // Header stripping: StripMarkdownHeaders (also the body filter of the parser)
  // ---------------------------------------------------------------------------

  predicate IsHeaderLine(line: string)
  {
    HasPrefix(TrimSpace(line), "#")
  }

  /** The lines that are not headers, verbatim and in order. */
  function NonHeaderLines(lines: seq<string>): (kept: seq<string>)
    ensures |kept| <= |lines|
    ensures forall k :: 0 <= k < |kept| ==> !IsHeaderLine(kept[k])
    ensures forall k :: 0 <= k < |kept| ==> kept[k] in lines
    ensures (forall k :: 0 <= k < |lines| ==> !IsHeaderLine(lines[k])) ==> kept == lines
  {
    if |lines| == 0 then []
    else if IsHeaderLine(lines[0]) then NonHeaderLines(lines[1..])
    else [lines[0]] + NonHeaderLines(lines[1..])
  }

  /** The text StripMarkdownHeaders produces. */
  function StrippedText(content: string): string
  {
    Join(NonHeaderLines(Split(content, "\n")), "\n")
  }

  method StripMarkdownHeaders(content: string) returns (r: string)
    ensures r == StrippedText(content)
  {
    var lines := Split(content, "\n");
    var clean: seq<string> := [];
    var i := 0;
    while i < |lines|
      invariant 0 <= i <= |lines|
      invariant clean == NonHeaderLines(lines[..i])
    {
      var line := lines[i];
      NonHeaderLinesStep(lines, i);
      if !IsHeaderLine(line) {
        clean := clean + [line];
      }
      i := i + 1;
    }
    assert lines[..|lines|] == lines;
    r := Join(clean, "\n");
  }

  lemma NonHeaderLinesStep(lines: seq<string>, i: nat)
    requires i < |lines|
    ensures NonHeaderLines(lines[..i + 1])
      == NonHeaderLines(lines[..i]) + (if IsHeaderLine(lines[i]) then [] else [lines[i]])
  {
    assert lines[..i + 1] == lines[..i] + [lines[i]];
    NonHeaderLinesSnoc(lines[..i], lines[i]);
  }

  lemma {:induction false} NonHeaderLinesSnoc(lines: seq<string>, line: string)
    ensures NonHeaderLines(lines + [line])
      == NonHeaderLines(lines) + (if IsHeaderLine(line) then [] else [line])
    decreases |lines|
  {
    if |lines| > 0 {
      assert (lines + [line])[1..] == lines[1..] + [line];
      NonHeaderLinesSnoc(lines[1..], line);
    } else {
      assert [] + [line] == [line];
    }
  }

  /** Stripping headers twice is stripping them once. */
  lemma StripIdempotent(content: string)
    ensures StrippedText(StrippedText(content)) == StrippedText(content)
  {
    var kept := NonHeaderLines(Split(content, "\n"));
    if |kept| == 0 {
      assert StrippedText(content) == "";
      assert Split("", "\n") == [""];
      assert !IsHeaderLine("");
    } else {
      forall k | 0 <= k < |kept|
        ensures !Contains(kept[k], "\n")
      {
        assert kept[k] in Split(content, "\n");
      }
      SplitJoin(kept, "\n");
    }
  }

  // ---------------------------------------------------------------------------
  // The footer: SeparateFooter
  // ---------------------------------------------------------------------------

  /** "## Footer" in any letter case, with surrounding spaces. */
  predicate IsFooterMarker(line: string)
  {
    TrimSpace(ToLower(line)) == "## footer"
  }

  predicate IsBlankLine(line: string)
  {
    TrimSpace(line) == ""
  }

  /** Index of the first footer marker line, or -1. */
  function FooterIndex(lines: seq<string>): (i: int)
    ensures -1 <= i < |lines|
    ensures i >= 0 ==> IsFooterMarker(lines[i])
    ensures forall j :: 0 <= j < |lines| && (i < 0 || j < i) ==> !IsFooterMarker(lines[j])
  {
    if |lines| == 0 then -1
    else if IsFooterMarker(lines[0]) then 0
    else
      var k := FooterIndex(lines[1..]);
      if k < 0 then -1 else k + 1
  }

  /** The longest prefix that does not end in a blank line. */
  function DropTrailingBlank(lines: seq<string>): (r: seq<string>)
    ensures |r| <= |lines| && r == lines[..|r|]
    ensures |r| > 0 ==> !IsBlankLine(r[|r| - 1])
    ensures forall j :: |r| <= j < |lines| ==> IsBlankLine(lines[j])
  {
    if |lines| > 0 && IsBlankLine(lines[|lines| - 1]) then DropTrailingBlank(lines[..|lines| - 1])
    else lines
  }

  /** The longest suffix that does not start with a blank line. */
  function DropLeadingBlank(lines: seq<string>): (r: seq<string>)
    ensures |r| <= |lines| && r == lines[|lines| - |r|..]
    ensures |r| > 0 ==> !IsBlankLine(r[0])
    ensures forall j :: 0 <= j < |lines| - |r| ==> IsBlankLine(lines[j])
  {
    if |lines| > 0 && IsBlankLine(lines[0]) then DropLeadingBlank(lines[1..]) else lines
  }

  /** The (body, footer) pair SeparateFooter returns. */
  function FooterSplit(content: string): (string, string)
  {
    var lines := Split(content, "\n");
    var i := FooterIndex(lines);
    if i < 0 then (content, "")
    else (Join(DropTrailingBlank(lines[..i]), "\n"), Join(DropLeadingBlank(lines[i + 1..]), "\n"))
  }

  method SeparateFooter(content: string) returns (body: string, footer: string)
    ensures (body, footer) == FooterSplit(content)
  {
    var lines := Split(content, "\n");
    var start := -1;
    var i := 0;
    while i < |lines|
      invariant 0 <= i <= |lines|
      invariant start == -1 || (start == i - 1 && i > 0 && start == FooterIndex(lines))
      invariant start == -1 ==> forall j :: 0 <= j < i ==> !IsFooterMarker(lines[j])
    {
      if IsFooterMarker(lines[i]) {
        start := i;
        FooterIndexFirst(lines, i);
        break;
      }
      i := i + 1;
    }
    if start == -1 {
      FooterIndexNone(lines);
      return content, "";
    }
    var bodyLines := lines[..start];
    var footerLines := lines[start + 1..];
    while |bodyLines| > 0 && IsBlankLine(bodyLines[|bodyLines| - 1])
      invariant DropTrailingBlank(bodyLines) == DropTrailingBlank(lines[..start])
    {
      bodyLines := bodyLines[..|bodyLines| - 1];
    }
    while |footerLines| > 0 && IsBlankLine(footerLines[0])
      invariant DropLeadingBlank(footerLines) == DropLeadingBlank(lines[start + 1..])
    {
      footerLines := footerLines[1..];
    }
    body := Join(bodyLines, "\n");
    footer := Join(footerLines, "\n");
  }

  lemma {:induction false} FooterIndexFirst(lines: seq<string>, i: nat)
    requires i < |lines| && IsFooterMarker(lines[i])
    requires forall j :: 0 <= j < i ==> !IsFooterMarker(lines[j])
    ensures FooterIndex(lines) == i
    decreases i
  {
    if i > 0 {
      FooterIndexFirst(lines[1..], i - 1);
    }
  }

  lemma {:induction false} FooterIndexNone(lines: seq<string>)
    requires forall j :: 0 <= j < |lines| ==> !IsFooterMarker(lines[j])
    ensures FooterIndex(lines) == -1
    decreases |lines|
  {
    if |lines| > 0 {
      FooterIndexNone(lines[1..]);
    }
  }

  /** With a footer marker, the content is split at the first one: the body is
      the lines before it without trailing blank lines, the footer the lines
      after it without leading blank lines; the marker itself is in neither. */
  lemma FooterAtFirstMarker(content: string, i: nat)
    requires i < |Split(content, "\n")| && IsFooterMarker(Split(content, "\n")[i])
    requires forall j :: 0 <= j < i ==> !IsFooterMarker(Split(content, "\n")[j])
    ensures var lines := Split(content, "\n");
      FooterSplit(content)
        == (Join(DropTrailingBlank(lines[..i]), "\n"), Join(DropLeadingBlank(lines[i + 1..]), "\n"))
  {
    FooterIndexFirst(Split(content, "\n"), i);
  }

  /** Without a footer marker the content is all body. */
  lemma NoFooter(content: string)
    requires forall j :: 0 <= j < |Split(content, "\n")| ==> !IsFooterMarker(Split(content, "\n")[j])
    ensures FooterSplit(content) == (content, "")
  {
    FooterIndexNone(Split(content, "\n"));
  }
}
