/** Greedy word wrapping of styled segments into lines no wider than a given
    width (wrapFormattedSegments), with text measurement left abstract. */
module WordWrap {

  import opened StringUtil
  import opened TextFormat

  /** A whitespace-separated word of a segment, the style of that segment, and
      whether it was the segment's first word (the source's `i == 0`). */
  datatype Word = Word(text: string, style: TextStyle, first: bool)

  /** The width of a text in a style (the font face's MeasureString). */
  type Measure = (TextStyle, string) -> real

  /** How the loop accounts for the space it puts in front of a word:
      `AsWritten` measures a segment's first word without it even when the
      word joins a non-empty line; `Corrected` measures what is appended. */
  datatype SpaceRule = AsWritten | Corrected

  // ---------------------------------------------------------------------------
  // Words
  // ---------------------------------------------------------------------------

  function SegmentWords(seg: FormattedText): (ws: seq<Word>)
    ensures |ws| == |Fields(seg.content)|
    ensures forall i :: 0 <= i < |ws| ==> ws[i] == Word(Fields(seg.content)[i], seg.style, i == 0)
  {
    var f := Fields(seg.content);
    seq(|f|, i requires 0 <= i < |f| => Word(f[i], seg.style, i == 0))
  }

  /** All words of all segments, in order. */
  function Words(segs: seq<FormattedText>): seq<Word>
  {
    if |segs| == 0 then [] else Words(segs[..|segs| - 1]) + SegmentWords(segs[|segs| - 1])
  }

  /** The first word of the whole text is the first word of its segment. */
  lemma {:induction false} WordsStartSegment(segs: seq<FormattedText>)
    ensures |Words(segs)| > 0 ==> Words(segs)[0].first
    decreases |segs|
  {
    if |segs| > 0 {
      WordsStartSegment(segs[..|segs| - 1]);
    }
  }

  // ---------------------------------------------------------------------------
  // The greedy fold
  // ---------------------------------------------------------------------------

  /** The width added for word `w`, measured with the space in front of it when
      the rule says so; `lineEmpty` tells whether the line has no word yet. */
  function Advance(rule: SpaceRule, m: Measure, w: Word, lineEmpty: bool): real
  {
    match rule
    case AsWritten => m(w.style, if w.first then w.text else " " + w.text)
    case Corrected => m(w.style, if lineEmpty then w.text else " " + w.text)
  }

  /** Finished lines, the line being filled, and its recorded width. */
  datatype WrapState = WrapState(done: seq<seq<Word>>, cur: seq<Word>, width: real)

  /** One iteration of the inner loop: start a new line with the word when it
      does not fit and the current line is non-empty, else append it. */
  function Step(rule: SpaceRule, m: Measure, maxWidth: real, st: WrapState, w: Word): WrapState
  {
    var adv := Advance(rule, m, w, st.cur == []);
    if st.width + adv > maxWidth && st.cur != [] then
      WrapState(st.done + [st.cur], [w], m(w.style, w.text))
    else
      WrapState(st.done, st.cur + [w], st.width + adv)
  }

  function Fold(rule: SpaceRule, m: Measure, maxWidth: real, ws: seq<Word>): WrapState
  {
    if |ws| == 0 then WrapState([], [], 0.0)
    else Step(rule, m, maxWidth, Fold(rule, m, maxWidth, ws[..|ws| - 1]), ws[|ws| - 1])
  }

  /** The words of each output line. */
  function Groups(rule: SpaceRule, m: Measure, maxWidth: real, ws: seq<Word>): seq<seq<Word>>
  {
    var st := Fold(rule, m, maxWidth, ws);
    if st.cur == [] then st.done else st.done + [st.cur]
  }

  // ---------------------------------------------------------------------------
  // Rendering the groups as segments
  // ---------------------------------------------------------------------------

  /** A word as a segment: the first on its line as is, the others after a space. */
  function Fragment(w: Word, lead: bool): FormattedText
  {
    FormattedText(if lead then w.text else " " + w.text, w.style)
  }

  function RenderLine(g: seq<Word>): (line: seq<FormattedText>)
    ensures |line| == |g|
    ensures forall i :: 0 <= i < |g| ==> line[i] == Fragment(g[i], i == 0)
  {
    seq(|g|, i requires 0 <= i < |g| => Fragment(g[i], i == 0))
  }

  function RenderLines(gs: seq<seq<Word>>): (lines: seq<seq<FormattedText>>)
    ensures |lines| == |gs|
    ensures forall i :: 0 <= i < |gs| ==> lines[i] == RenderLine(gs[i])
  {
    seq(|gs|, i requires 0 <= i < |gs| => RenderLine(gs[i]))
  }

  /** The wrapped lines for a list of segments. */
  function Wrap(rule: SpaceRule, m: Measure, maxWidth: real, segs: seq<FormattedText>): seq<seq<FormattedText>>
  {
    RenderLines(Groups(rule, m, maxWidth, Words(segs)))
  }

  // ---------------------------------------------------------------------------
  // What the fold guarantees
  // ---------------------------------------------------------------------------

  function Flatten(gs: seq<seq<Word>>): seq<Word>
  {
    if |gs| == 0 then [] else Flatten(gs[..|gs| - 1]) + gs[|gs| - 1]
  }

  /** Sum of the advances of words that join a non-empty line. */
  function AdvSum(rule: SpaceRule, m: Measure, ws: seq<Word>): real
  {
    if |ws| == 0 then 0.0 else AdvSum(rule, m, ws[..|ws| - 1]) + Advance(rule, m, ws[|ws| - 1], false)
  }

  /** The width the loop has recorded for a line holding the words of `g`. */
  function Tracked(rule: SpaceRule, m: Measure, g: seq<Word>): real
  {
    if |g| == 0 then 0.0 else m(g[0].style, g[0].text) + AdvSum(rule, m, g[1..])
  }

  /** Every word after the first was appended because it still fitted. */
  predicate Fits(rule: SpaceRule, m: Measure, maxWidth: real, g: seq<Word>)
  {
    forall k :: 1 <= k < |g| ==> Tracked(rule, m, g[..k]) + Advance(rule, m, g[k], false) <= maxWidth
  }

  /** The break between lines `a` and `b` was needed: the first word of `b`
      did not fit after `a`. */
  predicate Forced(rule: SpaceRule, m: Measure, maxWidth: real, a: seq<Word>, b: seq<Word>)
  {
    |b| > 0 && Tracked(rule, m, a) + Advance(rule, m, b[0], false) > maxWidth
  }

  /** Every line break was needed. */
  predicate Breaks(rule: SpaceRule, m: Measure, maxWidth: real, gs: seq<seq<Word>>)
  {
    forall i :: 0 < i < |gs| ==> Forced(rule, m, maxWidth, gs[i - 1], gs[i])
  }

  predicate NonEmptyGroups(gs: seq<seq<Word>>)
  {
    forall i :: 0 <= i < |gs| ==> |gs[i]| > 0
  }

  predicate AllFit(rule: SpaceRule, m: Measure, maxWidth: real, gs: seq<seq<Word>>)
  {
    forall i :: 0 <= i < |gs| ==> Fits(rule, m, maxWidth, gs[i])
  }

  /** The invariant the fold keeps. */
  predicate FoldInv(rule: SpaceRule, m: Measure, maxWidth: real, ws: seq<Word>, st: WrapState)
  {
    && Flatten(st.done) + st.cur == ws
    && NonEmptyGroups(st.done)
    && (st.cur == [] <==> ws == [])
    && st.width == Tracked(rule, m, st.cur)
    && AllFit(rule, m, maxWidth, st.done + [st.cur])
    && Breaks(rule, m, maxWidth, st.done + [st.cur])
  }

  lemma TrackedSnoc(rule: SpaceRule, m: Measure, g: seq<Word>, w: Word)
    requires |g| > 0
    ensures Tracked(rule, m, g + [w]) == Tracked(rule, m, g) + Advance(rule, m, w, false)
  {
    assert (g + [w])[1..] == g[1..] + [w];
    assert (g[1..] + [w])[..|g[1..]|] == g[1..];
  }

  lemma FitsSnoc(rule: SpaceRule, m: Measure, maxWidth: real, g: seq<Word>, w: Word)
    requires Fits(rule, m, maxWidth, g)
    requires |g| > 0 ==> Tracked(rule, m, g) + Advance(rule, m, w, false) <= maxWidth
    ensures Fits(rule, m, maxWidth, g + [w])
  {
    forall k | 1 <= k < |g + [w]|
      ensures Tracked(rule, m, (g + [w])[..k]) + Advance(rule, m, (g + [w])[k], false) <= maxWidth
    {
      if k < |g| {
        assert (g + [w])[..k] == g[..k];
      } else {
        assert (g + [w])[..k] == g;
      }
    }
  }

  lemma FlattenSnoc(gs: seq<seq<Word>>, g: seq<Word>)
    ensures Flatten(gs + [g]) == Flatten(gs) + g
  {
    assert (gs + [g])[..|gs|] == gs;
  }

  /** A word that does not fit closes the current line and opens a new one. */
  lemma StepBreaks(rule: SpaceRule, m: Measure, maxWidth: real, ws: seq<Word>, st: WrapState, w: Word)
    requires FoldInv(rule, m, maxWidth, ws, st)
    requires st.cur != [] && st.width + Advance(rule, m, w, false) > maxWidth
    ensures FoldInv(rule, m, maxWidth, ws + [w], WrapState(st.done + [st.cur], [w], m(w.style, w.text)))
  {
    var gs := st.done + [st.cur];
    FlattenSnoc(st.done, st.cur);
    assert Fits(rule, m, maxWidth, [w]);
    assert Forced(rule, m, maxWidth, st.cur, [w]);
    assert gs[|gs| - 1] == st.cur;
    var gs' := gs + [[w]];
    forall i | 0 < i < |gs'|
      ensures Forced(rule, m, maxWidth, gs'[i - 1], gs'[i])
    {
      if i < |gs| {
        assert gs'[i - 1] == gs[i - 1] && gs'[i] == gs[i];
      }
    }
    forall i | 0 <= i < |gs'|
      ensures Fits(rule, m, maxWidth, gs'[i])
    {
      if i < |gs| {
        assert gs'[i] == gs[i];
      }
    }
  }

  /** A word that fits, or that starts the first line, joins the current line. */
  lemma StepAppends(rule: SpaceRule, m: Measure, maxWidth: real, ws: seq<Word>, st: WrapState, w: Word)
    requires FoldInv(rule, m, maxWidth, ws, st)
    requires rule == AsWritten && st.cur == [] ==> w.first
    requires st.cur == [] || st.width + Advance(rule, m, w, false) <= maxWidth
    ensures FoldInv(rule, m, maxWidth, ws + [w],
      WrapState(st.done, st.cur + [w], st.width + Advance(rule, m, w, st.cur == [])))
  {
    var gs := st.done + [st.cur];
    var cur' := st.cur + [w];
    var gs' := st.done + [cur'];
    if st.cur != [] {
      TrackedSnoc(rule, m, st.cur, w);
    }
    assert |gs'| == |gs| && gs'[|gs| - 1] == cur' && gs[|gs| - 1] == st.cur;
    assert Fits(rule, m, maxWidth, gs[|gs| - 1]);
    FitsSnoc(rule, m, maxWidth, st.cur, w);
    assert Flatten(st.done) + cur' == ws + [w];
    forall i | 0 < i < |gs'|
      ensures Forced(rule, m, maxWidth, gs'[i - 1], gs'[i])
    {
      assert gs'[i - 1] == gs[i - 1];
      if i < |gs| - 1 {
        assert gs'[i] == gs[i];
      } else {
        assert Forced(rule, m, maxWidth, gs[i - 1], gs[i]);
      }
    }
    forall i | 0 <= i < |gs'|
      ensures Fits(rule, m, maxWidth, gs'[i])
    {
      if i < |gs| - 1 {
        assert gs'[i] == gs[i];
      }
    }
    var st' := WrapState(st.done, cur', st.width + Advance(rule, m, w, st.cur == []));
    assert Flatten(st'.done) + st'.cur == ws + [w];
    assert NonEmptyGroups(st'.done);
    assert st'.width == Tracked(rule, m, st'.cur);
    assert AllFit(rule, m, maxWidth, st'.done + [st'.cur]);
    assert Breaks(rule, m, maxWidth, st'.done + [st'.cur]);
  }

  /** One word keeps the invariant, whichever branch the step takes. */
  lemma StepKeeps(rule: SpaceRule, m: Measure, maxWidth: real, ws: seq<Word>, st: WrapState, w: Word)
    requires FoldInv(rule, m, maxWidth, ws, st)
    requires rule == AsWritten && st.cur == [] ==> w.first
    ensures FoldInv(rule, m, maxWidth, ws + [w], Step(rule, m, maxWidth, st, w))
  {
    if st.cur != [] && st.width + Advance(rule, m, w, false) > maxWidth {
      StepBreaks(rule, m, maxWidth, ws, st, w);
    } else {
      StepAppends(rule, m, maxWidth, ws, st, w);
    }
  }

  /** The fold keeps its invariant, word by word. */
  lemma {:induction false} FoldInvariant(rule: SpaceRule, m: Measure, maxWidth: real, ws: seq<Word>)
    requires rule == AsWritten && |ws| > 0 ==> ws[0].first
    ensures FoldInv(rule, m, maxWidth, ws, Fold(rule, m, maxWidth, ws))
    decreases |ws|
  {
    if |ws| > 0 {
      var pre := ws[..|ws| - 1];
      var w := ws[|ws| - 1];
      assert ws == pre + [w];
      assert rule == AsWritten && |pre| > 0 ==> pre[0].first;
      FoldInvariant(rule, m, maxWidth, pre);
      var st := Fold(rule, m, maxWidth, pre);
      assert st.cur == [] ==> pre == [];
      FoldSnoc(rule, m, maxWidth, pre, w);
      StepKeeps(rule, m, maxWidth, pre, st, w);
    }
  }

  /** The greedy wrap: the lines hold every word once and in order, no line is
      empty, every word after the first of a line fitted when it was added,
      and every line break was forced by the next word not fitting. */
  lemma GroupsCorrect(rule: SpaceRule, m: Measure, maxWidth: real, ws: seq<Word>)
    requires rule == AsWritten && |ws| > 0 ==> ws[0].first
    ensures var gs := Groups(rule, m, maxWidth, ws);
      && Flatten(gs) == ws
      && NonEmptyGroups(gs)
      && AllFit(rule, m, maxWidth, gs)
      && Breaks(rule, m, maxWidth, gs)
  {
    FoldInvariant(rule, m, maxWidth, ws);
    var st := Fold(rule, m, maxWidth, ws);
    if st.cur != [] {
      FlattenSnoc(st.done, st.cur);
    }
  }

  /** The first segment of every line is its first word, without a space;
      the others carry one leading space; joined, a line reads as its words
      separated by single spaces. */
  lemma {:induction false} RenderLineText(g: seq<Word>)
    requires |g| > 0
    ensures RenderLine(g)[0].content == g[0].text
    ensures CombineSegments(RenderLine(g)) == Join(Texts(g), " ")
    decreases |g|
  {
    if |g| > 1 {
      RenderLineText(g[1..]);
      var tail := RenderLine(g[1..]);
      assert RenderLine(g)[1..] == [Fragment(g[1], false)] + tail[1..];
      assert CombineSegments(RenderLine(g)[1..]) == " " + CombineSegments(tail) by {
        assert CombineSegments(tail) == g[1].text + CombineSegments(tail[1..]);
      }
      assert Texts(g)[1..] == Texts(g[1..]);
    } else {
      assert RenderLine(g)[1..] == [];
    }
  }

  function Texts(g: seq<Word>): (ts: seq<string>)
    ensures |ts| == |g|
  {
    seq(|g|, i requires 0 <= i < |g| => g[i].text)
  }

  // ---------------------------------------------------------------------------
  // The wrapping loop
  // ---------------------------------------------------------------------------

  lemma FoldCurEmpty(rule: SpaceRule, m: Measure, maxWidth: real, ws: seq<Word>)
    ensures Fold(rule, m, maxWidth, ws).cur == [] <==> ws == []
  {
  }

  lemma FoldSnoc(rule: SpaceRule, m: Measure, maxWidth: real, ws: seq<Word>, w: Word)
    ensures Fold(rule, m, maxWidth, ws + [w]) == Step(rule, m, maxWidth, Fold(rule, m, maxWidth, ws), w)
  {
    assert (ws + [w])[..|ws|] == ws;
  }

  lemma RenderLineSnoc(g: seq<Word>, w: Word)
    ensures RenderLine(g + [w]) == RenderLine(g) + [Fragment(w, g == [])]
  {
  }

  lemma RenderLinesSnoc(gs: seq<seq<Word>>, g: seq<Word>)
    ensures RenderLines(gs + [g]) == RenderLines(gs) + [RenderLine(g)]
  {
  }

  /** One pass of the inner loop's body: word `w` (the `first` flag is the
      source's `i == 0`) is added to the lines built so far. */
  method AddWord(wrapped: seq<seq<FormattedText>>, currentLine: seq<FormattedText>, width: real,
                 w: Word, m: Measure, maxWidth: real, ghost st: WrapState)
    returns (wrapped': seq<seq<FormattedText>>, currentLine': seq<FormattedText>, width': real)
    requires wrapped == RenderLines(st.done) && currentLine == RenderLine(st.cur) && width == st.width
    requires st.cur == [] ==> w.first
    ensures var st' := Step(AsWritten, m, maxWidth, st, w);
      wrapped' == RenderLines(st'.done) && currentLine' == RenderLine(st'.cur) && width' == st'.width
  {
    var testWord := if !w.first then " " + w.text else w.text;
    var wordWidth := m(w.style, testWord);
    if width + wordWidth > maxWidth && |currentLine| > 0 {
      RenderLinesSnoc(st.done, st.cur);
      wrapped' := wrapped + [currentLine];
      currentLine' := [FormattedText(w.text, w.style)];
      width' := m(w.style, w.text);
    } else {
      var content := if w.first && |currentLine| == 0 then w.text else " " + w.text;
      RenderLineSnoc(st.cur, w);
      wrapped' := wrapped;
      currentLine' := currentLine + [FormattedText(content, w.style)];
      width' := width + wordWidth;
    }
  }

  /** The fold over the first `i + 1` words of a segment is one step from the
      fold over the first `i`, whose line is empty only before the first word. */
  lemma SegmentStep(m: Measure, maxWidth: real, done: seq<Word>, seg: FormattedText, i: nat)
    requires i < |Fields(seg.content)|
    ensures var w := Word(Fields(seg.content)[i], seg.style, i == 0);
      var st := Fold(AsWritten, m, maxWidth, done + SegmentWords(seg)[..i]);
      && Fold(AsWritten, m, maxWidth, done + SegmentWords(seg)[..i + 1]) == Step(AsWritten, m, maxWidth, st, w)
      && (st.cur == [] ==> w.first)
  {
    var w := Word(Fields(seg.content)[i], seg.style, i == 0);
    var ws := done + SegmentWords(seg)[..i];
    assert ws + [w] == done + SegmentWords(seg)[..i + 1];
    FoldSnoc(AsWritten, m, maxWidth, ws, w);
    FoldCurEmpty(AsWritten, m, maxWidth, ws);
  }

  /** The inner loop: the words of one segment, added one by one. */
  method AddSegment(wrapped: seq<seq<FormattedText>>, currentLine: seq<FormattedText>, width: real,
                    seg: FormattedText, m: Measure, maxWidth: real, ghost done: seq<Word>)
    returns (wrapped': seq<seq<FormattedText>>, currentLine': seq<FormattedText>, width': real)
    requires var st := Fold(AsWritten, m, maxWidth, done);
      wrapped == RenderLines(st.done) && currentLine == RenderLine(st.cur) && width == st.width
    ensures var st' := Fold(AsWritten, m, maxWidth, done + SegmentWords(seg));
      wrapped' == RenderLines(st'.done) && currentLine' == RenderLine(st'.cur) && width' == st'.width
  {
    wrapped', currentLine', width' := wrapped, currentLine, width;
    var words := Fields(seg.content);
    ghost var st := Fold(AsWritten, m, maxWidth, done);
    var i := 0;
    assert SegmentWords(seg)[..0] == [] && done + [] == done;
    while i < |words|
      invariant 0 <= i <= |words|
      invariant st == Fold(AsWritten, m, maxWidth, done + SegmentWords(seg)[..i])
      invariant wrapped' == RenderLines(st.done) && currentLine' == RenderLine(st.cur) && width' == st.width
    {
      var w := Word(words[i], seg.style, i == 0);
      SegmentStep(m, maxWidth, done, seg, i);
      wrapped', currentLine', width' := AddWord(wrapped', currentLine', width', w, m, maxWidth, st);
      st := Step(AsWritten, m, maxWidth, st, w);
      i := i + 1;
    }
    assert SegmentWords(seg)[..|words|] == SegmentWords(seg);
  }

  /** wrapFormattedSegments: the segments' words, wrapped greedily. */
  method WrapFormattedSegments(segs: seq<FormattedText>, m: Measure, maxWidth: real)
    returns (wrapped: seq<seq<FormattedText>>)
    ensures wrapped == Wrap(AsWritten, m, maxWidth, segs)
  {
    wrapped := [];
    var currentLine: seq<FormattedText> := [];
    var width := 0.0;
    var s := 0;
    while s < |segs|
      invariant 0 <= s <= |segs|
      invariant var st := Fold(AsWritten, m, maxWidth, Words(segs[..s]));
        wrapped == RenderLines(st.done) && currentLine == RenderLine(st.cur) && width == st.width
    {
      wrapped, currentLine, width := AddSegment(wrapped, currentLine, width, segs[s], m, maxWidth, Words(segs[..s]));
      assert segs[..s + 1][..s] == segs[..s];
      s := s + 1;
    }
    assert segs[..|segs|] == segs;
    var st := Fold(AsWritten, m, maxWidth, Words(segs));
    if |currentLine| > 0 {
      RenderLinesSnoc(st.done, st.cur);
      wrapped := wrapped + [currentLine];
    }
  }

  // ---------------------------------------------------------------------------
  // The space accounting (see README, Findings)
  // ---------------------------------------------------------------------------

  /** The width a drawn line takes: the sum of its segments' widths. */
  function RenderedWidth(m: Measure, line: seq<FormattedText>): real
  {
    if |line| == 0 then 0.0
    else RenderedWidth(m, line[..|line| - 1]) + m(line[|line| - 1].style, line[|line| - 1].content)
  }

  /** With the corrected accounting the recorded width is the drawn width. */
  lemma {:induction false} CorrectedTracksRendered(m: Measure, g: seq<Word>)
    requires |g| > 0
    ensures RenderedWidth(m, RenderLine(g)) == Tracked(Corrected, m, g)
    decreases |g|
  {
    if |g| > 1 {
      var pre := g[..|g| - 1];
      CorrectedTracksRendered(m, pre);
      assert RenderLine(g)[..|g| - 1] == RenderLine(pre);
      assert g == pre + [g[|g| - 1]];
      TrackedSnoc(Corrected, m, pre, g[|g| - 1]);
    } else {
      assert RenderLine(g)[..0] == [];
    }
  }

  /** With the corrected accounting a line of two or more words that the
      greedy loop accepted is drawn no wider than the limit. */
  lemma CorrectedGroupFits(m: Measure, maxWidth: real, g: seq<Word>)
    requires |g| >= 2 && Fits(Corrected, m, maxWidth, g)
    ensures RenderedWidth(m, RenderLine(g)) <= maxWidth
  {
    CorrectedTracksRendered(m, g);
    var k := |g| - 1;
    assert g == g[..k] + [g[k]];
    TrackedSnoc(Corrected, m, g[..k], g[k]);
  }

  /** Corrected wrap: a drawn line of two or more words is never wider than
      the limit. */
  lemma CorrectedLinesFit(m: Measure, maxWidth: real, segs: seq<FormattedText>, i: nat)
    requires i < |Wrap(Corrected, m, maxWidth, segs)|
    requires |Wrap(Corrected, m, maxWidth, segs)[i]| >= 2
    ensures RenderedWidth(m, Wrap(Corrected, m, maxWidth, segs)[i]) <= maxWidth
  {
    var gs := Groups(Corrected, m, maxWidth, Words(segs));
    GroupsCorrect(Corrected, m, maxWidth, Words(segs));
    assert Fits(Corrected, m, maxWidth, gs[i]);
    CorrectedGroupFits(m, maxWidth, gs[i]);
  }

  /** The measure that gives every character width one. */
  function CharCount(st: TextStyle, s: string): real
  {
    |s| as real
  }

  lemma SingleWord(c: char)
    requires !IsSpace(c)
    ensures Fields([c]) == [[c]]
  {
    assert [c][1..] == [];
    assert NonSpaceRun([c][1..]) == 0;
    assert NonSpaceRun([c]) == 1;
    assert [c][..1] == [c];
    assert Fields([c][1..]) == [];
  }

  lemma TwoWords(a: FormattedText, b: FormattedText)
    requires Fields(a.content) == [a.content] && Fields(b.content) == [b.content]
    ensures Words([a, b]) == [Word(a.content, a.style, true), Word(b.content, b.style, true)]
  {
    assert [a, b][..1] == [a];
    assert [a][..0] == [];
    assert SegmentWords(a) == [Word(a.content, a.style, true)];
    assert SegmentWords(b) == [Word(b.content, b.style, true)];
    assert Words([a]) == [] + SegmentWords(a);
  }

  /** The loop keeps "a" and a bold "b" on one line at limit 2: it records
      width 1 for "a" and 1 for "b". */
  lemma OverflowGroups()
    ensures Groups(AsWritten, CharCount, 2.0, [Word("a", Plain, true), Word("b", TextStyle(true, false), true)])
         == [[Word("a", Plain, true), Word("b", TextStyle(true, false), true)]]
  {
    var wa := Word("a", Plain, true);
    var wb := Word("b", TextStyle(true, false), true);
    assert [wa, wb][..1] == [wa];
    assert [wa][..0] == [];
    assert |"a"| == 1 && |"b"| == 1;
    assert Advance(AsWritten, CharCount, wa, true) == 1.0;
    assert Advance(AsWritten, CharCount, wb, false) == 1.0;
    var st1 := Fold(AsWritten, CharCount, 2.0, [wa]);
    assert st1 == Step(AsWritten, CharCount, 2.0, Fold(AsWritten, CharCount, 2.0, []), wa);
    assert st1 == WrapState([], [wa], 1.0);
    assert Fold(AsWritten, CharCount, 2.0, [wa, wb]) == Step(AsWritten, CharCount, 2.0, st1, wb);
    assert Step(AsWritten, CharCount, 2.0, st1, wb) == WrapState([], [wa, wb], 2.0);
    assert [] + [[wa, wb]] == [[wa, wb]];
  }

  lemma OverflowWidth()
    ensures RenderedWidth(CharCount, [FormattedText("a", Plain), FormattedText(" b", TextStyle(true, false))]) == 3.0
  {
    var line := [FormattedText("a", Plain), FormattedText(" b", TextStyle(true, false))];
    assert line[..1] == [FormattedText("a", Plain)];
    assert line[..1][..0] == [];
    assert RenderedWidth(CharCount, line[..1]) == 1.0;
  }

  /** As written: "a" then a bold "b" with a limit of 2 characters. The loop
      records width 2 for the line "a", " b", which is drawn 3 wide. */
  lemma AsWrittenOverflows()
    ensures var segs := [FormattedText("a", Plain), FormattedText("b", TextStyle(true, false))];
      var lines := Wrap(AsWritten, CharCount, 2.0, segs);
      && lines == [[FormattedText("a", Plain), FormattedText(" b", TextStyle(true, false))]]
      && RenderedWidth(CharCount, lines[0]) == 3.0
      && RenderedWidth(CharCount, lines[0]) > 2.0
  {
    var bold := TextStyle(true, false);
    var segs := [FormattedText("a", Plain), FormattedText("b", bold)];
    SingleWord('a');
    SingleWord('b');
    TwoWords(segs[0], segs[1]);
    var wa := Word("a", Plain, true);
    var wb := Word("b", bold, true);
    OverflowGroups();
    OverflowWidth();
    var line := [FormattedText("a", Plain), FormattedText(" b", bold)];
    assert Fragment(wb, false) == FormattedText(" b", bold);
    assert RenderLine([wa, wb]) == line;
    assert RenderLines([[wa, wb]]) == [line];
  }
}
