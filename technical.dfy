/**
 * The technical screen: `renderMarkdownToPdf`, which lays markdown out line by line on
 * a PDF document with a vertical cursor and a page-break rule, and the guard in front
 * of code analysis. Text measurement belongs to the PDF library; here it is a function
 * `measure` from a text and its style to a non-negative height, fixed per document.
 */
module Technical {
  import opened Text
  import MarkdownReport

  /** Code points inside the ranges of the emoji character class, plus U+2B50. */
  predicate IsEmoji(c: char) {
    || ('\U{1F600}' <= c <= '\U{1F64F}') || ('\U{1F300}' <= c <= '\U{1F5FF}')
    || ('\U{1F680}' <= c <= '\U{1F6FF}') || ('\U{1F700}' <= c <= '\U{1F77F}')
    || ('\U{1F780}' <= c <= '\U{1F7FF}') || ('\U{1F800}' <= c <= '\U{1F8FF}')
    || ('\U{1F900}' <= c <= '\U{1F9FF}') || ('\U{1FA00}' <= c <= '\U{1FA6F}')
    || ('\U{1FA70}' <= c <= '\U{1FAFF}') || ('\U{2600}' <= c <= '\U{26FF}')
    || ('\U{2700}' <= c <= '\U{27BF}') || c == '\U{2B50}'
  }

  /** `text.replace(emojiRegex, '')`: every emoji code point removed. */
  function StripEmoji(s: string): (r: string)
    ensures forall i :: 0 <= i < |r| ==> !IsEmoji(r[i])
    ensures |r| <= |s|
  {
    if s == [] then []
    else (if IsEmoji(s[0]) then [] else [s[0]]) + StripEmoji(s[1..])
  }

  /** Stripping works character by character, so all other characters keep their order. */
  lemma {:induction false} StripEmojiAppend(a: string, b: string)
    ensures StripEmoji(a + b) == StripEmoji(a) + StripEmoji(b)
  {
    if a != [] {
      assert (a + b)[1..] == a[1..] + b;
      StripEmojiAppend(a[1..], b);
    } else {
      assert a + b == b;
    }
  }

  /** Text without emoji passes through untouched. */
  lemma {:induction false} StripEmojiNone(s: string)
    requires forall i :: 0 <= i < |s| ==> !IsEmoji(s[i])
    ensures StripEmoji(s) == s
  {
    if s != [] {
      StripEmojiNone(s[1..]);
    }
  }

  /** `str.replace(/\*\*\/g, '')`: double asterisks removed, scanning left to right. */
  function CleanMarkdown(s: string): (r: string)
    ensures |r| <= |s|
    ensures forall c :: c != '*' ==> multiset(r)[c] == multiset(s)[c]
  {
    if |s| >= 2 && s[0] == '*' && s[1] == '*' then
      assert s == [s[0], s[1]] + s[2..];
      CleanMarkdown(s[2..])
    else if s == [] then []
    else
      assert s == [s[0]] + s[1..];
      [s[0]] + CleanMarkdown(s[1..])
  }

  predicate HasDoubleStar(s: string) {
    exists i :: 0 <= i < |s| - 1 && s[i] == '*' && s[i + 1] == '*'
  }

  /** A kept character that is not an asterisk stays in front. */
  lemma CleanMarkdownHead(s: string)
    requires s != [] && s[0] != '*'
    ensures CleanMarkdown(s) != [] && CleanMarkdown(s)[0] == s[0]
  {
  }

  /** No "**" survives cleaning: a kept asterisk is never followed by another. */
  lemma {:induction false} CleanMarkdownNoDoubleStar(s: string)
    ensures !HasDoubleStar(CleanMarkdown(s))
    decreases |s|
  {
    if |s| >= 2 && s[0] == '*' && s[1] == '*' {
      CleanMarkdownNoDoubleStar(s[2..]);
    } else if s != [] {
      var rest := CleanMarkdown(s[1..]);
      CleanMarkdownNoDoubleStar(s[1..]);
      var r := [s[0]] + rest;
      if s[0] == '*' && rest != [] {
        assert |s| >= 2 && s[1] != '*';
        CleanMarkdownHead(s[1..]);
      }
      forall i | 0 <= i < |r| - 1 && r[i] == '*'
        ensures r[i + 1] != '*'
      {
        if i > 0 {
          assert r[i] == rest[i - 1] && r[i + 1] == rest[i];
        }
      }
    }
  }

  /** Cleaning a string that has no "**" leaves it as it is. */
  lemma {:induction false} CleanMarkdownFixed(s: string)
    requires !HasDoubleStar(s)
    ensures CleanMarkdown(s) == s
    decreases |s|
  {
    if s != [] {
      assert !(|s| >= 2 && s[0] == '*' && s[1] == '*');
      assert !HasDoubleStar(s[1..]) by {
        forall i | 0 <= i < |s[1..]| - 1 && s[1..][i] == '*'
          ensures s[1..][i + 1] != '*'
        {
          assert s[i + 1] == '*';
        }
      }
      CleanMarkdownFixed(s[1..]);
    }
  }

  /** Cleaning twice is cleaning once. */
  lemma CleanMarkdownIdempotent(s: string)
    ensures CleanMarkdown(CleanMarkdown(s)) == CleanMarkdown(s)
  {
    CleanMarkdownNoDoubleStar(s);
    CleanMarkdownFixed(CleanMarkdown(s));
  }

  /** `/^(\*|-|_){3,}$/`: three or more characters, each an asterisk, hyphen or underscore. */
  predicate IsRule(t: string) {
    |t| >= 3 && forall i :: 0 <= i < |t| ==> t[i] == '*' || t[i] == '-' || t[i] == '_'
  }

  predicate IsFence(t: string) {
    StartsWith(t, "```")
  }

  /** The bullet prefix exactly as the source spells it: three code points and two spaces. */
  const BulletPrefix: string := ['\U{00E2}', '\U{20AC}', '\U{00A2}', ' ', ' ']
  const Margin: real := 15.0

  /** The options of one `addTextInternal` call; the font is Courier for code, Helvetica otherwise. */
  datatype Style = Style(fontSize: nat, bold: bool, code: bool, xOffset: nat, spacing: nat)

  const CodeStyle := Style(9, false, true, 5, 3)
  const HeaderStyle := Style(13, true, false, 0, 6)
  const ItemStyle := Style(10, false, false, 5, 4)
  const BodyStyle := Style(10, false, false, 0, 4)

  type Height = h: real | h >= 0.0
  type Measure = (string, Style) -> Height

  /** One `doc.text` call: what, where, how, and on which page. */
  datatype Drawn = Drawn(text: string, x: real, y: real, style: Style, page: nat)

  /** The document as the layout sees it plus the vertical cursor `y`. */
  datatype Cursor = Cursor(y: real, pages: nat, drawn: seq<Drawn>)

  /** `addTextInternal`: break the page when the text would overrun it (unless already at the top), draw, advance. */
  function Placed(c: Cursor, text: string, style: Style, pageHeight: real, measure: Measure): Cursor
  {
    var h := measure(text, style);
    var pageBreak := c.y > Margin && c.y + h > pageHeight - Margin;
    var top := if pageBreak then Margin else c.y;
    var pages := if pageBreak then c.pages + 1 else c.pages;
    Cursor(top + h + style.spacing as real, pages, c.drawn + [Drawn(text, Margin + style.xOffset as real, top, style, pages)])
  }

  /**
   * What placing a text does: one record appended, drawn at the margin plus the offset on
   * the current page; a new page exactly when the cursor is below the top margin and the
   * text would pass the bottom one, and then the text starts at the top margin; the cursor
   * ends below the text by its spacing.
   */
  lemma PlacedSpec(c: Cursor, text: string, style: Style, pageHeight: real, measure: Measure)
    ensures var r := Placed(c, text, style, pageHeight, measure);
            && |r.drawn| == |c.drawn| + 1 && r.drawn[..|c.drawn|] == c.drawn
            && (r.pages == c.pages || r.pages == c.pages + 1)
            && var d := r.drawn[|c.drawn|];
            && d.text == text && d.style == style && d.x == Margin + style.xOffset as real && d.page == r.pages
            && r.y == d.y + measure(text, style) + style.spacing as real
            && (r.pages == c.pages + 1 <==> c.y > Margin && c.y + measure(text, style) > pageHeight - Margin)
            && (r.pages == c.pages ==> d.y == c.y)
            && (r.pages == c.pages + 1 ==> d.y == Margin)
  {
  }

  /** A drawn block either fits above the bottom margin or starts at the top of its page. */
  lemma PlacedFitsOrTop(c: Cursor, text: string, style: Style, pageHeight: real, measure: Measure)
    ensures var d := Placed(c, text, style, pageHeight, measure).drawn[|c.drawn|];
            d.y + measure(text, style) <= pageHeight - Margin || d.y <= Margin
  {
    PlacedSpec(c, text, style, pageHeight, measure);
  }

  /** How one line is treated, in the order the loop body tests. */
  datatype PdfLine =
    | Fence
    | CodeLine(text: string)
    | Rule
    | HeaderLine(text: string)
    | BulletLine(text: string)
    | OrderedLine(text: string)
    | Blank
    | PlainLine(text: string)

  function Classify(inCode: bool, line: string): PdfLine {
    var t := Trim(line);
    if IsFence(t) then Fence
    else if inCode then CodeLine(line)
    else if IsRule(t) then Rule
    else if StartsWith(t, "### ") then HeaderLine(CleanMarkdown(t[4..]))
    else if StartsWith(t, "* ") || StartsWith(t, "- ") then BulletLine(BulletPrefix + CleanMarkdown(t[2..]))
    else if MarkdownReport.IsNumbered(t) then OrderedLine("   " + CleanMarkdown(t))
    else if t == "" then Blank
    else PlainLine(CleanMarkdown(line))
  }

  datatype Layout = Layout(cursor: Cursor, inCode: bool)

  function Advanced(c: Cursor, dy: real): Cursor {
    c.(y := c.y + dy)
  }

  /** One pass of the `forEach` body. */
  function LineStep(st: Layout, line: string, pageHeight: real, measure: Measure): Layout {
    KindStep(st, Classify(st.inCode, line), pageHeight, measure)
  }

  /** The branch of the loop body that a line of kind `k` takes. */
  function KindStep(st: Layout, k: PdfLine, pageHeight: real, measure: Measure): Layout {
    var c := st.cursor;
    match k
    case Fence => Layout(Advanced(c, 2.0), !st.inCode)
    case CodeLine(text) => st.(cursor := Placed(c, text, CodeStyle, pageHeight, measure))
    case Rule => st.(cursor := Advanced(c, 2.0))
    case HeaderLine(text) => st.(cursor := Placed(Advanced(c, 2.0), text, HeaderStyle, pageHeight, measure))
    case BulletLine(text) => st.(cursor := Placed(c, text, ItemStyle, pageHeight, measure))
    case OrderedLine(text) => st.(cursor := Placed(c, text, ItemStyle, pageHeight, measure))
    case Blank => st.(cursor := Advanced(c, 4.0))
    case PlainLine(text) => st.(cursor := Placed(c, text, BodyStyle, pageHeight, measure))
  }

  function LinesLaidOut(lines: seq<string>, start: Layout, pageHeight: real, measure: Measure): Layout {
    if lines == [] then start
    else LineStep(LinesLaidOut(lines[..|lines| - 1], start, pageHeight, measure), lines[|lines| - 1], pageHeight, measure)
  }

  /** The lines the loop walks: the emoji-free text split at line feeds. */
  function PdfLines(text: string): seq<string> {
    Split(StripEmoji(text), '\n')
  }

  /** An odd number of the lines so far are code fences. */
  predicate OddFences(lines: seq<string>) {
    if lines == [] then false
    else OddFences(lines[..|lines| - 1]) != IsFence(Trim(lines[|lines| - 1]))
  }

  /** The code-block flag is the parity of the fence lines seen so far. */
  lemma {:induction false} FenceParity(lines: seq<string>, c: Cursor, pageHeight: real, measure: Measure)
    ensures LinesLaidOut(lines, Layout(c, false), pageHeight, measure).inCode == OddFences(lines)
  {
    if lines != [] {
      var front, last := lines[..|lines| - 1], lines[|lines| - 1];
      var prev := LinesLaidOut(front, Layout(c, false), pageHeight, measure);
      FenceParity(front, c, pageHeight, measure);
      StepFlipsOnFence(prev, last, pageHeight, measure);
    }
  }

  /** Only a fence line changes the code-block flag, and it always flips it. */
  lemma StepFlipsOnFence(st: Layout, line: string, pageHeight: real, measure: Measure)
    ensures LineStep(st, line, pageHeight, measure).inCode == (st.inCode != IsFence(Trim(line)))
  {
    if IsFence(Trim(line)) {
      assert Classify(st.inCode, line) == Fence;
    } else {
      assert !Classify(st.inCode, line).Fence?;
    }
  }

  /** Each line moves the cursor down, except when it opens a page, where it restarts at the top margin. */
  lemma StepMonotone(st: Layout, line: string, pageHeight: real, measure: Measure)
    ensures var r := LineStep(st, line, pageHeight, measure);
            && (r.cursor.pages == st.cursor.pages ==> r.cursor.y >= st.cursor.y)
            && (r.cursor.pages != st.cursor.pages ==> r.cursor.pages == st.cursor.pages + 1 && r.cursor.y >= Margin)
            && |r.cursor.drawn| <= |st.cursor.drawn| + 1
            && r.cursor.drawn[..|st.cursor.drawn|] == st.cursor.drawn
  {
    var c := st.cursor;
    match Classify(st.inCode, line)
    case CodeLine(text) => PlacedSpec(c, text, CodeStyle, pageHeight, measure);
    case HeaderLine(text) => PlacedSpec(Advanced(c, 2.0), text, HeaderStyle, pageHeight, measure);
    case BulletLine(text) => PlacedSpec(c, text, ItemStyle, pageHeight, measure);
    case OrderedLine(text) => PlacedSpec(c, text, ItemStyle, pageHeight, measure);
    case PlainLine(text) => PlacedSpec(c, text, BodyStyle, pageHeight, measure);
    case _ =>
  }

  /** Between page breaks the cursor never moves up. */
  lemma {:induction false} LinesMonotone(lines: seq<string>, start: Layout, pageHeight: real, measure: Measure)
    ensures var r := LinesLaidOut(lines, start, pageHeight, measure);
            r.cursor.pages >= start.cursor.pages
            && (r.cursor.pages == start.cursor.pages ==> r.cursor.y >= start.cursor.y)
  {
    if lines != [] {
      var front := LinesLaidOut(lines[..|lines| - 1], start, pageHeight, measure);
      LinesMonotone(lines[..|lines| - 1], start, pageHeight, measure);
      StepMonotone(front, lines[|lines| - 1], pageHeight, measure);
    }
  }

  /** Inside a code block a line is drawn as it is, in the code style, with no cleaning or classification. */
  lemma CodeLineVerbatim(st: Layout, line: string, pageHeight: real, measure: Measure)
    requires st.inCode && !IsFence(Trim(line))
    ensures var r := LineStep(st, line, pageHeight, measure);
            && r.inCode
            && |r.cursor.drawn| == |st.cursor.drawn| + 1
            && r.cursor.drawn[|st.cursor.drawn|].text == line
            && r.cursor.drawn[|st.cursor.drawn|].style == CodeStyle
            && r.cursor.drawn[|st.cursor.drawn|].x == Margin + 5.0
  {
    assert Classify(st.inCode, line) == CodeLine(line);
    PlacedSpec(st.cursor, line, CodeStyle, pageHeight, measure);
  }

  /** A horizontal rule outside code draws nothing and only moves the cursor by 2. */
  lemma RuleDrawsNothing(st: Layout, line: string, pageHeight: real, measure: Measure)
    requires !st.inCode && IsRule(Trim(line))
    ensures LineStep(st, line, pageHeight, measure) == st.(cursor := Advanced(st.cursor, 2.0))
  {
    assert !IsFence(Trim(line)) by {
      assert Trim(line)[2] != '`';
    }
  }

  /** A rule is never taken for a header, a bullet or a numbered item: those need a space. */
  lemma RuleIsNoItem(t: string)
    requires IsRule(t)
    ensures !StartsWith(t, "### ") && !StartsWith(t, "* ") && !StartsWith(t, "- ")
    ensures !MarkdownReport.IsNumbered(t) && t != ""
  {
    assert t[1] != ' ';
  }

  /** The document: pages so far, everything drawn, the page height and the text measure. */
  class Doc {
    var pages: nat
    var drawn: seq<Drawn>
    const pageHeight: real
    const measure: Measure

    constructor (pageHeight: real, measure: Measure)
      ensures this.pageHeight == pageHeight && this.measure == measure
      ensures pages == 1 && drawn == []
    {
      this.pageHeight := pageHeight;
      this.measure := measure;
      pages := 1;
      drawn := [];
    }

    /** `addTextInternal`, with the captured cursor passed in and returned. */
    method AddTextInternal(y: real, text: string, style: Style) returns (newY: real)
      modifies this
      ensures Cursor(newY, pages, drawn) == Placed(Cursor(y, old(pages), old(drawn)), text, style, pageHeight, measure)
    {
      var textHeight := measure(text, style);
      var top := y;
      if y > Margin && y + textHeight > pageHeight - Margin {
        pages := pages + 1;
        top := Margin;
      }
      drawn := drawn + [Drawn(text, Margin + style.xOffset as real, top, style, pages)];
      newY := top + textHeight + style.spacing as real;
    }
  }

  /** The body of the `forEach` over the lines, with the captured cursor and code flag passed in and returned. */
  method RenderLine(doc: Doc, y: real, inCodeBlock: bool, line: string) returns (newY: real, nowInCode: bool)
    modifies doc
    ensures Layout(Cursor(newY, doc.pages, doc.drawn), nowInCode)
            == LineStep(Layout(Cursor(y, old(doc.pages), old(doc.drawn)), inCodeBlock), line, doc.pageHeight, doc.measure)
  {
    newY, nowInCode := y, inCodeBlock;
    var trimmedLine := Trim(line);
    if IsFence(trimmedLine) {
      assert Classify(inCodeBlock, line) == Fence;
      nowInCode := !inCodeBlock;
      newY := y + 2.0;
    } else if inCodeBlock {
      assert Classify(inCodeBlock, line) == CodeLine(line);
      newY := doc.AddTextInternal(y, line, CodeStyle);
    } else {
      newY := RenderProse(doc, y, line);
    }
  }

  /** The rest of the loop body, outside a code block: rules and headers here, the other kinds in `RenderBody`. */
  method RenderProse(doc: Doc, y: real, line: string) returns (newY: real)
    requires !IsFence(Trim(line))
    modifies doc
    ensures Layout(Cursor(newY, doc.pages, doc.drawn), false)
            == KindStep(Layout(Cursor(y, old(doc.pages), old(doc.drawn)), false), Classify(false, line), doc.pageHeight, doc.measure)
  {
    newY := y;
    var trimmedLine := Trim(line);
    if IsRule(trimmedLine) {
      assert Classify(false, line) == Rule;
      newY := y + 2.0;
    } else if StartsWith(trimmedLine, "### ") {
      assert Classify(false, line) == HeaderLine(CleanMarkdown(trimmedLine[4..]));
      newY := doc.AddTextInternal(y + 2.0, CleanMarkdown(trimmedLine[4..]), HeaderStyle);
    } else {
      newY := RenderBody(doc, y, line);
    }
  }

  /** List items, blank lines and text: what is left once fences, code, rules and headers are ruled out. */
  method RenderBody(doc: Doc, y: real, line: string) returns (newY: real)
    requires !IsFence(Trim(line)) && !IsRule(Trim(line)) && !StartsWith(Trim(line), "### ")
    modifies doc
    ensures Layout(Cursor(newY, doc.pages, doc.drawn), false)
            == KindStep(Layout(Cursor(y, old(doc.pages), old(doc.drawn)), false), Classify(false, line), doc.pageHeight, doc.measure)
  {
    newY := y;
    var trimmedLine := Trim(line);
    if StartsWith(trimmedLine, "* ") || StartsWith(trimmedLine, "- ") {
      assert Classify(false, line) == BulletLine(BulletPrefix + CleanMarkdown(trimmedLine[2..]));
      newY := doc.AddTextInternal(y, BulletPrefix + CleanMarkdown(trimmedLine[2..]), ItemStyle);
    } else if MarkdownReport.IsNumbered(trimmedLine) {
      assert Classify(false, line) == OrderedLine("   " + CleanMarkdown(trimmedLine));
      newY := doc.AddTextInternal(y, "   " + CleanMarkdown(trimmedLine), ItemStyle);
    } else if trimmedLine == "" {
      assert Classify(false, line) == Blank;
      newY := y + 4.0;
    } else {
      assert Classify(false, line) == PlainLine(CleanMarkdown(line));
      newY := doc.AddTextInternal(y, CleanMarkdown(line), BodyStyle);
    }
  }

  /** `renderMarkdownToPdf`: lay out every line from `initialY` on; returns the final cursor. */
  method RenderMarkdownToPdf(doc: Doc, text: string, initialY: real) returns (y: real)
    modifies doc
    ensures Layout(Cursor(y, doc.pages, doc.drawn), OddFences(PdfLines(text)))
            == LinesLaidOut(PdfLines(text), Layout(Cursor(initialY, old(doc.pages), old(doc.drawn)), false), doc.pageHeight, doc.measure)
  {
    y := initialY;
    var lines := Split(StripEmoji(text), '\n');
    var inCodeBlock := false;
    ghost var start := Layout(Cursor(initialY, doc.pages, doc.drawn), false);
    for i := 0 to |lines|
      invariant Layout(Cursor(y, doc.pages, doc.drawn), inCodeBlock) == LinesLaidOut(lines[..i], start, doc.pageHeight, doc.measure)
    {
      assert lines[..i + 1][..i] == lines[..i];
      y, inCodeBlock := RenderLine(doc, y, inCodeBlock, lines[i]);
    }
    assert lines[..|lines|] == lines;
    FenceParity(lines, start.cursor, doc.pageHeight, doc.measure);
  }

  /** `handleRunCode`'s guard: analysis is refused while the code or the question is empty. */
  datatype RunOutcome = Refused(message: string) | Submitted

  const RunRefusal := "Please fetch a question and write some code before running."

  function RunCode(code: string, question: string): (r: RunOutcome)
    ensures r.Refused? <==> code == "" || question == ""
    ensures r.Refused? ==> r.message == RunRefusal
  {
    if code == "" || question == "" then Refused(RunRefusal) else Submitted
  }
}
