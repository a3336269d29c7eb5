/**
 * `MarkdownReport`: the report viewer's line-by-line grouping of model output into
 * headers, bulleted and numbered lists and paragraphs. The component walks the lines
 * once, keeping a pending paragraph and a pending list that three closures flush into
 * the element list; `BlockGrouper` holds that mutable state and the functions below
 * say what each step does to it.
 */
module MarkdownReport {
  import opened Wrappers
  import opened Text

  datatype ListKind = Bulleted | Numbered

  datatype Block =
    | Header(text: string)
    | Paragraph(lines: seq<string>)
    | List(kind: ListKind, items: seq<string>)

  /** Everything the component's closures share: emitted elements and the pending block. */
  datatype Grouping = Grouping(
    elements: seq<Block>,
    listItems: seq<string>,
    listType: Option<ListKind>,
    paragraphLines: seq<string>)

  const Empty := Grouping([], [], None, [])

  /** `cleanText`: every asterisk removed. */
  function CleanText(s: string): (r: string)
    ensures '*' !in r
    ensures forall c :: c != '*' ==> multiset(r)[c] == multiset(s)[c]
  {
    RemoveAll(s, '*')
  }

  /** `/^\s*\d+\.\s/` on a trimmed line: digits, a full stop, then whitespace. */
  predicate IsNumbered(t: string) {
    var d := DigitRun(t);
    d >= 1 && d + 1 < |t| && t[d] == '.' && IsSpace(t[d + 1])
  }

  /** Replacing `^\d+\.\s*` with nothing: drop the number, its full stop and the spaces after it. */
  function StripNumber(t: string): (r: string)
    ensures |r| <= |t|
    ensures !(DigitRun(t) >= 1 && DigitRun(t) < |t| && t[DigitRun(t)] == '.') ==> r == t
    ensures DigitRun(t) >= 1 && DigitRun(t) < |t| && t[DigitRun(t)] == '.' ==>
              && |r| < |t| - DigitRun(t)
              && t[|t| - |r|..] == r
              && (forall i :: DigitRun(t) < i < |t| - |r| ==> IsSpace(t[i]))
              && (r != [] ==> !IsSpace(r[0]))
  {
    var d := DigitRun(t);
    if d >= 1 && d < |t| && t[d] == '.' then
      var rest := t[d + 1..];
      rest[LeadingSpaces(rest)..]
    else t
  }

  /** What a line is, in the order the component tests for it, with the text it contributes. */
  datatype LineKind =
    | HeaderLine(text: string)
    | BulletLine(item: string)
    | NumberedLine(item: string)
    | BlankLine
    | TextLine(text: string)

  function Classify(line: string): LineKind {
    var t := Trim(line);
    if StartsWith(t, "### ") then HeaderLine(t[4..])
    else if StartsWith(t, "* ") || StartsWith(t, "- ") then BulletLine(CleanText(t[2..]))
    else if IsNumbered(t) then NumberedLine(CleanText(StripNumber(t)))
    else if t == "" then BlankLine
    else TextLine(CleanText(line))
  }

  /** `flushParagraph`. */
  function ParagraphFlushed(g: Grouping): (r: Grouping)
    ensures r.paragraphLines == [] && r.listItems == g.listItems && r.listType == g.listType
  {
    if |g.paragraphLines| > 0 then
      g.(elements := g.elements + [Paragraph(g.paragraphLines)], paragraphLines := [])
    else g
  }

  /** `flushList`: a list goes out only when it has items and a kind. */
  function ListFlushed(g: Grouping): (r: Grouping)
    ensures r.paragraphLines == g.paragraphLines
    ensures g.listType.Some? && g.listItems != [] ==> r.listItems == [] && r.listType == None
  {
    if |g.listItems| > 0 && g.listType.Some? then
      g.(elements := g.elements + [List(g.listType.value, g.listItems)], listItems := [], listType := None)
    else g
  }

  /** `flushAll`. */
  function AllFlushed(g: Grouping): Grouping {
    ListFlushed(ParagraphFlushed(g))
  }

  /** The list branch: switch kind (closing the open list) if needed, then add the item. */
  function ItemAdded(g: Grouping, kind: ListKind, item: string): Grouping {
    var f := if g.listType != Some(kind) then ListFlushed(g).(listType := Some(kind)) else g;
    f.(listItems := f.listItems + [item])
  }

  /** One pass of the `forEach` body. */
  function Step(g: Grouping, line: string): Grouping {
    KindStep(g, Classify(line))
  }

  /** The branch of the `forEach` body that a line of kind `k` takes. */
  function KindStep(g: Grouping, k: LineKind): Grouping {
    match k
    case HeaderLine(h) =>
      var f := AllFlushed(g);
      f.(elements := f.elements + [Header(h)])
    case BulletLine(item) => ItemAdded(ParagraphFlushed(g), Bulleted, item)
    case NumberedLine(item) => ItemAdded(ParagraphFlushed(g), Numbered, item)
    case BlankLine => AllFlushed(g)
    case TextLine(text) =>
      var f := ListFlushed(g);
      f.(paragraphLines := f.paragraphLines + [text])
  }

  /** The state after the `forEach` has seen `lines`. */
  function Steps(lines: seq<string>): Grouping {
    if lines == [] then Empty else Step(Steps(lines[..|lines| - 1]), lines[|lines| - 1])
  }

  /** The elements the component renders for `text`. */
  function Blocks(text: string): seq<Block> {
    AllFlushed(Steps(Split(text, '\n'))).elements
  }

  /**
   * The pending state is coherent: at most one of the paragraph and the list holds
   * lines, a list has items exactly when it has a kind, and no emitted block is empty.
   */
  ghost predicate WellFormed(g: Grouping) {
    && (g.paragraphLines == [] || g.listItems == [])
    && (g.listItems != [] <==> g.listType.Some?)
    && NoEmptyBlocks(g.elements)
  }

  predicate NoEmptyBlocks(blocks: seq<Block>) {
    forall i :: 0 <= i < |blocks| ==> NonEmpty(blocks[i])
  }

  predicate NonEmpty(b: Block) {
    match b
    case Header(_) => true
    case Paragraph(lines) => lines != []
    case List(_, items) => items != []
  }

  lemma StepWellFormed(g: Grouping, line: string)
    requires WellFormed(g)
    ensures WellFormed(Step(g, line))
  {
  }

  lemma {:induction false} StepsWellFormed(lines: seq<string>)
    ensures WellFormed(Steps(lines))
  {
    if lines != [] {
      StepsWellFormed(lines[..|lines| - 1]);
      StepWellFormed(Steps(lines[..|lines| - 1]), lines[|lines| - 1]);
    }
  }

  /** After the final flush nothing is pending and no emitted paragraph or list is empty. */
  lemma FinalFlush(text: string)
    ensures var g := AllFlushed(Steps(Split(text, '\n')));
            g.paragraphLines == [] && g.listItems == [] && g.listType == None
    ensures NoEmptyBlocks(Blocks(text))
  {
    StepsWellFormed(Split(text, '\n'));
  }

  /** The text a block shows, line by line or item by item. */
  function Content(b: Block): seq<string> {
    match b
    case Header(t) => [t]
    case Paragraph(lines) => lines
    case List(_, items) => items
  }

  function Flatten(blocks: seq<Block>): seq<string> {
    if blocks == [] then [] else Flatten(blocks[..|blocks| - 1]) + Content(blocks[|blocks| - 1])
  }

  lemma FlattenSnoc(blocks: seq<Block>, b: Block)
    ensures Flatten(blocks + [b]) == Flatten(blocks) + Content(b)
  {
    assert (blocks + [b])[..|blocks|] == blocks;
  }

  /** The text a line contributes to the report: nothing for a blank line. */
  function Contribution(line: string): seq<string> {
    KindContribution(Classify(line))
  }

  function KindContribution(k: LineKind): seq<string> {
    match k
    case HeaderLine(h) => [h]
    case BulletLine(item) => [item]
    case NumberedLine(item) => [item]
    case BlankLine => []
    case TextLine(text) => [text]
  }

  function Contributions(lines: seq<string>): seq<string> {
    if lines == [] then [] else Contributions(lines[..|lines| - 1]) + Contribution(lines[|lines| - 1])
  }

  /** What has been emitted, then the pending paragraph, then the pending list. */
  function Shown(g: Grouping): seq<string> {
    Flatten(g.elements) + g.paragraphLines + g.listItems
  }

  lemma ParagraphFlushedShown(g: Grouping)
    ensures Shown(ParagraphFlushed(g)) == Shown(g)
  {
    if |g.paragraphLines| > 0 {
      FlattenSnoc(g.elements, Paragraph(g.paragraphLines));
    }
  }

  lemma ListFlushedShown(g: Grouping)
    requires g.paragraphLines == [] || g.listItems == []
    ensures Shown(ListFlushed(g)) == Shown(g)
  {
    if |g.listItems| > 0 && g.listType.Some? {
      FlattenSnoc(g.elements, List(g.listType.value, g.listItems));
    }
  }

  /** `flushAll` moves the pending block, unchanged, to the end of the elements. */
  lemma AllFlushedShown(g: Grouping)
    requires WellFormed(g)
    ensures Shown(AllFlushed(g)) == Shown(g)
    ensures AllFlushed(g).paragraphLines == [] && AllFlushed(g).listItems == []
  {
    ParagraphFlushedShown(g);
    ListFlushedShown(ParagraphFlushed(g));
  }

  lemma ItemAddedShown(g: Grouping, kind: ListKind, item: string)
    requires g.paragraphLines == []
    ensures Shown(ItemAdded(g, kind, item)) == Shown(g) + [item]
  {
    if g.listType != Some(kind) {
      ListFlushedShown(g);
    }
  }

  /** Each branch keeps everything shown so far, in order, and adds the line's contribution. */
  lemma KindStepShown(g: Grouping, k: LineKind)
    requires WellFormed(g)
    ensures Shown(KindStep(g, k)) == Shown(g) + KindContribution(k)
  {
    match k
    case HeaderLine(h) =>
      AllFlushedShown(g);
      var f := AllFlushed(g);
      FlattenSnoc(f.elements, Header(h));
      assert Shown(KindStep(g, k)) == Flatten(f.elements) + [h];
    case BulletLine(item) =>
      ParagraphFlushedShown(g);
      ItemAddedShown(ParagraphFlushed(g), Bulleted, item);
    case NumberedLine(item) =>
      ParagraphFlushedShown(g);
      ItemAddedShown(ParagraphFlushed(g), Numbered, item);
    case BlankLine =>
      AllFlushedShown(g);
    case TextLine(text) =>
      ListFlushedShown(g);
  }

  /** Each step keeps everything shown so far, in order, and adds the line's contribution. */
  lemma StepShown(g: Grouping, line: string)
    requires WellFormed(g)
    ensures Shown(Step(g, line)) == Shown(g) + Contribution(line)
  {
    KindStepShown(g, Classify(line));
  }

  lemma {:induction false} StepsShown(lines: seq<string>)
    ensures Shown(Steps(lines)) == Contributions(lines)
  {
    if lines != [] {
      var front := lines[..|lines| - 1];
      StepsShown(front);
      StepsWellFormed(front);
      StepShown(Steps(front), lines[|lines| - 1]);
    }
  }

  /**
   * Every non-blank line's text reaches the report exactly once and in input order:
   * the blocks' contents, read in order, are the lines' contributions.
   */
  lemma ContentPreserved(text: string)
    ensures Flatten(Blocks(text)) == Contributions(Split(text, '\n'))
  {
    var lines := Split(text, '\n');
    StepsShown(lines);
    StepsWellFormed(lines);
    AllFlushedShown(Steps(lines));
  }

  /** A header closes whatever is pending before it is emitted. */
  lemma HeaderClosesPending(g: Grouping, line: string)
    requires WellFormed(g) && Classify(line).HeaderLine?
    ensures var r := Step(g, line);
            && r.paragraphLines == [] && r.listItems == [] && r.listType == None
            && |r.elements| >= 1 && r.elements[|r.elements| - 1] == Header(Classify(line).text)
            && r.elements[..|r.elements| - 1] == AllFlushed(g).elements
  {
  }

  /** A bullet continuing a bulleted list only extends it: nothing is emitted. */
  lemma BulletExtendsList(g: Grouping, line: string)
    requires WellFormed(g) && g.listType == Some(Bulleted) && Classify(line).BulletLine?
    ensures var r := Step(g, line);
            r.elements == g.elements && r.listItems == g.listItems + [Classify(line).item]
            && r.listType == Some(Bulleted)
  {
  }

  /** A numbered line after a bulleted list closes that list and opens a numbered one. */
  lemma NumberedSwitchesList(g: Grouping, line: string)
    requires WellFormed(g) && g.listType == Some(Bulleted) && Classify(line).NumberedLine?
    ensures var r := Step(g, line);
            && r.elements == g.elements + [List(Bulleted, g.listItems)]
            && r.listItems == [Classify(line).item] && r.listType == Some(Numbered)
  {
  }

  /** A numbered line continuing a numbered list only extends it: nothing is emitted. */
  lemma NumberedExtendsList(g: Grouping, line: string)
    requires WellFormed(g) && g.listType == Some(Numbered) && Classify(line).NumberedLine?
    ensures var r := Step(g, line);
            r.elements == g.elements && r.listItems == g.listItems + [Classify(line).item]
            && r.listType == Some(Numbered)
  {
  }

  /** A bullet after a numbered list closes that list and opens a bulleted one. */
  lemma BulletSwitchesList(g: Grouping, line: string)
    requires WellFormed(g) && g.listType == Some(Numbered) && Classify(line).BulletLine?
    ensures var r := Step(g, line);
            && r.elements == g.elements + [List(Numbered, g.listItems)]
            && r.listItems == [Classify(line).item] && r.listType == Some(Bulleted)
  {
  }

  /** A plain line closes an open list and joins the pending paragraph. */
  lemma TextClosesList(g: Grouping, line: string)
    requires WellFormed(g) && g.listType.Some? && Classify(line).TextLine?
    ensures var r := Step(g, line);
            && r.elements == g.elements + [List(g.listType.value, g.listItems)]
            && r.paragraphLines == [Classify(line).text] && r.listType == None
  {
  }

  /** Header text is never empty: a trimmed line ending in whitespace cannot start a header. */
  lemma HeaderTextNonEmpty(line: string)
    requires Classify(line).HeaderLine?
    ensures Classify(line).text != ""
  {
    var t := Trim(line);
    TrimShape(line);
    assert t[3] == ' ';
  }

  /** The mutable state of one render: the element list and the pending paragraph and list. */
  class BlockGrouper {
    var elements: seq<Block>
    var listItems: seq<string>
    var listType: Option<ListKind>
    var paragraphLines: seq<string>

    function State(): Grouping
      reads this
    {
      Grouping(elements, listItems, listType, paragraphLines)
    }

    constructor ()
      ensures State() == Empty
    {
      elements, listItems, listType, paragraphLines := [], [], None, [];
    }

    method FlushParagraph()
      modifies this
      ensures State() == ParagraphFlushed(old(State()))
    {
      if |paragraphLines| > 0 {
        elements := elements + [Paragraph(paragraphLines)];
        paragraphLines := [];
      }
    }

    method FlushList()
      modifies this
      ensures State() == ListFlushed(old(State()))
    {
      if |listItems| > 0 && listType.Some? {
        elements := elements + [List(listType.value, listItems)];
        listItems := [];
        listType := None;
      }
    }

    method FlushAll()
      modifies this
      ensures State() == AllFlushed(old(State()))
    {
      FlushParagraph();
      FlushList();
    }

    /** The `forEach` body for one line. */
    method Feed(line: string)
      modifies this
      ensures State() == Step(old(State()), line)
    {
      var trimmedLine := Trim(line);
      if StartsWith(trimmedLine, "### ") {
        FlushAll();
        elements := elements + [Header(trimmedLine[4..])];
      } else if StartsWith(trimmedLine, "* ") || StartsWith(trimmedLine, "- ") {
        FlushParagraph();
        if listType != Some(Bulleted) {
          FlushList();
          listType := Some(Bulleted);
        }
        listItems := listItems + [CleanText(trimmedLine[2..])];
      } else if IsNumbered(trimmedLine) {
        FlushParagraph();
        if listType != Some(Numbered) {
          FlushList();
          listType := Some(Numbered);
        }
        listItems := listItems + [CleanText(StripNumber(trimmedLine))];
      } else if trimmedLine == "" {
        FlushAll();
      } else {
        FlushList();
        paragraphLines := paragraphLines + [CleanText(line)];
      }
    }
  }

  /** The component body: split into lines, feed each, flush what is left. */
  method Render(text: string) returns (elements: seq<Block>)
    ensures elements == Blocks(text)
    ensures NoEmptyBlocks(elements)
    ensures Flatten(elements) == Contributions(Split(text, '\n'))
  {
    var lines := Split(text, '\n');
    var grouper := new BlockGrouper();
    for i := 0 to |lines|
      invariant grouper.State() == Steps(lines[..i])
    {
      assert lines[..i + 1][..i] == lines[..i];
      grouper.Feed(lines[i]);
    }
    assert lines[..|lines|] == lines;
    grouper.FlushAll();
    elements := grouper.elements;
    FinalFlush(text);
    ContentPreserved(text);
  }
}
