/**
 * The scrolling terminal behind the landing page: a bounded list of command lines, each
 * typed out one character per tick. The timers, the random choice of command and the
 * clock that supplies ids are parameters here.
 */
module TerminalLog {
  const MaxLines: nat := 30
  const Prompt := "C:\\> "

  datatype Line = Line(id: int, text: string, displayedText: string, isComplete: bool)

  predicate IsPrefix(p: string, s: string) {
    |p| <= |s| && s[..|p|] == p
  }

  /** What the log keeps true of every line: the shown text is a prefix, and complete means fully shown. */
  predicate LineOk(l: Line) {
    IsPrefix(l.displayedText, l.text) && (l.isComplete ==> l.displayedText == l.text)
  }

  predicate LogOk(lines: seq<Line>) {
    |lines| <= MaxLines && forall i :: 0 <= i < |lines| ==> LineOk(lines[i])
  }

  /** The line the interval adds for a command: prompt and command, nothing shown yet. */
  function NewLine(id: int, command: string): (l: Line)
    ensures l.id == id && l.displayedText == [] && !l.isComplete
    ensures IsPrefix(Prompt, l.text) && l.text[|Prompt|..] == command
    ensures LineOk(l)
  {
    Line(id, Prompt + command, [], false)
  }

  /** `[...prev, newLine].slice(-30)`: the newest thirty lines. */
  function AppendLine(prev: seq<Line>, newLine: Line): (r: seq<Line>)
    ensures |r| == if |prev| + 1 > MaxLines then MaxLines else |prev| + 1
    ensures r[|r| - 1] == newLine
    ensures r[..|r| - 1] == prev[|prev| - (|r| - 1)..]
  {
    var updated := prev + [newLine];
    if |updated| > MaxLines then updated[|updated| - MaxLines..] else updated
  }

  /** Appending a well-formed line keeps the log well-formed. */
  lemma AppendLineOk(prev: seq<Line>, newLine: Line)
    requires LogOk(prev) && LineOk(newLine)
    ensures LogOk(AppendLine(prev, newLine))
  {
    var r := AppendLine(prev, newLine);
    forall i | 0 <= i < |r|
      ensures LineOk(r[i])
    {
      if i < |r| - 1 {
        assert r[i] == r[..|r| - 1][i] == prev[|prev| - (|r| - 1) + i];
      }
    }
  }

  /** Surviving lines keep their relative order: an appended log, less its new line, is a suffix of the old one. */
  lemma AppendKeepsOrder(prev: seq<Line>, newLine: Line, i: nat, j: nat)
    requires i < j < |AppendLine(prev, newLine)| - 1
    ensures exists a, b :: 0 <= a < b < |prev| && AppendLine(prev, newLine)[i] == prev[a] && AppendLine(prev, newLine)[j] == prev[b]
  {
    var r := AppendLine(prev, newLine);
    var k := |prev| - (|r| - 1);
    assert r[i] == r[..|r| - 1][i] == prev[k + i];
    assert r[j] == r[..|r| - 1][j] == prev[k + j];
  }

  /** One typing tick for one line. */
  function TickLine(l: Line): (r: Line)
    ensures r.id == l.id && r.text == l.text
    ensures l.isComplete ==> r == l
  {
    if l.isComplete then l
    else if |l.displayedText| < |l.text| then l.(displayedText := l.text[..|l.displayedText| + 1])
    else l.(isComplete := true)
  }

  /** A tick keeps a well-formed line well-formed and shows exactly one more character until the text is out. */
  lemma TickLineOk(l: Line)
    requires LineOk(l)
    ensures LineOk(TickLine(l))
    ensures !l.isComplete && |l.displayedText| < |l.text| ==>
              |TickLine(l).displayedText| == |l.displayedText| + 1 && !TickLine(l).isComplete
    ensures !l.isComplete && |l.displayedText| == |l.text| ==> TickLine(l).isComplete && TickLine(l).displayedText == l.displayedText
  {
  }

  /** The typing interval: every line ticks. */
  function Tick(lines: seq<Line>): (r: seq<Line>)
    ensures |r| == |lines|
    ensures forall i :: 0 <= i < |lines| ==> r[i] == TickLine(lines[i])
  {
    seq(|lines|, i requires 0 <= i < |lines| => TickLine(lines[i]))
  }

  /** A tick keeps the log well-formed, its length, its ids and texts in order, and its completed lines. */
  lemma TickOk(lines: seq<Line>)
    requires LogOk(lines)
    ensures LogOk(Tick(lines))
    ensures forall i :: 0 <= i < |lines| ==> Tick(lines)[i].id == lines[i].id && Tick(lines)[i].text == lines[i].text
    ensures forall i :: 0 <= i < |lines| && lines[i].isComplete ==> Tick(lines)[i] == lines[i]
  {
    forall i | 0 <= i < |lines|
      ensures LineOk(Tick(lines)[i])
    {
      TickLineOk(lines[i]);
    }
  }

  function TickTimes(l: Line, n: nat): Line {
    if n == 0 then l else TickLine(TickTimes(l, n - 1))
  }

  /** After k ticks a new line shows its first k characters and is still typing. */
  lemma {:induction false} TypingProgress(l: Line, k: nat)
    requires l.displayedText == [] && !l.isComplete && k <= |l.text|
    ensures TickTimes(l, k) == l.(displayedText := l.text[..k])
  {
    if k > 0 {
      TypingProgress(l, k - 1);
    }
  }

  /** A new line is complete, and fully shown, after exactly one tick per character plus one. */
  lemma TypingFinishes(l: Line)
    requires l.displayedText == [] && !l.isComplete
    ensures TickTimes(l, |l.text| + 1) == l.(displayedText := l.text, isComplete := true)
    ensures !TickTimes(l, |l.text|).isComplete
  {
    TypingProgress(l, |l.text|);
    assert l.text[..|l.text|] == l.text;
  }
}
