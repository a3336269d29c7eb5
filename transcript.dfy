/**
 * The live-session transcript shared by the coach and the mock-interview screens:
 * the `Author`/`TranscriptionEntry` records, the turn flush that appends to the log,
 * and the rendering of the log into the plain-text transcript sent for feedback.
 */
module Transcript {
  import opened Text

  datatype Author = User | Model | System

  /** `author.toUpperCase()` of the enum's string values 'user', 'model', 'system'. */
  function AuthorLabel(a: Author): string {
    match a
    case User => "USER"
    case Model => "MODEL"
    case System => "SYSTEM"
  }

  datatype Entry = Entry(author: Author, text: string)

  /** The log update on "turn complete": prior entries untouched, then the trimmed user text,
      then the trimmed model text, each only when it is not empty. */
  function AppendTurn(log: seq<Entry>, userInput: string, modelOutput: string): (r: seq<Entry>)
    ensures |log| <= |r| && r[..|log|] == log
    ensures r[|log|..] == (if userInput != "" then [Entry(User, userInput)] else [])
                          + (if modelOutput != "" then [Entry(Model, modelOutput)] else [])
  {
    var withUser := if userInput != "" then log + [Entry(User, userInput)] else log;
    if modelOutput != "" then withUser + [Entry(Model, modelOutput)] else withUser
  }

  /** Every entry a turn flush adds has non-empty text, so the log never gains a blank entry. */
  lemma AppendTurnNoBlank(log: seq<Entry>, userInput: string, modelOutput: string)
    requires forall i :: 0 <= i < |log| ==> log[i].text != ""
    ensures var r := AppendTurn(log, userInput, modelOutput);
            forall i :: 0 <= i < |r| ==> r[i].text != ""
  {
    var r := AppendTurn(log, userInput, modelOutput);
    forall i | 0 <= i < |r| ensures r[i].text != "" {
      if i < |log| {
        assert r[i] == r[..|log|][i];
      } else {
        assert r[i] == r[|log|..][i - |log|];
      }
    }
  }

  /** `filter(entry => entry.author !== Author.SYSTEM)`. */
  function Spoken(log: seq<Entry>): (r: seq<Entry>)
    ensures |r| <= |log|
    ensures forall i :: 0 <= i < |r| ==> r[i].author != System
  {
    if log == [] then []
    else (if log[0].author == System then [] else [log[0]]) + Spoken(log[1..])
  }

  /** The filter keeps log order: it distributes over concatenation. */
  lemma {:induction false} SpokenAppend(a: seq<Entry>, b: seq<Entry>)
    ensures Spoken(a + b) == Spoken(a) + Spoken(b)
  {
    if a == [] {
      assert a + b == b;
    } else {
      assert (a + b)[1..] == a[1..] + b;
      SpokenAppend(a[1..], b);
    }
  }

  /** Exactly the non-system entries survive, each as often as in the log. */
  lemma {:induction false} SpokenCounts(log: seq<Entry>, e: Entry)
    ensures multiset(Spoken(log))[e] == if e.author == System then 0 else multiset(log)[e]
  {
    if log != [] {
      SpokenCounts(log[1..], e);
      assert log == [log[0]] + log[1..];
    }
  }

  /** One transcript line: `${AUTHOR}: ${text}`. */
  function RenderLine(e: Entry): string {
    AuthorLabel(e.author) + ": " + e.text
  }

  function RenderLines(entries: seq<Entry>): (r: seq<string>)
    ensures |r| == |entries|
    ensures forall i :: 0 <= i < |r| ==> r[i] == RenderLine(entries[i])
  {
    if entries == [] then [] else [RenderLine(entries[0])] + RenderLines(entries[1..])
  }

  /** The transcript text of a log: spoken entries only, one `AUTHOR: text` line each, joined by '\n'. */
  function RenderTranscript(log: seq<Entry>): string {
    Join(RenderLines(Spoken(log)), "\n")
  }

  /** Feedback is requested only for a log with more than one entry (the opening notice alone is not enough). */
  predicate RequestsFeedback(log: seq<Entry>) {
    |log| > 1
  }

  /** When no entry text contains a line break, the rendered transcript splits back into exactly
      one line per spoken entry, in log order, and every line carries that entry's label and text. */
  lemma {:induction false} RenderTranscriptLines(log: seq<Entry>)
    requires Spoken(log) != []
    requires forall i :: 0 <= i < |log| ==> '\n' !in log[i].text
    ensures var lines := Split(RenderTranscript(log), '\n');
            |lines| == |Spoken(log)|
            && forall i :: 0 <= i < |lines| ==> lines[i] == RenderLine(Spoken(log)[i])
  {
    var spoken := Spoken(log);
    var lines := RenderLines(spoken);
    forall i | 0 <= i < |lines| ensures '\n' !in lines[i] {
      SpokenEntryFromLog(log, i);
      LabelHasNoBreak(spoken[i].author);
    }
    SplitJoin(lines, '\n');
  }

  /** Every spoken entry is an entry of the log. */
  lemma {:induction false} SpokenEntryFromLog(log: seq<Entry>, i: nat)
    requires i < |Spoken(log)|
    ensures Spoken(log)[i] in log
  {
    if log != [] {
      if log[0].author == System {
        SpokenEntryFromLog(log[1..], i);
      } else if i > 0 {
        SpokenEntryFromLog(log[1..], i - 1);
      }
    }
  }

  lemma LabelHasNoBreak(a: Author)
    ensures '\n' !in AuthorLabel(a) + ": "
  {
  }

  /** The filter on the worked example's log drops exactly the opening notice. */
  lemma SpokenDropsNotice(e0: Entry, e1: Entry, e2: Entry, e3: Entry, e4: Entry)
    requires e0.author == System && e1.author != System && e2.author != System
    requires e3.author != System && e4.author != System
    ensures Spoken([e0, e1, e2, e3, e4]) == [e1, e2, e3, e4]
  {
    assert [e4][1..] == [];
    assert Spoken([e4]) == [e4];
    assert [e3, e4][1..] == [e4];
    assert Spoken([e3, e4]) == [e3, e4];
    assert [e2, e3, e4][1..] == [e3, e4];
    assert Spoken([e2, e3, e4]) == [e2, e3, e4];
    assert [e1, e2, e3, e4][1..] == [e2, e3, e4];
    assert Spoken([e1, e2, e3, e4]) == [e1, e2, e3, e4];
    assert [e0, e1, e2, e3, e4][1..] == [e1, e2, e3, e4];
  }

  /** The worked example: an opening system notice and two question/answer pairs render to
      exactly four lines, user and model alternating, with the notice left out. */
  lemma TwoPairsRenderFourLines(notice: string, u1: string, m1: string, u2: string, m2: string)
    requires '\n' !in u1 && '\n' !in m1 && '\n' !in u2 && '\n' !in m2 && '\n' !in notice
    ensures var log := [Entry(System, notice), Entry(User, u1), Entry(Model, m1), Entry(User, u2), Entry(Model, m2)];
            Split(RenderTranscript(log), '\n')
              == ["USER: " + u1, "MODEL: " + m1, "USER: " + u2, "MODEL: " + m2]
  {
    var e0, e1, e2, e3, e4 := Entry(System, notice), Entry(User, u1), Entry(Model, m1), Entry(User, u2), Entry(Model, m2);
    var log := [e0, e1, e2, e3, e4];
    SpokenDropsNotice(e0, e1, e2, e3, e4);
    RenderTranscriptLines(log);
    var lines := Split(RenderTranscript(log), '\n');
    assert lines[0] == RenderLine(e1) == "USER: " + u1;
    assert lines[1] == RenderLine(e2) == "MODEL: " + m1;
    assert lines[2] == RenderLine(e3) == "USER: " + u2;
    assert lines[3] == RenderLine(e4) == "MODEL: " + m2;
  }
}
