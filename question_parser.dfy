/**
 * The mock interview's progress counter: the first match of `/Question (\d+):/` in a
 * model turn, read with `parseInt(…, 10)`, and the `Math.max` update of the count.
 */
module QuestionParser {
  import opened Wrappers
  import opened Text

  const QuestionTag := "Question "

  predicate AllDigits(s: string) {
    forall i :: 0 <= i < |s| ==> IsDigit(s[i])
  }

  /** `parseInt(digits, 10)` on a string of ASCII digits. */
  function DecimalValue(digits: string): nat
    requires AllDigits(digits)
  {
    if digits == [] then 0
    else DecimalValue(digits[..|digits| - 1]) * 10 + (digits[|digits| - 1] as int - '0' as int)
  }

  /** The number the pattern captures when it matches at position `i` of `s`, if it does. */
  function QuestionAt(s: string, i: nat): (r: Option<nat>)
    requires i <= |s|
    ensures r.Some? ==> StartsWith(s[i..], QuestionTag)
  {
    var t := s[i..];
    if !StartsWith(t, QuestionTag) then None
    else
      var digits := DigitRun(t[|QuestionTag|..]);
      var close := |QuestionTag| + digits;
      if digits >= 1 && close < |t| && t[close] == ':' then
        Some(DecimalValue(t[|QuestionTag|..close]))
      else None
  }

  /** Leftmost match at or after position `i`. */
  function QuestionFrom(s: string, i: nat): Option<nat>
    requires i <= |s|
    decreases |s| - i
  {
    if i == |s| then None
    else if QuestionAt(s, i).Some? then QuestionAt(s, i)
    else QuestionFrom(s, i + 1)
  }

  /** `modelOutput.match(/Question (\d+):/)`, reduced to the parsed number. */
  function FirstQuestionNumber(s: string): Option<nat> {
    QuestionFrom(s, 0)
  }

  /**
   * The scan returns the number of the leftmost match: it matches at the position it
   * reports and nowhere before it, and it finds nothing only when no position matches.
   */
  lemma {:induction false} QuestionFromLeftmost(s: string, i: nat)
    requires i <= |s|
    ensures QuestionFrom(s, i).None? <==> forall k :: i <= k < |s| ==> QuestionAt(s, k).None?
    ensures QuestionFrom(s, i).Some? ==>
              exists j :: i <= j < |s| && QuestionAt(s, j) == QuestionFrom(s, i)
                          && forall k :: i <= k < j ==> QuestionAt(s, k).None?
    decreases |s| - i
  {
    if i < |s| && QuestionAt(s, i).None? {
      QuestionFromLeftmost(s, i + 1);
      if QuestionFrom(s, i).Some? {
        var j :| i + 1 <= j < |s| && QuestionAt(s, j) == QuestionFrom(s, i + 1)
                 && forall k :: i + 1 <= k < j ==> QuestionAt(s, k).None?;
        assert forall k :: i <= k < j ==> QuestionAt(s, k).None?;
      }
    }
  }

  /** A model turn that opens with "Question N:" is counted as question N. */
  lemma QuestionAtFront(digits: string, rest: string)
    requires digits != [] && AllDigits(digits)
    ensures FirstQuestionNumber(QuestionTag + digits + ":" + rest) == Some(DecimalValue(digits))
  {
    var s := QuestionTag + digits + ":" + rest;
    assert s[0..] == s;
    assert s[|QuestionTag|..] == digits + (":" + rest);
    DigitRunOf(digits, ":" + rest);
    assert s[|QuestionTag|..|QuestionTag| + |digits|] == (digits + (":" + rest))[..|digits|] == digits;
  }

  /** A concrete turn: "Question 12: Tell me about a conflict." counts as question twelve. */
  lemma ParsesTwelve()
    ensures FirstQuestionNumber(QuestionTag + "12" + ":" + " Tell me about a conflict.") == Some(12)
  {
    QuestionAtFront("12", " Tell me about a conflict.");
    assert "12"[..1] == "1" && ""[..0] == "";
    assert DecimalValue("12") == DecimalValue("1") * 10 + 2;
  }

  /** `setQuestionCount(prev => Math.max(prev, num))` when the turn names a question. */
  function NextQuestionCount(prev: nat, modelOutput: string): (count: nat)
    ensures count >= prev
    ensures count == prev || Some(count) == FirstQuestionNumber(modelOutput)
    ensures FirstQuestionNumber(modelOutput).None? ==> count == prev
    ensures FirstQuestionNumber(modelOutput).Some? ==> count >= FirstQuestionNumber(modelOutput).value
  {
    match FirstQuestionNumber(modelOutput)
    case Some(n) => if n > prev then n else prev
    case None => prev
  }

  /** The banner's "Question {questionCount > 10 ? 10 : questionCount} of 10". */
  function DisplayedQuestion(count: nat): (shown: nat)
    ensures shown <= 10 && shown <= count
    ensures count <= 10 ==> shown == count
    ensures count > 10 ==> shown == 10
  {
    if count > 10 then 10 else count
  }

  /** The banner never goes backwards when the count does not. */
  lemma DisplayedQuestionMonotone(a: nat, b: nat)
    requires a <= b
    ensures DisplayedQuestion(a) <= DisplayedQuestion(b)
  {
  }
}
