/**
 The strings the controller derives: the text of the option field a label names once
 lower-cased (src/components/Quiz.jsx lines 122 and 289) and the submission feedback
 built from it (lines 116-126).
 */
module Text {
  import opened QuizState

  /** ASCII lower-casing of one character. */
  function LowerChar(c: char): char {
    if 'A' <= c <= 'Z' then (c as int + 32) as char else c
  }

  /** `String.prototype.toLowerCase`, restricted to ASCII letters. */
  function Lower(s: string): (r: string)
    ensures |r| == |s|
    ensures forall i :: 0 <= i < |s| ==> r[i] == LowerChar(s[i])
  {
    if s == [] then [] else [LowerChar(s[0])] + Lower(s[1..])
  }

  /** The only one-character labels that lower-case to `a`..`d`. */
  lemma LowerSingle(letter: string, key: char)
    requires key in "abcd"
    requires Lower(letter) == [key]
    ensures letter == [key] || letter == [(key as int - 32) as char]
  {
    assert |letter| == 1;
    assert LowerChar(letter[0]) == key;
    assert letter == [letter[0]];
  }

  /** How `undefined` prints inside a template literal. */
  const Undefined := "undefined"

  /** The spellings of a label that reach one of the four option fields. */
  const OptionSpellings := ["A", "a", "B", "b", "C", "c", "D", "d"]

  /** The question's field `option_` + lower-cased `letter`, rendered as text. Only the
      four option fields can be reached; any other key reads as `undefined`. */
  function OptionText(q: Question, letter: string): (t: string)
    ensures letter == "A" || letter == "a" ==> t == q.optionA
    ensures letter == "B" || letter == "b" ==> t == q.optionB
    ensures letter == "C" || letter == "c" ==> t == q.optionC
    ensures letter == "D" || letter == "d" ==> t == q.optionD
    ensures letter !in OptionSpellings ==> t == Undefined
  {
    var key := Lower(letter);
    if key == "a" then
      LowerSingle(letter, 'a');
      q.optionA
    else if key == "b" then
      LowerSingle(letter, 'b');
      q.optionB
    else if key == "c" then
      LowerSingle(letter, 'c');
      q.optionC
    else if key == "d" then
      LowerSingle(letter, 'd');
      q.optionD
    else
      Undefined
  }

  /** The danger message for an incorrect answer whose correct option is `letter`. */
  function IncorrectMessage(letter: string, text: string): string {
    "Incorrect! Option " + letter + ": " + text + " was the correct answer."
  }

  /** The feedback for a submission reply, given the question active at submission. */
  function SubmitFeedback(q: Question, isCorrect: bool, correctOption: string): (f: Feedback)
    ensures f.kind == Success <==> isCorrect
    ensures isCorrect ==> f.message == CorrectMessage
    ensures !isCorrect ==> f.message != CorrectMessage
  {
    if isCorrect then Feedback(Success, CorrectMessage)
    else Feedback(Danger, IncorrectMessage(correctOption, OptionText(q, correctOption)))
  }

  /** An incorrect-answer message quotes the server's letter verbatim and the text of the
      option field that letter names, read from the question active at submission; a
      letter naming no option field quotes `undefined`. */
  lemma IncorrectFeedbackQuotesOption(q: Question, letter: string)
    ensures letter in ["A", "a"] ==> (SubmitFeedback(q, false, letter).message == IncorrectMessage(letter, q.optionA))
    ensures letter in ["B", "b"] ==> (SubmitFeedback(q, false, letter).message == IncorrectMessage(letter, q.optionB))
    ensures letter in ["C", "c"] ==> (SubmitFeedback(q, false, letter).message == IncorrectMessage(letter, q.optionC))
    ensures letter in ["D", "d"] ==> (SubmitFeedback(q, false, letter).message == IncorrectMessage(letter, q.optionD))
    ensures letter !in OptionSpellings ==> (SubmitFeedback(q, false, letter).message == IncorrectMessage(letter, Undefined))
  {
  }
}
