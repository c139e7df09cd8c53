/**
 Which panels the component renders for a state (src/components/Quiz.jsx, lines
 167-295), as booleans; markup, styling and text beyond the panel choice are not
 modelled.
 */
module View {
  import opened QuizState

  datatype Panels = Panels(
    heading: bool,            // "QA Session", line 169
    authForm: bool,           // line 177
    formTitle: string,        // line 180
    authError: bool,          // line 217
    statusCard: bool,         // line 226
    getQuestionButton: bool,  // line 230
    runningScore: bool,       // line 239
    feedbackPanel: bool,      // line 251
    completionPanel: bool,    // line 266
    questionCard: bool,       // line 277
    finalScore: Option<(int, int)>,  // line 272, inside the completion panel
    controlsEnabled: bool)    // every `disabled={loading}`

  /** The panel choice. Without a token only the auth form shows; with one, the
      question card and the "Get Question" button each need no feedback and no
      completion; the card needs a question and the button needs there to be none. */
  function Render(s: State): (v: Panels)
    ensures !Truthy(s.token) ==>
      (v.authForm && !v.heading && !v.statusCard && !v.getQuestionButton
       && !v.runningScore && !v.feedbackPanel && !v.completionPanel && !v.questionCard)
    ensures Truthy(s.token) ==> v.heading && !v.authForm && !v.authError
    ensures v.authForm ==> (v.formTitle == "Login" <==> s.isLoginForm)
    ensures v.authError <==> !Truthy(s.token) && s.error != ""
    ensures v.questionCard <==> Truthy(s.token) && s.question.Some? && s.feedback.None? && !s.quizCompleted
    ensures v.getQuestionButton <==> Truthy(s.token) && s.question.None? && s.feedback.None? && !s.quizCompleted
    ensures v.feedbackPanel <==> Truthy(s.token) && s.feedback.Some?
    ensures v.completionPanel <==> Truthy(s.token) && s.quizCompleted
    ensures v.statusCard <==> Truthy(s.token) && !s.quizCompleted
    ensures v.runningScore <==> v.statusCard && s.score.Some?
    ensures !(v.getQuestionButton && v.questionCard)
    ensures !(v.questionCard && v.feedbackPanel)
    ensures !(v.questionCard && v.completionPanel)
    ensures v.finalScore.Some? <==> v.completionPanel
    ensures v.completionPanel ==> v.finalScore == Some(FinalScore(s))
    ensures v.controlsEnabled <==> !s.loading
  {
    var signedIn := Truthy(s.token);
    Panels(
      heading := signedIn,
      authForm := !signedIn,
      formTitle := if s.isLoginForm then "Login" else "Sign Up",
      authError := !signedIn && s.error != "",
      statusCard := signedIn && !s.quizCompleted,
      getQuestionButton := signedIn && !s.quizCompleted && s.question.None? && s.feedback.None?,
      runningScore := signedIn && !s.quizCompleted && s.score.Some?,
      feedbackPanel := signedIn && s.feedback.Some?,
      completionPanel := signedIn && s.quizCompleted,
      questionCard := signedIn && s.question.Some? && s.feedback.None? && !s.quizCompleted,
      finalScore := if signedIn && s.quizCompleted then Some(FinalScore(s)) else None,
      controlsEnabled := !s.loading)
  }

  /** The four panels the signed-in view chooses among. */
  function MainPanelCount(v: Panels): nat {
    (if v.getQuestionButton then 1 else 0) + (if v.feedbackPanel then 1 else 0)
    + (if v.completionPanel then 1 else 0) + (if v.questionCard then 1 else 0)
  }

  /** In a settled state with a token exactly one of the prompt, the feedback panel, the
      completion panel and the question card is shown. The render conditions alone do
      not give this: it needs the invariant that a completed quiz has no feedback. */
  lemma ExactlyOneMainPanel(s: State)
    requires Settled(s) && Truthy(s.token)
    ensures MainPanelCount(Render(s)) == 1
  {
  }

  /** A settled state without the invariant's feedback clause would show two panels. */
  lemma CompletedWithFeedbackShowsTwo(s: State)
    requires Truthy(s.token) && s.quizCompleted && s.feedback.Some?
    ensures MainPanelCount(Render(s)) == 2
  {
  }

  /** `score?.correct_answers || 0` and `score?.total_questions || 0` (line 272). */
  function FinalScore(s: State): (r: (int, int))
    ensures s.score.None? ==> r == (0, 0)
    ensures s.score.Some? && s.score.value.correctAnswers.Some? ==> r.0 == s.score.value.correctAnswers.value
    ensures s.score.Some? && s.score.value.totalQuestions.Some? ==> r.1 == s.score.value.totalQuestions.value
    ensures s.score.Some? && s.score.value.correctAnswers.None? ==> r.0 == 0
    ensures s.score.Some? && s.score.value.totalQuestions.None? ==> r.1 == 0
  {
    match s.score
    case None => (0, 0)
    case Some(score) => (score.correctAnswers.GetOr(0), score.totalQuestions.GetOr(0))
  }
}
