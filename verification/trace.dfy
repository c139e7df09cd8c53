/**
 The controller driven by a sequence of user intents, each one an atomic start and
 complete pair, and the properties of every state the user can reach. An intent is
 enabled when the control that fires it is rendered and not disabled (the
 `disabled={loading}` attributes of src/components/Quiz.jsx, lines 190-287).
 */
module Trace {
  import opened QuizState
  import opened Session
  import opened View

  /** What the user can do, with the service's replies to the requests it causes. */
  datatype Intent =
    | SignIn(authReply: AuthResponse, refresh: SessionResponse)
    | RequestQuestion(questionReply: QuestionResponse)
    | Answer(option: string, submitReply: SubmitResponse, refresh: SessionResponse)
    | SwitchForm
    | EnterUsername(newUsername: string)
    | EnterPassword(newPassword: string)

  /** The labels of the four answer buttons (line 282). */
  const OptionLetters := ["A", "B", "C", "D"]

  /** One intent run to completion. The chosen option only reaches the service, so it
      acts on the state only through the submission reply. Every intent keeps a settled
      state settled, and none of them shrinks the set of answered questions. */
  function Step(s: State, i: Intent): (r: State)
    ensures Settled(s) ==> Settled(r)
    ensures CompletionClearsQuestion(s) ==> CompletionClearsQuestion(r)
    ensures r.answeredQuestions >= s.answeredQuestions
  {
    match i
    case SignIn(reply, refresh) => Authenticate(s, reply, refresh)
    case RequestQuestion(reply) => FetchQuestion(s, reply)
    case Answer(_, reply, refresh) => SubmitAnswer(s, reply, refresh)
    case SwitchForm => ToggleForm(s)
    case EnterUsername(value) => TypeUsername(s, value)
    case EnterPassword(value) => TypePassword(s, value)
  }

  /** The control that fires `i` is on screen and not disabled: the auth form's inputs
      and buttons, "Get Question" or "Next Question", or one of the four answer buttons. */
  predicate Enabled(s: State, i: Intent)
    ensures Enabled(s, i) ==> !s.loading
    ensures i.SignIn? || i.SwitchForm? || i.EnterUsername? || i.EnterPassword? ==>
      (Enabled(s, i) <==> !Truthy(s.token) && !s.loading)
    ensures i.RequestQuestion? ==>
      (Enabled(s, i) <==> Truthy(s.token) && !s.loading
                          && (s.feedback.Some? || (s.question.None? && !s.quizCompleted)))
    ensures i.Answer? ==>
      (Enabled(s, i) <==> Truthy(s.token) && !s.loading && s.question.Some? && s.feedback.None?
                          && !s.quizCompleted && i.option in OptionLetters)
  {
    var v := Render(s);
    v.controlsEnabled &&
    match i
    case SignIn(_, _) => v.authForm
    case RequestQuestion(_) => v.getQuestionButton || v.feedbackPanel
    case Answer(option, _, _) => v.questionCard && option in OptionLetters
    case SwitchForm => v.authForm
    case EnterUsername(_) => v.authForm
    case EnterPassword(_) => v.authForm
  }

  /** The state after running `trace` from `s`. */
  function Run(s: State, trace: seq<Intent>): State
    decreases |trace|
  {
    if trace == [] then s else Run(Step(s, trace[0]), trace[1..])
  }

  /** Every intent of `trace` is enabled in the state it is issued from. */
  predicate Driven(s: State, trace: seq<Intent>)
    decreases |trace|
  {
    trace == [] || (Enabled(s, trace[0]) && Driven(Step(s, trace[0]), trace[1..]))
  }

  lemma {:induction false} RunPreservesSettled(s: State, trace: seq<Intent>)
    requires Settled(s)
    ensures Settled(Run(s, trace))
    decreases |trace|
  {
    if trace != [] {
      RunPreservesSettled(Step(s, trace[0]), trace[1..]);
    }
  }

  /** Every state reached from mount, by any intents and any replies, has no request in
      flight, and a completed quiz in it shows neither a question nor feedback. */
  lemma ReachableStatesSettled(trace: seq<Intent>)
    ensures Settled(Run(Initial, trace))
    ensures Run(Initial, trace).quizCompleted ==> Run(Initial, trace).question.None?
  {
    RunPreservesSettled(Initial, trace);
  }

  /** The answered set only grows. */
  lemma {:induction false} AnsweredOnlyGrows(s: State, trace: seq<Intent>)
    ensures Run(s, trace).answeredQuestions >= s.answeredQuestions
    decreases |trace|
  {
    if trace != [] {
      AnsweredOnlyGrows(Step(s, trace[0]), trace[1..]);
    }
  }

  /** Question, answer and the buttons that send them are reachable only with a token. */
  lemma ProtectedRequestsNeedToken(s: State, i: Intent)
    requires Enabled(s, i)
    requires i.RequestQuestion? || i.Answer?
    ensures Truthy(s.token)
  {
  }

  /** Once signed in, the user has no control that changes the token. */
  lemma {:induction false} TokenStableOnceSignedIn(s: State, trace: seq<Intent>)
    requires Truthy(s.token)
    requires Driven(s, trace)
    ensures Run(s, trace).token == s.token
    decreases |trace|
  {
    if trace != [] {
      assert !Render(s).authForm;
      TokenStableOnceSignedIn(Step(s, trace[0]), trace[1..]);
    }
  }

  /** A completed quiz with a token offers no control at all: the completion panel is
      final. */
  lemma CompletedIsTerminal(s: State, i: Intent)
    requires Settled(s) && Truthy(s.token) && s.quizCompleted
    ensures !Enabled(s, i)
  {
  }

  /** The state with the answered set forgotten. */
  function Forget(s: State): State {
    s.(answeredQuestions := {})
  }

  lemma SubmitIgnoresAnswered(s: State, reply: SubmitResponse, refresh: SessionResponse, answered: set<QuestionId>)
    ensures Forget(SubmitAnswer(s.(answeredQuestions := answered), reply, refresh)) == Forget(SubmitAnswer(s, reply, refresh))
  {
  }

  lemma AuthIgnoresAnswered(s: State, reply: AuthResponse, refresh: SessionResponse, answered: set<QuestionId>)
    ensures Forget(Authenticate(s.(answeredQuestions := answered), reply, refresh)) == Forget(Authenticate(s, reply, refresh))
  {
  }

  lemma FetchIgnoresAnswered(s: State, reply: QuestionResponse, answered: set<QuestionId>)
    ensures Forget(FetchQuestion(s.(answeredQuestions := answered), reply)) == Forget(FetchQuestion(s, reply))
  {
  }

  /** The answered set is written but never read: it changes neither which intents are
      enabled, nor what they do to the rest of the state, nor what is rendered. */
  lemma AnsweredSetNeverRead(s: State, i: Intent, answered: set<QuestionId>)
    ensures Enabled(s.(answeredQuestions := answered), i) == Enabled(s, i)
    ensures Forget(Step(s.(answeredQuestions := answered), i)) == Forget(Step(s, i))
    ensures Render(s.(answeredQuestions := answered)) == Render(s)
  {
    match i
    case SignIn(reply, refresh) => AuthIgnoresAnswered(s, reply, refresh, answered);
    case RequestQuestion(reply) => FetchIgnoresAnswered(s, reply, answered);
    case Answer(_, reply, refresh) => SubmitIgnoresAnswered(s, reply, refresh, answered);
    case _ =>
  }

  /** A failed "Next Question" after an answer clears the feedback but keeps the
      answered question, so its card and its answer buttons come back. */
  lemma FailedNextQuestionReoffersAnswered(s: State, q: Question)
    requires Settled(s) && Truthy(s.token)
    requires s.question == Some(q) && q.id in s.answeredQuestions && s.feedback.Some?
    ensures Enabled(s, RequestQuestion(QuestionFail))
    ensures Step(s, RequestQuestion(QuestionFail)).question == Some(q)
    ensures Render(Step(s, RequestQuestion(QuestionFail))).questionCard
    ensures Enabled(Step(s, RequestQuestion(QuestionFail)), Answer("A", SubmitFail, SessionFail))
  {
  }

  /** The completion reply shows the completion panel alone, with the last score the
      session endpoint returned, or 0/0 when there is none. */
  lemma CompletionShowsLastScore(s: State)
    requires Settled(s) && Truthy(s.token)
    ensures var t := Step(s, RequestQuestion(QuestionNotFound(CompletedMessage)));
      && Render(t).completionPanel
      && MainPanelCount(Render(t)) == 1
      && Render(t).finalScore == Some(FinalScore(s))
      && (s.score.None? ==> Render(t).finalScore == Some((0, 0)))
  {
    var t := Step(s, RequestQuestion(QuestionNotFound(CompletedMessage)));
    assert t.score == s.score;
    ExactlyOneMainPanel(t);
  }

  /** The question of the scenario below. */
  const SampleQuestion := Question(1, "2+2?", "3", "4", "5", "6")

  /** Sign in to a fresh account, fetch the question "2+2?", answer A where B ("4") was
      correct, then have "Next Question" fail. */
  const ReanswerTrace := [
    SignIn(AuthOk(Some("t")), Session(Some(Score(Some(0), Some(0))))),
    RequestQuestion(QuestionOk(Some(SampleQuestion))),
    Answer("A", SubmitOk(false, Some("B")), Session(Some(Score(Some(0), Some(1))))),
    RequestQuestion(QuestionFail)]

  lemma ScenarioSignIn()
    ensures var s1 := Step(Initial, ReanswerTrace[0]);
      && Enabled(Initial, ReanswerTrace[0])
      && s1.token == Some("t") && s1.score == Some(Score(Some(0), Some(0)))
      && Settled(s1) && !s1.quizCompleted && s1.question.None? && s1.feedback.None?
  {
  }

  lemma ScenarioFetch(s1: State)
    requires Settled(s1) && s1.token == Some("t") && !s1.quizCompleted
    requires s1.question.None? && s1.feedback.None?
    ensures var s2 := Step(s1, ReanswerTrace[1]);
      && Enabled(s1, ReanswerTrace[1])
      && Settled(s2) && s2.token == s1.token
      && s2.question == Some(SampleQuestion) && s2.feedback.None?
      && s2.answeredQuestions == s1.answeredQuestions
  {
  }

  lemma ScenarioAnswer(s2: State)
    requires Settled(s2) && s2.token == Some("t") && s2.question == Some(SampleQuestion) && s2.feedback.None?
    ensures var s3 := Step(s2, ReanswerTrace[2]);
      && Enabled(s2, ReanswerTrace[2])
      && Settled(s3) && s3.token == s2.token && s3.question == s2.question
      && s3.feedback == Some(Feedback(Danger, Text.IncorrectMessage("B", "4")))
      && 1 in s3.answeredQuestions
  {
    Text.IncorrectFeedbackQuotesOption(SampleQuestion, "B");
  }

  lemma ScenarioFailedNext(s3: State)
    requires Settled(s3) && s3.token == Some("t") && s3.question == Some(SampleQuestion)
    requires s3.feedback.Some? && 1 in s3.answeredQuestions
    ensures var s4 := Step(s3, ReanswerTrace[3]);
      && Enabled(s3, ReanswerTrace[3])
      && s4.question == Some(SampleQuestion) && 1 in s4.answeredQuestions
      && Render(s4).questionCard
  {
    FailedNextQuestionReoffersAnswered(s3, SampleQuestion);
  }

  /** The whole scenario from mount: every intent is enabled when issued, the automatic
      refresh after sign-in shows 0/0, the incorrect-answer feedback quotes option B's
      text, and the answered question ends up on screen again. */
  lemma ReanswerScenario()
    ensures Driven(Initial, ReanswerTrace)
    ensures Step(Initial, ReanswerTrace[0]).score == Some(Score(Some(0), Some(0)))
    ensures Render(Step(Initial, ReanswerTrace[0])).runningScore
    ensures Step(Step(Step(Initial, ReanswerTrace[0]), ReanswerTrace[1]), ReanswerTrace[2]).feedback
         == Some(Feedback(Danger, Text.IncorrectMessage("B", "4")))
    ensures Run(Initial, ReanswerTrace).question == Some(SampleQuestion)
    ensures 1 in Run(Initial, ReanswerTrace).answeredQuestions
    ensures Render(Run(Initial, ReanswerTrace)).questionCard
  {
    var t := ReanswerTrace;
    ScenarioSignIn();
    var s1 := Step(Initial, t[0]);
    ScenarioFetch(s1);
    var s2 := Step(s1, t[1]);
    ScenarioAnswer(s2);
    var s3 := Step(s2, t[2]);
    ScenarioFailedNext(s3);
    var s4 := Step(s3, t[3]);
    assert t[1..][1..] == t[2..] && t[2..][1..] == t[3..] && t[3..][1..] == [];
    assert Run(s3, t[3..]) == s4;
    assert Run(s2, t[2..]) == s4;
    assert Run(s1, t[1..]) == s4;
    assert Driven(s3, t[3..]);
    assert Driven(s2, t[2..]);
    assert Driven(s1, t[1..]);
  }
}
