/**
 The state record of the quiz session controller (src/components/Quiz.jsx, lines 4-14),
 the abstract replies of the remote service, and the user-visible messages the
 controller writes into that record.
 */
module QuizState {

  /** `null` / `undefined` on the JavaScript side. */
  datatype Option<+T> = None | Some(value: T) {

    /** `x || d` for a field that is either a number or absent. */
    function GetOr(default: T): T {
      match this
      case Some(v) => v
      case None => default
    }
  }

  type QuestionId = int

  /** A question as the question endpoint returns it: `{id, question_text, option_a..option_d}`. */
  datatype Question = Question(
    id: QuestionId,
    text: string,
    optionA: string,
    optionB: string,
    optionC: string,
    optionD: string)

  /** The Bootstrap alert class the feedback panel is drawn with. */
  datatype FeedbackKind = Success | Danger

  datatype Feedback = Feedback(kind: FeedbackKind, message: string)

  /** The session endpoint's body, stored verbatim; a field the body lacks is `None`. */
  datatype Score = Score(correctAnswers: Option<int>, totalQuestions: Option<int>)

  /** The eleven `useState` cells of the component. */
  datatype State = State(
    token: Option<string>,
    question: Option<Question>,
    score: Option<Score>,
    isLoginForm: bool,
    username: string,
    password: string,
    error: string,
    feedback: Option<Feedback>,
    answeredQuestions: set<QuestionId>,
    loading: bool,
    quizCompleted: bool)

  /** The state on mount (and after every page reload). */
  const Initial := State(None, None, None, true, "", "", "", None, {}, false, false)

  /** Reply of `POST /api/login/` or `POST /api/register/`. `AuthOk` is any 2xx reply
      with a JSON object body, whose `access` field may be absent; `AuthFail` is a
      non-2xx reply or a thrown exception (transport error, body that is not JSON, a
      2xx `null` body whose `access` cannot be read). */
  datatype AuthResponse = AuthOk(access: Option<string>) | AuthFail

  /** Reply of `GET /api/question/`. `QuestionOk` is a 2xx reply whose body is stored as
      the question, `None` for a `null` body. `QuestionNotFound` is a 404 with a JSON
      object body whose `message` field is given (an absent field is any string other
      than the completion text); `QuestionFail` is any other non-2xx reply or a thrown
      exception, a 404 with a `null` body included. */
  datatype QuestionResponse =
    | QuestionOk(q: Option<Question>)
    | QuestionNotFound(message: string)
    | QuestionFail

  /** Reply of `POST /api/submit/`. The handler never looks at the status, so `SubmitOk`
      is any reply with a JSON body; `isCorrect` is the truthiness of its `is_correct`
      field, and `correctOption` is `None` when that field is absent or not a string.
      A `null` body behaves as `SubmitOk(false, None)`: the answer is recorded, then
      reading the body throws. `SubmitFail` is a transport error or a body that is not
      JSON. */
  datatype SubmitResponse = SubmitOk(isCorrect: bool, correctOption: Option<string>) | SubmitFail

  /** Reply of `GET /api/session/`: any JSON body is stored as the score, whatever the
      status, `None` for a `null` body; `SessionFail` is a transport error or a body
      that is not JSON. */
  datatype SessionResponse = Session(score: Option<Score>) | SessionFail

  const LoginFailed := "Login failed. Invalid credentials."
  const RegistrationFailed := "Registration failed. Try again."
  const FetchFailed := "Failed to fetch question."
  const SubmitFailed := "Failed to submit answer."
  const SessionFailed := "Failed to fetch session details."
  const CorrectMessage := "Correct!"

  /** The 404 message by which the service says the question pool is exhausted. */
  const CompletedMessage := "You have completed all available questions!"

  /** JavaScript truthiness of the token: `null`, `undefined` and `''` are falsy. */
  predicate Truthy(token: Option<string>) {
    token.Some? && token.value != ""
  }

  /** The completion signal implies there is no active question. */
  predicate CompletionClearsQuestion(s: State) {
    s.quizCompleted ==> s.question.None?
  }

  /** What holds of every state between two user intents: no request is in flight, and a
      completed quiz shows neither a question nor feedback. */
  predicate Settled(s: State) {
    && CompletionClearsQuestion(s)
    && (s.quizCompleted ==> s.feedback.None?)
    && !s.loading
  }
}
