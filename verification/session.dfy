/**
 The handlers of the quiz session controller (src/components/Quiz.jsx, lines 16-165).
 Each async handler is split into a start step (its guard, then `setLoading(true)`)
 and a complete step that consumes the service's reply and ends with
 `setLoading(false)`; the composite intent runs the two back to back.
 */
module Session {
  import opened QuizState
  import opened Text

  /* ---------- getSessionDetails (lines 139-151) ---------- */

  /** Stores the reply body as the score without looking at the status, or reports the
      failure; touches nothing else and never the loading flag. */
  function ApplySession(s: State, reply: SessionResponse): (r: State)
    ensures reply.Session? ==> r.score == reply.score && r.error == s.error
    ensures reply.SessionFail? ==> r.score == s.score && r.error == SessionFailed
    ensures r.(score := s.score, error := s.error) == s
  {
    match reply
    case Session(score) => s.(score := score)
    case SessionFail => s.(error := SessionFailed)
  }

  /** Refreshing twice with the same reply is refreshing once: the refresh only ever
      overwrites the snapshot, so it may race with other requests. */
  lemma ApplySessionIdempotent(s: State, reply: SessionResponse)
    ensures ApplySession(ApplySession(s, reply), reply) == ApplySession(s, reply)
  {
  }

  /* ---------- registerUser / loginUser (lines 16-62) ---------- */

  /** The message a failed login or registration leaves behind. */
  function AuthFailureMessage(isLogin: bool): string {
    if isLogin then LoginFailed else RegistrationFailed
  }

  /** Neither auth handler has a guard of its own: it only raises the loading flag. */
  function StartAuth(s: State): (r: State)
    ensures r.loading
    ensures r.(loading := s.loading) == s
  {
    s.(loading := true)
  }

  /** Success stores the returned token (verbatim, even if absent) and clears the error;
      failure keeps the token and reports a message that depends on the handler. */
  function CompleteAuth(s: State, isLogin: bool, reply: AuthResponse): (r: State)
    ensures !r.loading
    ensures reply.AuthOk? ==> r.token == reply.access && r.error == ""
    ensures reply.AuthFail? ==> r.token == s.token
    ensures reply.AuthFail? && isLogin ==> r.error == LoginFailed
    ensures reply.AuthFail? && !isLogin ==> r.error == RegistrationFailed
    ensures r.(token := s.token, error := s.error, loading := s.loading) == s
  {
    match reply
    case AuthOk(access) => s.(token := access, error := "", loading := false)
    case AuthFail => s.(error := AuthFailureMessage(isLogin), loading := false)
  }

  /** The `useEffect` on `[token]` (lines 161-165): after a render in which the token
      value changed, the score is refreshed when the new token is truthy. */
  function TokenEffect(before: State, after: State, refresh: SessionResponse): (r: State)
    ensures after.token == before.token || !Truthy(after.token) ==> r == after
    ensures after.token != before.token && Truthy(after.token) && refresh.Session? ==>
      r == after.(score := refresh.score)
    ensures after.token != before.token && Truthy(after.token) && refresh.SessionFail? ==>
      r == after.(error := SessionFailed)
  {
    if after.token != before.token && Truthy(after.token) then ApplySession(after, refresh) else after
  }

  /** A successful sign-in that changes the token to a truthy one: the case in which
      the token effect refreshes the score. */
  predicate RefreshesScore(s: State, reply: AuthResponse) {
    reply.AuthOk? && reply.access != s.token && Truthy(reply.access)
  }

  /** The button of the auth form (line 204) runs `loginUser` in login mode and
      `registerUser` otherwise; the token change then triggers the score refresh. */
  function Authenticate(s: State, reply: AuthResponse, refresh: SessionResponse): (r: State)
    ensures !r.loading
    ensures reply.AuthOk? ==> r.token == reply.access
    ensures RefreshesScore(s, reply) ==>
      (r.error == SessionFailed <==> refresh.SessionFail?)
      && (refresh.Session? ==> r.score == refresh.score && r.error == "")
      && (refresh.SessionFail? ==> r.score == s.score)
    ensures reply.AuthOk? && !RefreshesScore(s, reply) ==> r.error == "" && r.score == s.score
    ensures reply.AuthFail? ==> r.token == s.token && r.score == s.score
    ensures reply.AuthFail? ==> r.error == AuthFailureMessage(s.isLoginForm)
    ensures r.username == s.username && r.password == s.password
    ensures r.question == s.question && r.quizCompleted == s.quizCompleted && r.feedback == s.feedback
    ensures r.answeredQuestions == s.answeredQuestions && r.isLoginForm == s.isLoginForm
  {
    TokenEffect(s, CompleteAuth(StartAuth(s), s.isLoginForm, reply), refresh)
  }

  /* ---------- fetchQuestion (lines 64-92) ---------- */

  /** The guard, then the loading flag and the clearing of any feedback (lines 65-69). */
  function StartFetch(s: State): (r: State)
    ensures s.loading ==> r == s
    ensures !s.loading ==> r.loading && r.feedback.None?
    ensures !s.loading ==> r.(loading := s.loading, feedback := s.feedback) == s
  {
    if s.loading then s else s.(loading := true, feedback := None)
  }

  /** True of the one reply that signals the quiz is over: a 404 with exactly the
      completion message. */
  predicate SignalsCompletion(reply: QuestionResponse) {
    reply.QuestionNotFound? && reply.message == CompletedMessage
  }

  /** The three outcomes of lines 78-88: completion, a new question, or a generic error
      that leaves the question and the completion flag as they were. */
  function CompleteFetch(s: State, reply: QuestionResponse): (r: State)
    ensures !r.loading
    ensures SignalsCompletion(reply) ==> r.quizCompleted && r.question.None? && r.error == s.error
    ensures reply.QuestionOk? ==> r.question == reply.q && !r.quizCompleted && r.error == s.error
    ensures !SignalsCompletion(reply) && !reply.QuestionOk? ==>
      r.question == s.question && r.quizCompleted == s.quizCompleted && r.error == FetchFailed
    ensures r.(question := s.question, quizCompleted := s.quizCompleted, error := s.error, loading := s.loading) == s
  {
    if SignalsCompletion(reply) then
      s.(quizCompleted := true, question := None, loading := false)
    else if reply.QuestionOk? then
      s.(question := reply.q, quizCompleted := false, loading := false)
    else
      s.(error := FetchFailed, loading := false)
  }

  /** `fetchQuestion` as one intent: a no-op while loading, otherwise the request runs to
      completion and, whatever the reply, no feedback is left. */
  function FetchQuestion(s: State, reply: QuestionResponse): (r: State)
    ensures s.loading ==> r == s
    ensures !s.loading ==> !r.loading && r.feedback.None?
    ensures !s.loading && SignalsCompletion(reply) ==> r.quizCompleted && r.question.None?
    ensures !s.loading && reply.QuestionOk? ==> r.question == reply.q && !r.quizCompleted
    ensures !s.loading && !SignalsCompletion(reply) && !reply.QuestionOk? ==>
      r.question == s.question && r.quizCompleted == s.quizCompleted && r.error == FetchFailed
    ensures !s.loading && (SignalsCompletion(reply) || reply.QuestionOk?) ==> r.error == s.error
    ensures !s.loading ==>
      r.(question := s.question, quizCompleted := s.quizCompleted, error := s.error,
         feedback := s.feedback, loading := s.loading) == s
    ensures r.token == s.token && r.score == s.score && r.answeredQuestions == s.answeredQuestions
  {
    if s.loading then s else CompleteFetch(StartFetch(s), reply)
  }

  /* ---------- submitAnswer (lines 94-137) ---------- */

  /** The guard (line 95), then the loading flag. */
  function StartSubmit(s: State): (r: State)
    ensures s.loading || s.question.None? ==> r == s
    ensures !s.loading && s.question.Some? ==> r == s.(loading := true)
  {
    if s.loading || s.question.None? then s else s.(loading := true)
  }

  /** A submission reply the handler turns into feedback: a JSON body that says the
      answer is correct or names the correct option. Only then is the score refreshed. */
  predicate GivesFeedback(reply: SubmitResponse) {
    reply.SubmitOk? && (reply.isCorrect || reply.correctOption.Some?)
  }

  /** Lines 110-135 for the question `q` that was active when the answer was sent. A
      reply with a body records `q.id` as answered before anything else; a reply without
      a correct option on an incorrect answer then throws inside the handler. The score
      refresh runs, and is awaited, only when feedback was produced. */
  function CompleteSubmit(s: State, q: Question, reply: SubmitResponse, refresh: SessionResponse): (r: State)
    ensures !r.loading
    ensures reply.SubmitFail? ==> r == s.(error := SubmitFailed, loading := false)
    ensures reply.SubmitOk? ==> r.answeredQuestions == s.answeredQuestions + {q.id}
    ensures reply.SubmitOk? && reply.isCorrect ==> r.feedback == Some(Feedback(Success, CorrectMessage))
    ensures reply.SubmitOk? && !reply.isCorrect && reply.correctOption.Some? ==>
      r.feedback == Some(SubmitFeedback(q, false, reply.correctOption.value))
    ensures reply.SubmitOk? && !reply.isCorrect && reply.correctOption.None? ==>
      r == s.(answeredQuestions := s.answeredQuestions + {q.id}, error := SubmitFailed, loading := false)
    ensures GivesFeedback(reply) ==>
      && r.score == (if refresh.Session? then refresh.score else s.score)
      && r.error == (if refresh.Session? then s.error else SessionFailed)
      && r.(score := s.score, error := s.error, feedback := s.feedback,
            answeredQuestions := s.answeredQuestions, loading := s.loading) == s
    ensures r.question == s.question && r.quizCompleted == s.quizCompleted && r.token == s.token
  {
    match reply
    case SubmitFail => s.(error := SubmitFailed, loading := false)
    case SubmitOk(isCorrect, correctOption) =>
      var answered := s.(answeredQuestions := s.answeredQuestions + {q.id});
      if !isCorrect && correctOption.None? then
        answered.(error := SubmitFailed, loading := false)
      else
        var f := SubmitFeedback(q, isCorrect, correctOption.GetOr(""));
        ApplySession(answered.(feedback := Some(f)), refresh).(loading := false)
  }

  /** `submitAnswer` as one intent: a no-op while loading or without a question,
      otherwise the answer to the current question runs to completion. */
  function SubmitAnswer(s: State, reply: SubmitResponse, refresh: SessionResponse): (r: State)
    ensures s.loading || s.question.None? ==> r == s
    ensures !s.loading && s.question.Some? ==> !r.loading
    ensures !s.loading && s.question.Some? && reply.SubmitOk? ==>
      r.answeredQuestions == s.answeredQuestions + {s.question.value.id}
    ensures !s.loading && s.question.Some? && GivesFeedback(reply) ==>
      && r.feedback == Some(SubmitFeedback(s.question.value, reply.isCorrect, reply.correctOption.GetOr("")))
      && r.score == (if refresh.Session? then refresh.score else s.score)
      && r.error == (if refresh.Session? then s.error else SessionFailed)
    ensures !s.loading && s.question.Some? && !GivesFeedback(reply) ==>
      r.error == SubmitFailed && r.feedback == s.feedback && r.score == s.score
    ensures !s.loading && s.question.Some? && reply.SubmitFail? ==>
      r.answeredQuestions == s.answeredQuestions
    ensures r.answeredQuestions >= s.answeredQuestions
    ensures r.question == s.question && r.quizCompleted == s.quizCompleted && r.token == s.token
    ensures r.isLoginForm == s.isLoginForm && r.username == s.username && r.password == s.password
  {
    if s.loading || s.question.None? then s
    else CompleteSubmit(StartSubmit(s), s.question.value, reply, refresh)
  }

  /** Completion implies no active question, and every single step keeps it so: only
      the completion branch sets the flag, and it clears the question at the same time. */
  lemma StepsPreserveCompletionClearsQuestion(s: State, q: Question, isLogin: bool, auth: AuthResponse,
                                              fetch: QuestionResponse, submit: SubmitResponse,
                                              refresh: SessionResponse)
    requires CompletionClearsQuestion(s)
    ensures CompletionClearsQuestion(StartAuth(s))
    ensures CompletionClearsQuestion(CompleteAuth(s, isLogin, auth))
    ensures CompletionClearsQuestion(ApplySession(s, refresh))
    ensures CompletionClearsQuestion(StartFetch(s))
    ensures CompletionClearsQuestion(CompleteFetch(s, fetch))
    ensures CompletionClearsQuestion(StartSubmit(s))
    ensures CompletionClearsQuestion(CompleteSubmit(s, q, submit, refresh))
    ensures CompletionClearsQuestion(ToggleForm(s))
  {
  }

  /* ---------- toggleForm and the two inputs (lines 153-158, 189, 199) ---------- */

  /** Flips between login and sign-up and clears the credentials and the error. */
  function ToggleForm(s: State): (r: State)
    ensures r.isLoginForm == !s.isLoginForm
    ensures r.username == "" && r.password == "" && r.error == ""
    ensures r.token == s.token && r.question == s.question && r.loading == s.loading
    ensures r.(isLoginForm := s.isLoginForm, username := s.username, password := s.password, error := s.error) == s
  {
    s.(isLoginForm := !s.isLoginForm, username := "", password := "", error := "")
  }

  /** Toggling twice restores the mode and keeps only the clearing. */
  lemma ToggleTwice(s: State)
    ensures ToggleForm(ToggleForm(s)).isLoginForm == s.isLoginForm
    ensures ToggleForm(ToggleForm(s)) == s.(username := "", password := "", error := "")
  {
  }

  /** The username input's change handler (line 189): only the username changes. */
  function TypeUsername(s: State, value: string): (r: State)
    ensures r.username == value
    ensures r.(username := s.username) == s
  {
    s.(username := value)
  }

  /** The password input's change handler (line 199): only the password changes. */
  function TypePassword(s: State, value: string): (r: State)
    ensures r.password == value
    ensures r.(password := s.password) == s
  {
    s.(password := value)
  }
}
