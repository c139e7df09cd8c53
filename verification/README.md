# Quiz session controller

A Dafny model of the quiz client's session controller, the `Quiz` component of
`src/components/Quiz.jsx`. A user signs in or registers, fetches trivia questions
one at a time, answers them, and sees feedback and a running score. The component's
eleven state cells form one immutable `State` record. With the network abstracted
away, every handler is a pure function of that record and of the service's reply.

- `state.dfy` (`QuizState`) holds the state record and the reply events. It also holds
  the user-visible messages and the invariant `Settled`: no request is in flight, and a
  completed quiz shows neither a question nor feedback. `QuizState.Truthy` is the
  JavaScript truthiness of the token that the view tests (lines 162, 169 and 177): a
  token that is present and non-empty.
- `text.dfy` (`Text`) holds the text derived from a question: the option field a
  label names once lower-cased, and the correct/incorrect feedback message.
  `Text.IncorrectMessage` is the template of line 125.
- `session.dfy` (`Session`) holds the handlers. Each async handler is a start step and
  a complete step:
  - The start step is the guard, then raising the loading flag. `fetchQuestion` also
    clears the feedback here.
  - The complete step consumes an abstract reply and ends by lowering the loading flag.
    `Session.SignalsCompletion` is the completion test of line 78: a 404 whose message
    is exactly 'You have completed all available questions!'.
  - The composite intent (`Authenticate`, `FetchQuestion`, `SubmitAnswer`) runs the two
    steps back to back.
  - The token-change effect runs as a follow-on score refresh after sign-in.
- `view.dfy` (`View`) is the render projection: which panels show for a state.
- `trace.dfy` (`Trace`) covers sequences of user intents, each enabled only when its
  control is rendered and not disabled. It proves the properties of every state the user
  can reach.

Network replies, the refresh reply included, are parameters: the model never
performs I/O.

## Model

| member | source | states |
|---|---|---|
| Text.Lower | src/components/Quiz.jsx:122 | the lower-cased label has the same length, and each character is its ASCII lower-case form |
| Text.OptionText | src/components/Quiz.jsx:122 | labels A/a..D/d read the matching option field of the question; any other label reads as `undefined` |
| Text.SubmitFeedback | src/components/Quiz.jsx:116-126 | feedback is `success` exactly when the answer was correct; only a correct answer reads "Correct!" |
| Text.IncorrectFeedbackQuotesOption | src/components/Quiz.jsx:121-126 | the incorrect-answer message quotes the server's label (any of A/a..D/d) and that option's text from the question active at submission; any other label quotes `undefined` |
| Session.ApplySession | src/components/Quiz.jsx:139-151 | any reply body, `null` included, becomes the score, unchecked; a failure sets 'Failed to fetch session details.'; nothing else changes |
| Session.ApplySessionIdempotent | src/components/Quiz.jsx:147 | repeating a refresh with the same reply changes nothing further |
| Session.StartAuth | src/components/Quiz.jsx:16-18 | the auth handlers have no guard: they only raise the loading flag |
| Session.CompleteAuth | src/components/Quiz.jsx:26-61 | success stores the returned token and clears the error; failure keeps the token and sets the login or registration message; loading ends false |
| Session.TokenEffect | src/components/Quiz.jsx:160-165 | the score is refreshed exactly when the token changed and the new one is truthy |
| Session.Authenticate | src/components/Quiz.jsx:16-62 | sign-in stores the token verbatim; when it changes the token to a truthy one the score becomes the refresh's body, and the error is 'Failed to fetch session details.' exactly when that refresh failed, otherwise empty; other sign-ins keep the score; failure keeps token and score and sets the mode's message; question, feedback, completion and answered set are untouched |
| Session.StartFetch | src/components/Quiz.jsx:64-69 | while loading it is a no-op; otherwise loading is raised and feedback cleared, nothing else changes |
| Session.CompleteFetch | src/components/Quiz.jsx:76-91 | the exact completion 404 sets completed and clears the question; success stores the body (possibly `null`) as the question and clears completed; anything else sets 'Failed to fetch question.' and keeps both |
| Session.FetchQuestion | src/components/Quiz.jsx:64-92 | no-op while loading; otherwise, whatever the reply, feedback ends null and loading false, with the three outcomes above: the error changes only on failure, and nothing but question, completion, error, feedback and loading changes |
| Session.StartSubmit | src/components/Quiz.jsx:94-98 | no-op while loading or with no question; otherwise only loading is raised |
| Session.CompleteSubmit | src/components/Quiz.jsx:110-136 | any reply body adds exactly the question's id to the answered set; feedback follows correctness and is followed by the awaited score refresh, which sets the score or the refresh error and nothing else; a missing correct option gives 'Failed to submit answer.' with no refresh; question and completion are untouched |
| Session.SubmitAnswer | src/components/Quiz.jsx:94-137 | guards are no-ops; after a reply body the answered set is the old one plus the current question's id; the feedback is built from the question active at submission and the score is refreshed; without feedback the error is 'Failed to submit answer.' and feedback and score are kept; the question, token, form mode and credentials are kept |
| Session.StepsPreserveCompletionClearsQuestion | src/components/Quiz.jsx:79-83 | every start and complete step keeps "completed implies no question": only the completion branch sets the flag, clearing the question with it |
| Session.ToggleForm | src/components/Quiz.jsx:153-158 | flips login/sign-up, clears username, password and error, and changes nothing else, the token included |
| Session.TypeUsername | src/components/Quiz.jsx:189 | typing sets the username and nothing else |
| Session.TypePassword | src/components/Quiz.jsx:199 | typing sets the password and nothing else |
| Session.ToggleTwice | src/components/Quiz.jsx:153-158 | toggling twice restores the mode |
| View.Render | src/components/Quiz.jsx:167-295 | without a token only the auth form; the status card iff signed in and not completed, the running score iff that card shows and a score is stored; the question card iff question, no feedback and not completed; the button iff none of the three; button/card and card/feedback never together; the final score is shown exactly with the completion panel |
| View.ExactlyOneMainPanel | src/components/Quiz.jsx:226-295 | in a settled signed-in state exactly one of prompt, feedback, completion panel and question card shows |
| View.CompletedWithFeedbackShowsTwo | src/components/Quiz.jsx:251-275 | the render conditions alone would show the feedback and the completion panel together |
| View.FinalScore | src/components/Quiz.jsx:272 | the final score is 0/0 without a score, and each absent field reads 0 |
| Trace.Enabled | src/components/Quiz.jsx:190-287 | nothing is enabled while loading; the auth controls exactly without a truthy token; a fetch exactly with a token and either feedback or no question and no completion; an answer exactly on a shown question card with a label A..D |
| Trace.Step | src/components/Quiz.jsx:64-158 | every intent keeps a settled state settled and keeps completion implying no question; the answered set never shrinks |
| Trace.RunPreservesSettled | src/components/Quiz.jsx:78-83 | any run of intents from a settled state ends settled |
| Trace.ReachableStatesSettled | src/components/Quiz.jsx:4-14 | every state reachable from mount is settled, so completed implies no active question |
| Trace.AnsweredOnlyGrows | src/components/Quiz.jsx:113 | along any run the answered set only grows |
| Trace.ProtectedRequestsNeedToken | src/components/Quiz.jsx:177 | the question and answer controls exist only with a truthy token |
| Trace.TokenStableOnceSignedIn | src/components/Quiz.jsx:177-223 | once signed in, no enabled intent changes the token |
| Trace.CompletedIsTerminal | src/components/Quiz.jsx:226-275 | a settled, signed-in, completed state enables no intent |
| Trace.AnsweredSetNeverRead | src/components/Quiz.jsx:95 | the answered set changes neither which intents are enabled, nor their effect on the rest of the state, nor the rendering |
| Trace.CompletionShowsLastScore | src/components/Quiz.jsx:78-83 | the completion reply leaves the completion panel alone on screen, with the last stored score or 0/0 |
| Trace.FailedNextQuestionReoffersAnswered | src/components/Quiz.jsx:84-88 | a failed "Next Question" clears the feedback but keeps the answered question, whose card and buttons come back |
| Trace.ReanswerScenario | src/components/Quiz.jsx:78-126 | from mount: sign-in stores 0/0 and shows the running score, the incorrect feedback quotes option B's text, and after a failed fetch the answered question is offered again |

## Behaviour of the code worth knowing

- A failed authentication keeps whatever token was there.
- A successful authentication stores `access` as returned. It may be absent or empty,
  and then the view stays on the auth form.
- Neither auth handler checks the loading flag; only the auth button is disabled.
  `fetchQuestion` guards only on loading; the view hides its buttons in other states.
- `fetchQuestion` clears feedback before the request, so feedback is gone on every
  outcome, errors included.
- A 2xx question reply whose body is `null` clears the question and the completion flag.
- The submit handler never checks the reply's status. Any JSON body records the question
  as answered. If the answer is incorrect and the body names no correct option, the
  handler throws after recording it: the error is 'Failed to submit answer.', with no
  feedback and no score refresh. So a submission triggers a score refresh only when
  feedback is produced.
- The score refresh stores the body whatever the status; a `null` body hides the running
  score and makes the final score 0/0.
- Feedback waits for "Next Question"; nothing auto-advances.

## Left out

- HTTP: URLs, headers, JSON encoding and parsing are not modelled. Each request is
  reduced to an abstract reply event.
- Request bodies are not modelled: the credentials, question id and chosen option sent
  to the service. The chosen option affects the state only through the service's reply.
- React mechanics are not modelled: `useState` batching, stale closures and effect
  scheduling. The token effect is a follow-on refresh in `Session.Authenticate`.
- Concurrency is not modelled. Every intent is an atomic start/complete pair, so the
  refresh never races with another request, and two overlapping auth requests (possible
  in the code, which has no auth guard) are not represented.
- Text.Lower: only ASCII letters are lower-cased, not full Unicode `toLowerCase`. For the
  lookup this is exact: no other character lower-cases to `a`..`d`.
- A `null` body on an auth or submit reply is not a separate event: the handler throws
  on it, and it is modelled by the events with the same effect (`AuthFail`, and
  `SubmitOk(false, None)`).
- Text.OptionText: the question is assumed to carry exactly the fields `id`,
  `question_text` and `option_a`..`option_d`. A key such as `option_e` on an extended
  body reads as `undefined` here.
- Session.ApplySession: a score body is `null` or an object reduced to its two
  counters, each possibly absent. Other JSON values (numbers, strings) are not modelled.
- View.Render: the running-score line (line 242) prints the counters verbatim. Only
  its visibility is modelled, not its text.
- JSX markup, CSS classes and button captions are not modelled, beyond the form title
  and the boolean panel choice.
- `src/App.jsx` is router wiring only.
