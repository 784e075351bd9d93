# Classroom Q&A client: session and question-feed state in Dafny

This project models the client-side state logic of a classroom Q&A web
application. Instructors create sessions. Students join a session by its code
and post questions. Updates arrive over a realtime channel. Three React
components hold this state, and each one is modelled as a Dafny class whose
methods are the component's handlers:

- **StudentDashboard** (`student_dashboard.dfy`). The student's question feed for the joined
  session. The five realtime events (`newQuestion`, `questionUpdated`,
  `questionDeleted`, `sessionCleared`, `sessionEnded`) are applied by
  `Apply`, a pure function over a `Feed` value. The class `Dashboard` has one
  method per socket handler, and each is proved equal to `Apply`. The class
  also covers the tab-scoped stored session, the sign-out reset, the effect
  that runs on a session change, the snapshot load, and question-submit
  validation. The "asked" and "answered" columns are pure filters.
- **SessionManager** (`session_manager.dfy`). The instructor's list of sessions: load, create,
  select and deselect, and ending a session in two phases (request it, then
  cancel or confirm it).
- **StudentSessionManager** (`student_session_manager.dfy`). The join-by-code form: the chain of
  checks and calls in `handleLoadSession`, the leave action, and upper-casing
  of the typed text. `JoinByCode` and `LeaveSession` connect the form to the
  dashboard, because the page passes `handleSessionLoad` as `onSessionLoad`.

Three support files complete the project:

- `seqs.dfy` holds `Option`, `Result`, and JavaScript's `filter`/`map`, with lemmas
  for membership, order (subsequence) and partitions.
- `text.dfy` holds `trim`, `toUpperCase` and `includes`.
- `domain.dfy` holds the `Session` and `Question` records and the REST calls.

Nothing asynchronous is modelled. Each API call's outcome is a method
parameter (`Ok(value)` or `Err(message)`, where `message` stands for
`error.message`). Each method returns the REST calls it issued, in order, as a
`seq<ApiCall>`, so "no API call" is `calls == []`.

`selectedSessionId` belongs to the instructor page, not to `SessionManager`.
The component changes it only through `onSessionSelect`, so the model keeps it
as a field (`selected`) that the methods update where the source calls
`onSessionSelect`.

Where the code and the behaviour the application is meant to have differ, the model follows the code, except for the one handler corrected under Findings:

- A question snapshot that arrives after the session has changed ought to
  be discarded. `loadSessionQuestions` assigns the response
  unconditionally. `Dashboard.CompleteQuestionsLoad` does the same, and no
  property claims otherwise.
- The invariant "the feed holds only questions of the current session" is
  proved for the five realtime events (`Apply`, `ApplyAllBelongsToCurrent`).
  Loading a session does not keep it: `HandleSessionLoad` keeps the old list
  until the session-change effect or the snapshot replaces it.
- The `sessionEnded` handler that the rest of the model uses is the corrected one described
  under Findings. The handler as written is kept beside it as `OnSessionEndedAsWritten`.
- An end-session failure is meant to show a distinct, more detailed error.
  The code sets `"Failed to end session: " + message`, and so does the
  model.

## Model

| member | source | states |
|---|---|---|
| `StudentDashboard.Apply` | frontend/src/pages/StudentDashboard.jsx:70-107 | An event whose session is not the joined one (or with no session joined) leaves the feed unchanged. `newQuestion` adds one entry at the front and keeps the old list as the tail. `questionUpdated` keeps the length and order and replaces exactly the entries with the same id. `questionDeleted` keeps exactly the entries with another id, in order and each as many times as before, and removes nothing if no entry has that id. `sessionCleared` empties the list. `sessionEnded` empties the list, drops the session and sets the ended notice. Every event keeps the invariant that the feed holds only the joined session's questions |
| `StudentDashboard.DeleteKeepsOthers` | frontend/src/pages/StudentDashboard.jsx:86-91 | The filter of `questionDeleted` keeps the entries with another id in their order, each as often as before, drops every entry with the id, and returns the list unchanged when no entry has the id |
| `StudentDashboard.ApplyAllBelongsToCurrent` | frontend/src/pages/StudentDashboard.jsx:70-107 | For any sequence of events, a feed holding only the joined session's questions still does afterwards |
| `StudentDashboard.ApplyAllWithoutSession` | frontend/src/pages/StudentDashboard.jsx:72-102 | With no session joined, no sequence of events changes anything |
| `StudentDashboard.MyAsked` | frontend/src/pages/StudentDashboard.jsx:205-207 | The asked column keeps the feed's order and holds exactly the feed's questions by the user that are not answered (see `Partition` for how it relates to the answered column) |
| `StudentDashboard.MyAnswered` | frontend/src/pages/StudentDashboard.jsx:209-211 | The answered column keeps the feed's order and holds exactly the feed's questions by the user that are answered |
| `StudentDashboard.Partition` | frontend/src/pages/StudentDashboard.jsx:205-211 | The asked and answered columns are subsequences of the feed and share no question. Both hold only the user's questions. Every question the user wrote is in one of them. As multisets, they add up to the user's questions |
| `StudentDashboard.Dashboard.constructor` | frontend/src/pages/StudentDashboard.jsx:16-27 | The stored session is restored only for a signed-in user. The feed, error and draft start empty |
| `StudentDashboard.Dashboard.OnNewQuestion` | frontend/src/pages/StudentDashboard.jsx:70-75 | Equals `Apply` for `newQuestion`: prepends the question only if it is for the joined session. Nothing outside the feed changes |
| `StudentDashboard.Dashboard.OnQuestionUpdated` | frontend/src/pages/StudentDashboard.jsx:77-84 | Equals `Apply` for `questionUpdated`. The session, error, draft and stored slot are unchanged |
| `StudentDashboard.Dashboard.OnQuestionDeleted` | frontend/src/pages/StudentDashboard.jsx:86-91 | Equals `Apply` for `questionDeleted`. The session, error, draft and stored slot are unchanged |
| `StudentDashboard.Dashboard.OnSessionCleared` | frontend/src/pages/StudentDashboard.jsx:93-98 | Equals `Apply` for `sessionCleared`. The session, error, draft and stored slot are unchanged |
| `StudentDashboard.Dashboard.OnSessionEndedAsWritten` | frontend/src/pages/StudentDashboard.jsx:100-107 | The handler as written. It equals `Apply` for `sessionEnded`. The stored slot, draft and user are unchanged |
| `StudentDashboard.Dashboard.OnSessionEnded` | frontend/src/pages/StudentDashboard.jsx:100-107 | The corrected handler (see Findings). It equals `Apply` for `sessionEnded`, and for the joined session it also removes the stored slot. For another session it changes nothing |
| `StudentDashboard.Dashboard.OnSessionEndedSettled` | frontend/src/pages/StudentDashboard.jsx:31-53 | With the corrected handler, a `sessionEnded` for the joined session, followed by the effect its change of `currentSession` triggers, leaves no current session, an empty feed and an empty slot. For a signed-in user the notice stays and the draft is kept. After a sign-out the effect clears the notice and the draft. A `sessionEnded` for another session changes nothing. The user and the loading flag never change |
| `StudentDashboard.EndedSessionIsRestored` | frontend/src/pages/StudentDashboard.jsx:31-53 | With the handler as written, a signed-in student joins `s` and `s` then ends. Once the effect has run, `s` is current again, it is still stored, and the ended notice is shown |
| `StudentDashboard.Dashboard.HandleSessionLoad` | frontend/src/pages/StudentDashboard.jsx:139-151 | The current session becomes the argument and the error is cleared. For a signed-in user the stored slot becomes the argument: set for a session, removed for none. Otherwise the slot is untouched. The feed is untouched |
| `StudentDashboard.Dashboard.UserEffect` | frontend/src/pages/StudentDashboard.jsx:31-53 | The effect that reruns whenever the user or the current session changes. With no user it clears the feed, draft, session, error and stored slot. With a user it restores the stored session only when none is current, and changes nothing else |
| `StudentDashboard.Dashboard.OnUserChange` | frontend/src/pages/StudentDashboard.jsx:31-53 | Sign-out clears the feed, draft, session, error and stored slot. Sign-in restores the stored session only when none is current, and changes nothing else |
| `StudentDashboard.Dashboard.OnSessionChange` | frontend/src/pages/StudentDashboard.jsx:115-125 | With a session, it requests a snapshot of 50 questions for that session and joins its room only when connected. Without one, it empties the feed and issues no call |
| `StudentDashboard.Dashboard.CompleteQuestionsLoad` | frontend/src/pages/StudentDashboard.jsx:127-137 | A snapshot replaces the feed without any session check. A failure keeps the feed and sets "Failed to load session questions" |
| `StudentDashboard.Dashboard.EditDraft` | frontend/src/pages/StudentDashboard.jsx:275 | The draft becomes the typed text. Nothing else changes |
| `StudentDashboard.Dashboard.SubmitQuestion` | frontend/src/pages/StudentDashboard.jsx:153-184 | A blank draft gives "Please enter a question" with no call. Otherwise, with no session, it gives "Please load a session first" with no call. Otherwise it sends exactly one submit with the trimmed text, the session id and the course name. Success clears the draft and the error. Failure shows the message, or the default if the message is empty. The loading flag ends false after every attempt that got past validation. The feed is never touched |
| `Domain.MessageOr` | frontend/src/pages/StudentDashboard.jsx:180 | `error.message \|\| fallback`: a non-empty message is kept, an empty one gives the fallback, and a non-empty fallback makes the result non-empty |
| `SessionManager.WithoutSession` | frontend/src/components/SessionManager.jsx:121 | The result is a subsequence of the list. It holds exactly the sessions with another id, each as many times as before |
| `SessionManager.WithoutSessionIds` | frontend/src/components/SessionManager.jsx:121 | The ids left are the old ids minus the removed one |
| `SessionManager.WithoutUniqueSession` | frontend/src/components/SessionManager.jsx:121 | In a list with unique ids, ending a listed session removes exactly one entry. Ending an unlisted id changes nothing. The ids stay unique |
| `SessionManager.SessionList.constructor` | frontend/src/components/SessionManager.jsx:13-26 | The list is empty, nothing is pending, all flags are false, the error is empty, and the form is empty with today's date |
| `SessionManager.SessionList.LoadSessions` | frontend/src/components/SessionManager.jsx:32-56 | Requests at most 10 active sessions. On success the list becomes the server's list and the error is cleared. On failure the list is kept and the error is "Failed to load sessions". The selection is never changed. The loading flag ends false |
| `SessionManager.SessionList.EditForm` | frontend/src/components/SessionManager.jsx:189-217 | The form becomes the typed values. Nothing else changes |
| `SessionManager.SessionList.CreateSession` | frontend/src/components/SessionManager.jsx:58-94 | A blank course name gives "Course name is required" with no call, and the list, selection and form are unchanged. Otherwise it sends one create with the trimmed name and date, and the trimmed description only if that is not blank. Success prepends the session (length plus one, old list as tail), selects it and resets the form. Failure shows the message or "Failed to create session" and keeps the list and selection. The creating flag ends false after every attempt that got past validation |
| `SessionManager.SessionList.Select` | frontend/src/components/SessionManager.jsx:96-98 | Only the selection changes, to the given id |
| `SessionManager.SessionList.Deselect` | frontend/src/components/SessionManager.jsx:100-102 | Only the selection changes, to none |
| `SessionManager.SessionList.RequestEnd` | frontend/src/components/SessionManager.jsx:104-107 | Only the pending slot changes, to {id, name} |
| `SessionManager.SessionList.CancelEnd` | frontend/src/components/SessionManager.jsx:367 | Only the pending slot changes, to empty |
| `SessionManager.SessionList.ConfirmEnd` | frontend/src/components/SessionManager.jsx:109-141 | With nothing pending, it is a no-op with no call. Otherwise it sends one end call with the pending id, and the in-flight flag is true during the call and false after it. Success removes exactly the entries with that id (the rest keep their order), clears the selection if and only if it was that id, empties the slot and clears the error. Failure keeps the list, selection and slot and sets "Failed to end session: " + message. Unique ids stay unique |
| `StudentSessionManager.LoadErrorMessage` | frontend/src/components/StudentSessionManager.jsx:41-47 | A message that contains "404" at some position gives the not-found text. Any other message is shown as it is, or "Failed to load session" if it is empty. The result is never empty |
| `StudentSessionManager.NotFoundDiffersFromInactive` | frontend/src/components/StudentSessionManager.jsx:30-44 | The not-found text and the session-ended text differ |
| `StudentSessionManager.TrimKeepsUpperCase` | frontend/src/components/StudentSessionManager.jsx:28 | Trimming upper-cased text leaves it upper-cased, so the code sent is upper case |
| `StudentSessionManager.JoinForm.constructor` | frontend/src/components/StudentSessionManager.jsx:11-13 | The box, the error and the loading flag start empty or false |
| `StudentSessionManager.JoinForm.OnInput` | frontend/src/components/StudentSessionManager.jsx:154 | The box holds the upper-cased typed text, which is its own upper case. The form invariant (no lower-case letter) holds |
| `StudentSessionManager.JoinForm.LoadSession` | frontend/src/components/StudentSessionManager.jsx:15-51 | A blank code gives "Please enter a session ID" with no call and no callback. Otherwise it looks up the trimmed code first. An error shows `LoadErrorMessage` of its message. An inactive session shows the session-ended text with no join and no callback. An active session is joined with the same trimmed code. Join success calls the callback once with that session. Join failure shows `LoadErrorMessage` and makes no callback. The callback happens if and only if the lookup succeeded, the session is active and the join succeeded. The loading flag ends false after every attempt that got past validation |
| `StudentSessionManager.JoinForm.Leave` | frontend/src/components/StudentSessionManager.jsx:53-56 | The box is emptied. Nothing else in the form changes |
| `StudentSessionManager.JoinByCode` | frontend/src/pages/StudentDashboard.jsx:250-254 | With the dashboard's `handleSessionLoad` as the callback, the form's error and calls follow `LoadSession`: a blank code gives "Please enter a session ID" with no call; a lookup error, an inactive session and a join error each give their own message; the loading flag ends false after every attempt past validation. A successful join becomes the dashboard's current session, clears its error and (when signed in) is stored. Any failure leaves the dashboard's session, error and slot unchanged. The dashboard's feed, draft, user and loading flag are untouched |
| `StudentSessionManager.LeaveSession` | frontend/src/components/StudentSessionManager.jsx:53-56 | The box is emptied, and the form's error and loading flag are kept. The dashboard drops its session and clears its error. When signed in, the stored slot is removed, otherwise it is kept. The dashboard's feed, draft, user and loading flag are untouched. No call is made |
| `Text.TrimInfix` | frontend/src/components/SessionManager.jsx:61 | `trim` leaves the piece of the text that starts where the leading white space ends. Everything before it and after it is white space, and the piece neither starts nor ends with white space. The result is empty exactly when the text is all white space |
| `Text.ContainsIff` | frontend/src/components/StudentSessionManager.jsx:43 | `includes` is true exactly when the pattern occurs at some position |
| `Text.ToUpperIdempotent` | frontend/src/components/StudentSessionManager.jsx:154 | Upper-casing the box's text again leaves it unchanged |
| `Seqs.FilterMembership` | frontend/src/pages/StudentDashboard.jsx:89 | An element is in the filtered list exactly when it is in the list and passes the test |
| `Seqs.FilterIsSubsequence` | frontend/src/pages/StudentDashboard.jsx:89 | Filtering keeps the survivors in their original order |
| `Seqs.FilterCount` | frontend/src/pages/StudentDashboard.jsx:89 | An element that passes the test occurs in the filtered list as often as in the list. One that fails does not occur |
| `Seqs.FilterKeepsAll` | frontend/src/pages/StudentDashboard.jsx:89 | A filter that every element passes returns the list unchanged |
| `Seqs.FilterPartition` | frontend/src/pages/StudentDashboard.jsx:205-211 | Two exclusive tests that together make up a third split that test's filter between them |

## Findings

| source | as written | input that shows it | evidently intended | confidence | as-written member | corrected member |
|---|---|---|---|---|---|---|
| frontend/src/pages/StudentDashboard.jsx:100-107 | `sessionEnded` sets `currentSession` to null but keeps the `currentStudentSession` storage entry. The restore effect at lines 31-53 depends on `currentSession`, so it runs again, finds the entry, and makes the ended session current again | A signed-in student loads session S, then `sessionEnded{sessionId: S}` arrives | The student leaves S (no current session) and the ended notice stays in `error`, as the handler's comment and its notice say | high; not executed | `StudentDashboard.EndedSessionIsRestored` (built on `StudentDashboard.Dashboard.OnSessionEndedAsWritten`) | `StudentDashboard.Dashboard.OnSessionEnded`, proved in `StudentDashboard.Dashboard.OnSessionEndedSettled` |

## Left out

- Rendering, CSS, dialogs, icons, the create dialog's open flag, and the character counter.
- `formatDate` and `formatTime`, because they depend on `Date`, the locale and the current year.
- The internals of the REST client and the socket wrapper. Each call's result is a parameter, and each call is recorded as an `ApiCall` value.
- The socket connect/disconnect lifecycle, the automatic room re-join on `connect`, and React's scheduling of effects. These are asynchronous and framework-driven. The bodies of the effects are separate methods (`UserEffect`, called by `OnUserChange`, and `OnSessionChange`) that a caller runs in the order React would.
- Discarding a late question snapshot. The code does not do it, so it is not claimed (see above).
- Storage and JSON details. The tab-scoped storage entry is an optional `Session` slot, so the failed-parse branch of the restore effect (`StudentDashboard.jsx:47-50`) is not modelled.
- `handleUpdateQuestion` and `handleDeleteQuestion`. They only forward to the API and rethrow, and they change no state here.
- `console` logging, including the "no longer active" warning in `loadSessions`, which has no effect on state.
- The textarea's 500-character `maxLength`, which the browser enforces.
- `Text.ToUpper`: models `toUpperCase` for ASCII letters only. Other Unicode case mappings are not modelled, including those that change length, such as ß to SS.
- `StudentSessionManager.JoinForm.LoadSession`: the thrown value is modelled as always carrying a string message. The source's `error.message.includes` would itself throw on a missing message, and that case is not modelled.
- `SessionManager.SessionList.ConfirmEnd`: the thrown value is modelled as always carrying a string message. For a value without one, `SessionManager.jsx:137` shows "Failed to end session: undefined", and the model has no such case. An empty message gives "Failed to end session: ". The `||` fallbacks at `StudentDashboard.jsx:180` and `SessionManager.jsx:90` treat a missing message like an empty one, so `MessageOr` covers those two sites.
- The page shows the dashboard's `error` only while a session is current (`StudentDashboard.jsx:257-268`). After the corrected `sessionEnded` handler the notice is kept in `error` but not displayed. Showing it would also need a rendering change, and rendering is not modelled.
- `StudentDashboard.MyAsked` and `StudentDashboard.MyAnswered`: they take a signed-in user. The source computes them on every render (`StudentDashboard.jsx:205-211`) and reads `user.id` for each question. A render with no user and a non-empty feed would throw before the sign-out reset ran. The model assumes the page is never rendered in that state, because whether it is depends on routing outside these components.
- `StudentDashboard.Dashboard.OnUserChange`: sign-out is one atomic step, the new user followed by the reset effect. The render in between, which could throw as described for `MyAsked`, is not modelled. If it did throw, the reset, including the removal of the storage entry at `StudentDashboard.jsx:39`, would not commit.
- Record fields that only rendering reads (`createdAt`, `questionCount`, `createdBy`, question timestamps).
