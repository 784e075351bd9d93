/** The entities the three components exchange with the server, and the REST
    calls they issue. Only the fields that the components' logic reads are kept. */
module Domain {
  import opened Seqs

  type SessionId = string
  type QuestionId = string
  type UserId = string

  /** A class meeting students can join by its code `sessionId`. */
  datatype Session = Session(
    sessionId: SessionId,
    courseName: string,
    description: Option<string>,
    sessionDate: string,
    isActive: bool)

  /** A question posted in a session; `id` is the server's `_id` and
      `authorId` is `author._id`. */
  datatype Question = Question(
    id: QuestionId,
    sessionId: SessionId,
    authorId: UserId,
    text: string,
    status: string)

  /** The status value that the student dashboard treats as answered. */
  const AnsweredStatus: string := "answered"

  /** One REST call, with the arguments the component passes. `description` is
      `None` where the source passes `undefined`. */
  datatype ApiCall =
    | GetMySessions(limit: nat, activeOnly: bool)
    | CreateSession(courseName: string, description: Option<string>, sessionDate: string)
    | EndSession(sessionId: SessionId)
    | GetSession(sessionId: SessionId)
    | JoinSession(sessionId: SessionId)
    | GetQuestions(sessionId: SessionId, limit: nat)
    | SubmitQuestion(text: string, sessionId: SessionId, course: string)

  /** `error.message || fallback`: an empty message falls back to the default. */
  function MessageOr(message: string, fallback: string): (r: string)
    ensures fallback != [] ==> r != []
    ensures message != [] ==> r == message
    ensures message == [] ==> r == fallback
  {
    if message == [] then fallback else message
  }
}
