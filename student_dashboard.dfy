/** The student dashboard: the question feed of the joined session, kept up to
    date by five realtime events, the session pointer persisted for the tab,
    and the question form. */
module StudentDashboard {
  import opened Seqs
  import opened Text
  import opened Domain

  /** Shown when the joined session is ended by its instructor. */
  const SessionEndedNotice: string :=
    "The session has ended. Please join a new session to continue asking questions."
  const EnterQuestionMessage: string := "Please enter a question"
  const LoadSessionFirstMessage: string := "Please load a session first"
  const SubmitFailedMessage: string := "Failed to submit question"
  const LoadQuestionsFailedMessage: string := "Failed to load session questions"
  /** Page size of the question snapshot. */
  const QuestionPageSize: nat := 50

  /** The realtime events the dashboard listens to, with their payloads. */
  datatype Event =
    | NewQuestion(question: Question)
    | QuestionUpdated(question: Question)
    | QuestionDeleted(sessionId: SessionId, questionId: QuestionId)
    | SessionCleared(sessionId: SessionId)
    | SessionEnded(sessionId: SessionId)

  /** The part of the dashboard's state that the events act on. */
  datatype Feed = Feed(questions: seq<Question>, current: Option<Session>, error: string)

  /** The session an event is about. */
  function EventSession(e: Event): SessionId {
    match e
    case NewQuestion(q) => q.sessionId
    case QuestionUpdated(q) => q.sessionId
    case QuestionDeleted(sid, _) => sid
    case SessionCleared(sid) => sid
    case SessionEnded(sid) => sid
  }

  /** Every handler first checks that a session is joined and that the event is
      about it. */
  predicate Targets(f: Feed, e: Event) {
    f.current.Some? && EventSession(e) == f.current.value.sessionId
  }

  /** The feed holds only questions of the joined session (and none at all when
      no session is joined). */
  predicate BelongsToCurrent(f: Feed) {
    forall i :: 0 <= i < |f.questions| ==>
      f.current.Some? && f.questions[i].sessionId == f.current.value.sessionId
  }

  /** The replacement applied by `questionUpdated`: the entry with the same id
      becomes the new version, every other entry stays. */
  function ReplaceWith(updated: Question): Question -> Question {
    (q: Question) => if q.id == updated.id then updated else q
  }

  /** The test applied by `questionDeleted`: keep what has a different id. */
  function KeepOthers(questionId: QuestionId): Question -> bool {
    (q: Question) => q.id != questionId
  }

  /** What `questionDeleted` keeps: the entries with another id, in order and
      each as often as before, and everything when no entry has the id. */
  lemma DeleteKeepsOthers(questions: seq<Question>, questionId: QuestionId)
    ensures var r := Filter(KeepOthers(questionId), questions);
      IsSubsequence(r, questions) &&
      (forall q :: q in r <==> q in questions && q.id != questionId) &&
      (forall q :: multiset(r)[q] == if q.id != questionId then multiset(questions)[q] else 0) &&
      ((forall i :: 0 <= i < |questions| ==> questions[i].id != questionId) ==> r == questions)
  {
    FilterIsSubsequence(KeepOthers(questionId), questions);
    FilterMembership(KeepOthers(questionId), questions);
    FilterCount(KeepOthers(questionId), questions);
    FilterKeepsAll(KeepOthers(questionId), questions);
  }

  /** The effect of one realtime event on the feed. */
  function Apply(f: Feed, e: Event): (r: Feed)
    ensures !Targets(f, e) ==> r == f
    ensures Targets(f, e) && e.NewQuestion? ==>
      |r.questions| == |f.questions| + 1 && r.questions[0] == e.question &&
      r.questions[1..] == f.questions && r.current == f.current && r.error == f.error
    ensures Targets(f, e) && e.QuestionUpdated? ==>
      |r.questions| == |f.questions| && r.current == f.current && r.error == f.error &&
      forall i :: 0 <= i < |f.questions| ==>
        r.questions[i] == (if f.questions[i].id == e.question.id then e.question else f.questions[i])
    ensures Targets(f, e) && e.QuestionDeleted? ==>
      r.current == f.current && r.error == f.error &&
      IsSubsequence(r.questions, f.questions) &&
      (forall q :: q in r.questions <==> q in f.questions && q.id != e.questionId) &&
      (forall q :: multiset(r.questions)[q] ==
        if q.id != e.questionId then multiset(f.questions)[q] else 0) &&
      ((forall i :: 0 <= i < |f.questions| ==> f.questions[i].id != e.questionId) ==>
        r.questions == f.questions)
    ensures Targets(f, e) && e.SessionCleared? ==>
      r.questions == [] && r.current == f.current && r.error == f.error
    ensures Targets(f, e) && e.SessionEnded? ==>
      r.questions == [] && r.current == None && r.error == SessionEndedNotice
    ensures BelongsToCurrent(f) ==> BelongsToCurrent(r)
  {
    if !Targets(f, e) then f
    else match e
      case NewQuestion(q) => f.(questions := [q] + f.questions)
      case QuestionUpdated(q) => f.(questions := Map(ReplaceWith(q), f.questions))
      case QuestionDeleted(_, qid) =>
        DeleteKeepsOthers(f.questions, qid);
        f.(questions := Filter(KeepOthers(qid), f.questions))
      case SessionCleared(_) => f.(questions := [])
      case SessionEnded(_) => Feed([], None, SessionEndedNotice)
  }

  /** The events applied in order. */
  function ApplyAll(f: Feed, events: seq<Event>): Feed
    decreases |events|
  {
    if events == [] then f else ApplyAll(Apply(f, events[0]), events[1..])
  }

  /** However many events arrive, a feed that held only the joined session's
      questions still does: events about other sessions never get in. */
  lemma {:induction false} ApplyAllBelongsToCurrent(f: Feed, events: seq<Event>)
    requires BelongsToCurrent(f)
    ensures BelongsToCurrent(ApplyAll(f, events))
    decreases |events|
  {
    if events != [] {
      ApplyAllBelongsToCurrent(Apply(f, events[0]), events[1..]);
    }
  }

  /** Events never join a session: if none is joined before, none is after,
      and the feed does not change. */
  lemma {:induction false} ApplyAllWithoutSession(f: Feed, events: seq<Event>)
    requires f.current.None?
    ensures ApplyAll(f, events) == f
    decreases |events|
  {
    if events != [] {
      ApplyAllWithoutSession(Apply(f, events[0]), events[1..]);
    }
  }

  /** The two columns of the dashboard: the current user's questions that are
      not answered yet, and those that are. */
  predicate IsAskedBy(q: Question, user: UserId) {
    q.authorId == user && q.status != AnsweredStatus
  }

  predicate IsAnsweredBy(q: Question, user: UserId) {
    q.authorId == user && q.status == AnsweredStatus
  }

  function AskedTest(user: UserId): Question -> bool { (q: Question) => IsAskedBy(q, user) }
  function AnsweredTest(user: UserId): Question -> bool { (q: Question) => IsAnsweredBy(q, user) }
  function AuthoredTest(user: UserId): Question -> bool { (q: Question) => q.authorId == user }

  /** `myAskedQuestions`: the user's unanswered questions, in feed order. */
  function MyAsked(questions: seq<Question>, user: UserId): (r: seq<Question>)
    ensures IsSubsequence(r, questions)
    ensures forall q :: q in r <==> q in questions && IsAskedBy(q, user)
  {
    FilterIsSubsequence(AskedTest(user), questions);
    FilterMembership(AskedTest(user), questions);
    Filter(AskedTest(user), questions)
  }

  /** `myAnsweredQuestions`: the user's answered questions, in feed order. */
  function MyAnswered(questions: seq<Question>, user: UserId): (r: seq<Question>)
    ensures IsSubsequence(r, questions)
    ensures forall q :: q in r <==> q in questions && IsAnsweredBy(q, user)
  {
    FilterIsSubsequence(AnsweredTest(user), questions);
    FilterMembership(AnsweredTest(user), questions);
    Filter(AnsweredTest(user), questions)
  }

  /** The two columns are disjoint, keep the feed's order, hold only the user's
      own questions, and between them hold every question the user authored,
      each exactly as often as it occurs in the feed. */
  lemma {:induction false} Partition(questions: seq<Question>, user: UserId)
    ensures IsSubsequence(MyAsked(questions, user), questions)
    ensures IsSubsequence(MyAnswered(questions, user), questions)
    ensures forall q :: q in MyAsked(questions, user) ==> q.authorId == user && q !in MyAnswered(questions, user)
    ensures forall q :: q in MyAnswered(questions, user) ==> q.authorId == user
    ensures forall q :: q in questions && q.authorId == user ==>
      q in MyAsked(questions, user) || q in MyAnswered(questions, user)
    ensures multiset(MyAsked(questions, user)) + multiset(MyAnswered(questions, user)) ==
      multiset(Filter(AuthoredTest(user), questions))
  {
    FilterIsSubsequence(AskedTest(user), questions);
    FilterIsSubsequence(AnsweredTest(user), questions);
    FilterMembership(AskedTest(user), questions);
    FilterMembership(AnsweredTest(user), questions);
    FilterPartition(AuthoredTest(user), AskedTest(user), AnsweredTest(user), questions);
  }

  /** The dashboard component's state. `stored` is the tab-scoped storage slot
      `currentStudentSession`; `draft` is the question being typed. */
  class Dashboard {
    var user: Option<UserId>
    var questions: seq<Question>
    var current: Option<Session>
    var error: string
    var draft: string
    var isLoading: bool
    var stored: Option<Session>

    /** The fields the realtime events act on, as a `Feed` value. */
    function AsFeed(): Feed
      reads this
    {
      Feed(questions, current, error)
    }

    /** Mounting: the stored session is restored only for a signed-in user. */
    constructor (user: Option<UserId>, stored: Option<Session>)
      ensures this.user == user && this.stored == stored
      ensures current == (if user.Some? then stored else None)
      ensures questions == [] && error == [] && draft == [] && !isLoading
    {
      this.user := user;
      this.stored := stored;
      current := if user.Some? then stored else None;
      questions := [];
      error := [];
      draft := [];
      isLoading := false;
    }

    /** Handler of `newQuestion`: prepend the question if it is for the joined
        session. */
    method OnNewQuestion(question: Question)
      modifies this
      ensures AsFeed() == Apply(old(AsFeed()), NewQuestion(question))
      ensures questions == (if Targets(old(AsFeed()), NewQuestion(question))
                            then [question] + old(questions) else old(questions))
      ensures current == old(current) && error == old(error)
      ensures user == old(user) && draft == old(draft) && isLoading == old(isLoading) && stored == old(stored)
    {
      if current.Some? && question.sessionId == current.value.sessionId {
        questions := [question] + questions;
      }
    }

    /** Handler of `questionUpdated`: replace the entries with the same id. */
    method OnQuestionUpdated(question: Question)
      modifies this
      ensures AsFeed() == Apply(old(AsFeed()), QuestionUpdated(question))
      ensures current == old(current) && error == old(error)
      ensures user == old(user) && draft == old(draft) && isLoading == old(isLoading) && stored == old(stored)
    {
      if current.Some? && question.sessionId == current.value.sessionId {
        questions := Map(ReplaceWith(question), questions);
      }
    }

    /** Handler of `questionDeleted`: drop the entries with the deleted id. */
    method OnQuestionDeleted(sessionId: SessionId, questionId: QuestionId)
      modifies this
      ensures AsFeed() == Apply(old(AsFeed()), QuestionDeleted(sessionId, questionId))
      ensures current == old(current) && error == old(error)
      ensures user == old(user) && draft == old(draft) && isLoading == old(isLoading) && stored == old(stored)
    {
      if current.Some? && sessionId == current.value.sessionId {
        questions := Filter(KeepOthers(questionId), questions);
      }
    }

    /** Handler of `sessionCleared`: empty the feed. */
    method OnSessionCleared(sessionId: SessionId)
      modifies this
      ensures AsFeed() == Apply(old(AsFeed()), SessionCleared(sessionId))
      ensures current == old(current) && error == old(error)
      ensures user == old(user) && draft == old(draft) && isLoading == old(isLoading) && stored == old(stored)
    {
      if current.Some? && sessionId == current.value.sessionId {
        questions := [];
      }
    }

    /** Handler of `sessionEnded` as the source writes it: show the notice,
        leave the session and empty the feed, but keep the stored session.
        See `EndedSessionIsRestored` for what the restore effect then does. */
    method OnSessionEndedAsWritten(sessionId: SessionId)
      modifies this
      ensures AsFeed() == Apply(old(AsFeed()), SessionEnded(sessionId))
      ensures user == old(user) && draft == old(draft) && isLoading == old(isLoading) && stored == old(stored)
    {
      if current.Some? && sessionId == current.value.sessionId {
        error := SessionEndedNotice;
        current := None;
        questions := [];
      }
    }

    /** Handler of `sessionEnded`, corrected: besides showing the notice,
        leaving the session and emptying the feed, it removes the stored
        session, so that the restore effect cannot bring the ended session
        back. */
    method OnSessionEnded(sessionId: SessionId)
      modifies this
      ensures AsFeed() == Apply(old(AsFeed()), SessionEnded(sessionId))
      ensures stored == (if Targets(old(AsFeed()), SessionEnded(sessionId)) then None else old(stored))
      ensures user == old(user) && draft == old(draft) && isLoading == old(isLoading)
    {
      if current.Some? && sessionId == current.value.sessionId {
        error := SessionEndedNotice;
        current := None;
        questions := [];
        stored := None;
      }
    }

    /** A `sessionEnded` followed by the effect that its change of
        `currentSession` triggers (the effect re-runs only when the event was
        for the joined session, because only then does `currentSession`
        change): the session stays left, the notice stays up for a signed-in
        user and nothing is left in storage to restore. An event for another
        session changes nothing. */
    method OnSessionEndedSettled(sessionId: SessionId)
      modifies this
      ensures Targets(old(AsFeed()), SessionEnded(sessionId)) ==>
        current == None && questions == [] && stored == None &&
        error == (if old(user).Some? then SessionEndedNotice else []) &&
        draft == (if old(user).Some? then old(draft) else [])
      ensures !Targets(old(AsFeed()), SessionEnded(sessionId)) ==>
        current == old(current) && questions == old(questions) && stored == old(stored) &&
        error == old(error) && draft == old(draft)
      ensures user == old(user) && isLoading == old(isLoading)
    {
      var ended := current.Some? && sessionId == current.value.sessionId;
      OnSessionEnded(sessionId);
      if ended {
        UserEffect();
      }
    }

    /** `handleSessionLoad`, the callback of the join form: adopt the session
        (or none), clear the error, and for a signed-in user write the slot
        (set for a session, removed for none). */
    method HandleSessionLoad(session: Option<Session>)
      modifies this
      ensures current == session && error == []
      ensures stored == (if old(user).Some? then session else old(stored))
      ensures user == old(user) && questions == old(questions) && draft == old(draft) && isLoading == old(isLoading)
    {
      current := session;
      error := [];
      if user.Some? {
        stored := session;
      }
    }

    /** The effect that runs whenever the signed-in user or the current
        session changes: for no user, all state and the slot are cleared; for
        a user, a stored session is restored when none is current. */
    method UserEffect()
      modifies this
      ensures user == old(user) && isLoading == old(isLoading)
      ensures user.None? ==>
        questions == [] && draft == [] && current == None && error == [] && stored == None
      ensures user.Some? ==>
        questions == old(questions) && draft == old(draft) && error == old(error) &&
        stored == old(stored) &&
        current == (if old(stored).Some? && old(current).None? then old(stored) else old(current))
    {
      if user.None? {
        questions := [];
        draft := [];
        current := None;
        error := [];
        stored := None;
      } else if stored.Some? && current.None? {
        current := stored;
      }
    }

    /** Signing in or out, followed by the effect. */
    method OnUserChange(newUser: Option<UserId>)
      modifies this
      ensures user == newUser && isLoading == old(isLoading)
      ensures newUser.None? ==>
        questions == [] && draft == [] && current == None && error == [] && stored == None
      ensures newUser.Some? ==>
        questions == old(questions) && draft == old(draft) && error == old(error) &&
        stored == old(stored) &&
        current == (if old(stored).Some? && old(current).None? then old(stored) else old(current))
    {
      user := newUser;
      UserEffect();
    }

    /** The effect that runs when the current session changes: with a session,
        request its question snapshot and (when connected) join its room; with
        none, empty the feed. */
    method OnSessionChange(isConnected: bool) returns (calls: seq<ApiCall>, joinRoom: Option<SessionId>)
      modifies this
      ensures current.Some? ==>
        calls == [GetQuestions(current.value.sessionId, QuestionPageSize)] &&
        joinRoom == (if isConnected then Some(current.value.sessionId) else None) &&
        questions == old(questions)
      ensures current.None? ==> calls == [] && joinRoom == None && questions == []
      ensures current == old(current) && error == old(error)
      ensures user == old(user) && draft == old(draft) && isLoading == old(isLoading) && stored == old(stored)
    {
      calls := [];
      joinRoom := None;
      if current.Some? {
        calls := [GetQuestions(current.value.sessionId, QuestionPageSize)];
        if isConnected {
          joinRoom := Some(current.value.sessionId);
        }
      } else {
        questions := [];
      }
    }

    /** Completion of `loadSessionQuestions`: the snapshot replaces the feed
        whatever session is current by then; a failure only sets the error. */
    method CompleteQuestionsLoad(response: Result<seq<Question>>)
      modifies this
      ensures response.Ok? ==> questions == response.value && error == old(error)
      ensures response.Err? ==> questions == old(questions) && error == LoadQuestionsFailedMessage
      ensures current == old(current)
      ensures user == old(user) && draft == old(draft) && isLoading == old(isLoading) && stored == old(stored)
    {
      match response {
        case Ok(snapshot) => questions := snapshot;
        case Err(_) => error := LoadQuestionsFailedMessage;
      }
    }

    /** Typing in the question box. */
    method EditDraft(text: string)
      modifies this
      ensures draft == text
      ensures user == old(user) && questions == old(questions) && current == old(current)
      ensures error == old(error) && isLoading == old(isLoading) && stored == old(stored)
    {
      draft := text;
    }

    /** `handleSubmitQuestion`: validate the text, then the session, then send
        the trimmed text; `outcome` is the result of the submit call. The feed
        itself is left to the `newQuestion` echo. */
    method SubmitQuestion(outcome: Result<()>) returns (calls: seq<ApiCall>)
      modifies this
      ensures IsBlank(old(draft)) ==>
        calls == [] && error == EnterQuestionMessage && draft == old(draft) && isLoading == old(isLoading)
      ensures !IsBlank(old(draft)) && current.None? ==>
        calls == [] && error == LoadSessionFirstMessage && draft == old(draft) && isLoading == old(isLoading)
      ensures !IsBlank(old(draft)) && current.Some? ==>
        calls == [Domain.SubmitQuestion(Trim(old(draft)), current.value.sessionId, current.value.courseName)] &&
        !isLoading &&
        (outcome.Ok? ==> draft == [] && error == []) &&
        (outcome.Err? ==> draft == old(draft) && error == MessageOr(outcome.message, SubmitFailedMessage))
      ensures questions == old(questions) && current == old(current)
      ensures user == old(user) && stored == old(stored)
    {
      if IsBlank(draft) {
        error := EnterQuestionMessage;
        return [];
      }
      if current.None? {
        error := LoadSessionFirstMessage;
        return [];
      }
      isLoading := true;
      error := [];
      calls := [Domain.SubmitQuestion(Trim(draft), current.value.sessionId, current.value.courseName)];
      if outcome.Ok? {
        draft := [];
      } else {
        error := MessageOr(outcome.message, SubmitFailedMessage);
      }
      isLoading := false;
    }
  }

  /** The source as written: a signed-in student joins `s`, the instructor
      ends it, and the restore effect, re-run because `currentSession`
      changed, finds `s` still in storage and makes it current again, while
      the "session has ended" notice is shown. */
  method EndedSessionIsRestored(user: UserId, s: Session) returns (d: Dashboard)
    ensures d.current == Some(s) && d.error == SessionEndedNotice && d.stored == Some(s)
  {
    d := new Dashboard(Some(user), None);
    d.HandleSessionLoad(Some(s));
    d.OnSessionEndedAsWritten(s.sessionId);
    d.UserEffect();
  }
}
