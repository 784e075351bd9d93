/** The instructor's session list: loading, creating, selecting, and the
    two-phase end of a session (request, then confirm or cancel). */
module SessionManager {
  import opened Seqs
  import opened Text
  import opened Domain

  const LoadFailedMessage: string := "Failed to load sessions"
  const CourseNameRequiredMessage: string := "Course name is required"
  const CreateFailedMessage: string := "Failed to create session"
  const EndFailedPrefix: string := "Failed to end session: "
  /** The list request asks for at most this many active sessions. */
  const SessionListLimit: nat := 10

  /** The one session waiting in the end-confirmation dialog. */
  datatype EndTarget = EndTarget(id: SessionId, name: string)

  /** The create-session form. */
  datatype SessionForm = SessionForm(courseName: string, description: string, sessionDate: string)

  /** The test of `prev.filter(s => s.sessionId !== id)`. */
  function OtherThan(id: SessionId): Session -> bool {
    (s: Session) => s.sessionId != id
  }

  /** The session list with every entry of id `id` removed. */
  function WithoutSession(sessions: seq<Session>, id: SessionId): (r: seq<Session>)
    ensures IsSubsequence(r, sessions)
    ensures forall s :: s in r <==> s in sessions && s.sessionId != id
    ensures forall s :: multiset(r)[s] == if s.sessionId != id then multiset(sessions)[s] else 0
  {
    FilterIsSubsequence(OtherThan(id), sessions);
    FilterMembership(OtherThan(id), sessions);
    FilterCount(OtherThan(id), sessions);
    Filter(OtherThan(id), sessions)
  }

  /** The ids present in a session list. */
  function Ids(sessions: seq<Session>): set<SessionId> {
    set s | s in sessions :: s.sessionId
  }

  /** No two sessions in the list share an id. */
  predicate UniqueIds(sessions: seq<Session>) {
    sessions == [] ||
    (sessions[0].sessionId !in Ids(sessions[1..]) && UniqueIds(sessions[1..]))
  }

  /** Removing an id drops exactly that id from the ids present. */
  lemma WithoutSessionIds(sessions: seq<Session>, id: SessionId)
    ensures Ids(WithoutSession(sessions, id)) == Ids(sessions) - {id}
  {
  }

  /** In a list with unique ids, removing an id that is present shortens the
      list by exactly one, removing an absent id changes nothing, and the ids
      stay unique. */
  lemma {:induction false} WithoutUniqueSession(sessions: seq<Session>, id: SessionId)
    requires UniqueIds(sessions)
    ensures UniqueIds(WithoutSession(sessions, id))
    ensures id in Ids(sessions) ==> |WithoutSession(sessions, id)| == |sessions| - 1
    ensures id !in Ids(sessions) ==> WithoutSession(sessions, id) == sessions
  {
    if sessions != [] {
      var rest := sessions[1..];
      assert sessions == [sessions[0]] + rest;
      assert Ids(sessions) == {sessions[0].sessionId} + Ids(rest);
      WithoutUniqueSession(rest, id);
      var r := WithoutSession(sessions, id);
      if sessions[0].sessionId == id {
        assert r == WithoutSession(rest, id);
      } else {
        var tail := WithoutSession(rest, id);
        assert r == [sessions[0]] + tail;
        assert r[1..] == tail;
        WithoutSessionIds(rest, id);
      }
    }
  }

  /** The component's state. `selected` is the parent's `selectedSessionId`,
      which the component changes only through `onSessionSelect`. */
  class SessionList {
    var sessions: seq<Session>
    var selected: Option<SessionId>
    var pending: Option<EndTarget>
    var isEnding: bool
    var isCreating: bool
    var isLoading: bool
    var error: string
    var form: SessionForm

    /** Mounting, with the parent's selection and today's date for the form. */
    constructor (selected: Option<SessionId>, today: string)
      ensures this.selected == selected && sessions == [] && pending == None
      ensures !isEnding && !isCreating && !isLoading && error == []
      ensures form == SessionForm([], [], today)
    {
      this.selected := selected;
      sessions := [];
      pending := None;
      isEnding := false;
      isCreating := false;
      isLoading := false;
      error := [];
      form := SessionForm([], [], today);
    }

    /** `loadSessions`: the server's list replaces the local one; the selection
        is kept even when the selected session is no longer listed. */
    method LoadSessions(response: Result<seq<Session>>) returns (calls: seq<ApiCall>)
      modifies this
      ensures calls == [GetMySessions(SessionListLimit, true)]
      ensures response.Ok? ==> sessions == response.value && error == []
      ensures response.Err? ==> sessions == old(sessions) && error == LoadFailedMessage
      ensures !isLoading
      ensures selected == old(selected) && pending == old(pending) && isEnding == old(isEnding)
      ensures isCreating == old(isCreating) && form == old(form)
    {
      isLoading := true;
      error := [];
      calls := [GetMySessions(SessionListLimit, true)];
      if response.Ok? {
        sessions := response.value;
      } else {
        error := LoadFailedMessage;
      }
      isLoading := false;
    }

    /** Typing in the create form. */
    method EditForm(newForm: SessionForm)
      modifies this
      ensures form == newForm
      ensures sessions == old(sessions) && selected == old(selected) && pending == old(pending)
      ensures isEnding == old(isEnding) && isCreating == old(isCreating) && isLoading == old(isLoading)
      ensures error == old(error)
    {
      form := newForm;
    }

    /** `handleCreateSession`: a blank course name is refused before any call;
        otherwise the trimmed fields are sent (the description only when it is
        not blank), and the created session is prepended and selected. */
    method CreateSession(outcome: Result<Session>, today: string) returns (calls: seq<ApiCall>)
      modifies this
      ensures IsBlank(old(form).courseName) ==>
        calls == [] && error == CourseNameRequiredMessage &&
        sessions == old(sessions) && selected == old(selected) &&
        form == old(form) && isCreating == old(isCreating)
      ensures !IsBlank(old(form).courseName) ==>
        calls == [Domain.CreateSession(Trim(old(form).courseName),
                                       if IsBlank(old(form).description) then None
                                       else Some(Trim(old(form).description)),
                                       old(form).sessionDate)] &&
        !isCreating
      ensures !IsBlank(old(form).courseName) && outcome.Ok? ==>
        |sessions| == |old(sessions)| + 1 && sessions[0] == outcome.value &&
        sessions[1..] == old(sessions) &&
        selected == Some(outcome.value.sessionId) &&
        form == SessionForm([], [], today) && error == []
      ensures !IsBlank(old(form).courseName) && outcome.Err? ==>
        sessions == old(sessions) && selected == old(selected) && form == old(form) &&
        error == MessageOr(outcome.message, CreateFailedMessage)
      ensures pending == old(pending) && isEnding == old(isEnding) && isLoading == old(isLoading)
    {
      if IsBlank(form.courseName) {
        error := CourseNameRequiredMessage;
        return [];
      }
      isCreating := true;
      error := [];
      var description := if IsBlank(form.description) then None else Some(Trim(form.description));
      calls := [Domain.CreateSession(Trim(form.courseName), description, form.sessionDate)];
      if outcome.Ok? {
        sessions := [outcome.value] + sessions;
        selected := Some(outcome.value.sessionId);
        form := SessionForm([], [], today);
      } else {
        error := MessageOr(outcome.message, CreateFailedMessage);
      }
      isCreating := false;
    }

    /** `handleSessionSelect`: a local pointer change, no call. */
    method Select(id: SessionId)
      modifies this
      ensures selected == Some(id)
      ensures sessions == old(sessions) && pending == old(pending) && error == old(error)
      ensures isEnding == old(isEnding) && isCreating == old(isCreating) && isLoading == old(isLoading)
      ensures form == old(form)
    {
      selected := Some(id);
    }

    /** `handleDeselectSession`. */
    method Deselect()
      modifies this
      ensures selected == None
      ensures sessions == old(sessions) && pending == old(pending) && error == old(error)
      ensures isEnding == old(isEnding) && isCreating == old(isCreating) && isLoading == old(isLoading)
      ensures form == old(form)
    {
      selected := None;
    }

    /** `handleEndSession`: open the confirmation for one session; only the
        pending slot changes. */
    method RequestEnd(id: SessionId, name: string)
      modifies this
      ensures pending == Some(EndTarget(id, name))
      ensures sessions == old(sessions) && selected == old(selected) && error == old(error)
      ensures isEnding == old(isEnding) && isCreating == old(isCreating) && isLoading == old(isLoading)
      ensures form == old(form)
    {
      pending := Some(EndTarget(id, name));
    }

    /** Closing the confirmation (its Cancel button or dismissing the dialog). */
    method CancelEnd()
      modifies this
      ensures pending == None
      ensures sessions == old(sessions) && selected == old(selected) && error == old(error)
      ensures isEnding == old(isEnding) && isCreating == old(isCreating) && isLoading == old(isLoading)
      ensures form == old(form)
    {
      pending := None;
    }

    /** `confirmEndSession`, with `outcome` the result of the end call.
        `endingDuringCall` is the in-flight flag as the call is issued. On
        success the session leaves the list and the selection (if it was
        selected); on failure nothing but the error changes. */
    method ConfirmEnd(outcome: Result<()>) returns (calls: seq<ApiCall>, endingDuringCall: bool)
      modifies this
      ensures old(pending).None? ==>
        calls == [] && sessions == old(sessions) && selected == old(selected) &&
        pending == None && error == old(error) && isEnding == old(isEnding)
      ensures old(pending).Some? ==>
        calls == [EndSession(old(pending).value.id)] && endingDuringCall && !isEnding
      ensures old(pending).Some? && outcome.Ok? ==>
        sessions == WithoutSession(old(sessions), old(pending).value.id) &&
        selected == (if old(selected) == Some(old(pending).value.id) then None else old(selected)) &&
        pending == None && error == []
      ensures old(pending).Some? && outcome.Err? ==>
        sessions == old(sessions) && selected == old(selected) && pending == old(pending) &&
        error == EndFailedPrefix + outcome.message
      ensures UniqueIds(old(sessions)) ==> UniqueIds(sessions)
      ensures isCreating == old(isCreating) && isLoading == old(isLoading) && form == old(form)
    {
      calls := [];
      endingDuringCall := false;
      if pending.None? {
        return;
      }
      var target := pending.value;
      isEnding := true;
      calls := [EndSession(target.id)];
      endingDuringCall := isEnding;
      if outcome.Ok? {
        if UniqueIds(sessions) {
          WithoutUniqueSession(sessions, target.id);
        }
        sessions := WithoutSession(sessions, target.id);
        if selected == Some(target.id) {
          selected := None;
        }
        pending := None;
        error := [];
      } else {
        error := EndFailedPrefix + outcome.message;
      }
      isEnding := false;
    }
  }
}
