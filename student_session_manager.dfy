/** The student's join-by-code form, and its wiring to the dashboard through
    the `onSessionLoad` callback. */
module StudentSessionManager {
  import opened Seqs
  import opened Text
  import opened Domain
  import StudentDashboard

  const EnterIdMessage: string := "Please enter a session ID"
  const InactiveMessage: string := "This session has ended and is no longer accepting questions"
  const NotFoundMessage: string := "Session not found. Please check the session ID and try again."
  const SessionLoadFailedMessage: string := "Failed to load session"

  /** The text the form shows for an error thrown by either API call: a message
      that mentions 404 means the code is unknown, any other message is shown
      as it is, and an empty one is replaced by a generic text. The message is
      never empty. */
  function LoadErrorMessage(message: string): (r: string)
    ensures (exists i :: OccursAt(message, "404", i)) ==> r == NotFoundMessage
    ensures !(exists i :: OccursAt(message, "404", i)) ==>
      r == (if message == [] then SessionLoadFailedMessage else message)
    ensures r != []
  {
    ContainsIff(message, "404");
    if Contains(message, "404") then NotFoundMessage
    else MessageOr(message, SessionLoadFailedMessage)
  }

  /** A code the server does not know and a session that has ended are told
      apart by the text the form shows. */
  lemma NotFoundDiffersFromInactive()
    ensures NotFoundMessage != InactiveMessage
    ensures LoadErrorMessage("404") != InactiveMessage
  {
    assert OccursAt("404", "404", 0);
  }

  /** No lower-case ASCII letter anywhere in the text. */
  predicate NoLowerCase(s: string) {
    forall i :: 0 <= i < |s| ==> !IsLowerAscii(s[i])
  }

  /** Trimming upper-cased text leaves upper-cased text: the code sent to the
      server is upper case. */
  lemma TrimKeepsUpperCase(s: string)
    requires NoLowerCase(s)
    ensures NoLowerCase(Trim(s))
  {
    TrimInfix(s);
    var lo := |s| - |TrimStart(s)|;
    forall i | 0 <= i < |Trim(s)| ensures !IsLowerAscii(Trim(s)[i]) {
      assert Trim(s)[i] == s[lo + i];
    }
  }

  /** The form's state: the code box, its error line and the loading flag.
      The box only ever holds upper-cased text. */
  class JoinForm {
    var input: string
    var error: string
    var isLoadingSession: bool

    ghost predicate Valid()
      reads this
    {
      NoLowerCase(input)
    }

    constructor ()
      ensures Valid() && input == [] && error == [] && !isLoadingSession
    {
      input := [];
      error := [];
      isLoadingSession := false;
    }

    /** Typing in the code box stores the upper-cased text, which is its own
        upper case. */
    method OnInput(text: string)
      modifies this
      ensures Valid() && input == ToUpper(text) && ToUpper(input) == input
      ensures error == old(error) && isLoadingSession == old(isLoadingSession)
    {
      input := ToUpper(text);
      ToUpperIdempotent(text);
    }

    /** `handleLoadSession`, with `lookup` the result of the session lookup and
        `join` that of the join call (read only when the join is made).
        `adopted` is the session passed to `onSessionLoad`, if it is called. */
    method LoadSession(lookup: Result<Session>, join: Result<()>) returns (calls: seq<ApiCall>, adopted: Option<Session>)
      requires Valid()
      modifies this
      ensures Valid() && input == old(input)
      ensures IsBlank(input) ==>
        calls == [] && adopted == None && error == EnterIdMessage &&
        isLoadingSession == old(isLoadingSession)
      ensures !IsBlank(input) ==>
        |calls| >= 1 && calls[0] == GetSession(Trim(input)) && NoLowerCase(Trim(input)) &&
        !isLoadingSession
      ensures !IsBlank(input) && lookup.Err? ==>
        |calls| == 1 && adopted == None && error == LoadErrorMessage(lookup.message)
      ensures !IsBlank(input) && lookup.Ok? && !lookup.value.isActive ==>
        |calls| == 1 && adopted == None && error == InactiveMessage
      ensures !IsBlank(input) && lookup.Ok? && lookup.value.isActive ==>
        calls == [GetSession(Trim(input)), JoinSession(Trim(input))] &&
        (join.Err? ==> adopted == None && error == LoadErrorMessage(join.message)) &&
        (join.Ok? ==> adopted == Some(lookup.value) && error == [])
      ensures adopted.Some? <==> !IsBlank(input) && lookup.Ok? && lookup.value.isActive && join.Ok?
      ensures adopted.Some? ==> adopted.value.isActive
    {
      calls := [];
      adopted := None;
      if IsBlank(input) {
        error := EnterIdMessage;
        return;
      }
      isLoadingSession := true;
      error := [];
      var code := Trim(input);
      TrimKeepsUpperCase(input);
      calls := [GetSession(code)];
      if lookup.Err? {
        error := LoadErrorMessage(lookup.message);
      } else if !lookup.value.isActive {
        error := InactiveMessage;
      } else {
        calls := calls + [JoinSession(code)];
        if join.Err? {
          error := LoadErrorMessage(join.message);
        } else {
          adopted := Some(lookup.value);
        }
      }
      isLoadingSession := false;
    }

    /** `handleLeaveSession`, the form's half: the code box is emptied. */
    method Leave()
      requires Valid()
      modifies this
      ensures Valid() && input == []
      ensures error == old(error) && isLoadingSession == old(isLoadingSession)
    {
      input := [];
    }
  }

  /** Joining by code as the page wires it: the dashboard's `handleSessionLoad`
      is the form's `onSessionLoad`, so a successful join is adopted as the
      dashboard's current session and the error is cleared; any failure leaves
      the dashboard untouched. */
  method JoinByCode(form: JoinForm, dashboard: StudentDashboard.Dashboard,
                    lookup: Result<Session>, join: Result<()>) returns (calls: seq<ApiCall>)
    requires form.Valid()
    modifies form, dashboard
    ensures form.Valid() && form.input == old(form.input)
    ensures IsBlank(form.input) ==>
      calls == [] && form.error == EnterIdMessage &&
      form.isLoadingSession == old(form.isLoadingSession)
    ensures !IsBlank(form.input) ==>
      |calls| >= 1 && calls[0] == GetSession(Trim(form.input)) && !form.isLoadingSession
    ensures !IsBlank(form.input) && lookup.Err? ==>
      |calls| == 1 && form.error == LoadErrorMessage(lookup.message)
    ensures !IsBlank(form.input) && lookup.Ok? && !lookup.value.isActive ==>
      |calls| == 1 && form.error == InactiveMessage
    ensures !IsBlank(form.input) && lookup.Ok? && lookup.value.isActive ==>
      calls == [GetSession(Trim(form.input)), JoinSession(Trim(form.input))] &&
      (join.Err? ==> form.error == LoadErrorMessage(join.message)) &&
      (join.Ok? ==> form.error == [])
    ensures !IsBlank(form.input) && lookup.Ok? && lookup.value.isActive && join.Ok? ==>
      dashboard.current == Some(lookup.value) && dashboard.error == [] &&
      dashboard.stored == (if old(dashboard.user).Some? then Some(lookup.value) else old(dashboard.stored))
    ensures !(!IsBlank(form.input) && lookup.Ok? && lookup.value.isActive && join.Ok?) ==>
      dashboard.current == old(dashboard.current) && dashboard.error == old(dashboard.error) &&
      dashboard.stored == old(dashboard.stored)
    ensures dashboard.questions == old(dashboard.questions) && dashboard.user == old(dashboard.user)
    ensures dashboard.draft == old(dashboard.draft) && dashboard.isLoading == old(dashboard.isLoading)
  {
    var adopted;
    calls, adopted := form.LoadSession(lookup, join);
    if adopted.Some? {
      dashboard.HandleSessionLoad(adopted);
    }
  }

  /** Leaving as the page wires it: the code box is emptied and the dashboard
      drops its session, clears its error and (for a signed-in user) removes
      the stored session. No API call is made. */
  method LeaveSession(form: JoinForm, dashboard: StudentDashboard.Dashboard)
    requires form.Valid()
    modifies form, dashboard
    ensures form.Valid() && form.input == [] && form.error == old(form.error)
    ensures form.isLoadingSession == old(form.isLoadingSession)
    ensures dashboard.current == None && dashboard.error == []
    ensures dashboard.stored == (if old(dashboard.user).Some? then None else old(dashboard.stored))
    ensures dashboard.questions == old(dashboard.questions) && dashboard.user == old(dashboard.user)
    ensures dashboard.draft == old(dashboard.draft) && dashboard.isLoading == old(dashboard.isLoading)
  {
    form.Leave();
    dashboard.HandleSessionLoad(None);
  }
}
