/** The two pieces of logic in the session controller: marking the current
    session in the list the session service returns, and the guard that
    refuses a request carrying no session id. The session service itself is
    not part of this model. */
module SessionController {
  import opened Common
  import opened Errors
  import opened SessionModel

  /** A session as `toObject()` gives it, with the optional `isCurrent` key. */
  datatype SessionView = SessionView(session: Session, isCurrent: Option<bool>)

  /** `{...session.toObject(), ...(session.id === sessionId && {isCurrent: true})}`. */
  function View(s: Session, sessionId: Option<Id>): SessionView
  {
    SessionView(s, if sessionId == Some(s.id) then Some(true) else None)
  }

  /** `sessions.map(...)` in `getAllSession`: same length and order, fields
      copied, `isCurrent: true` exactly on the request's session and absent
      elsewhere. */
  function MarkCurrent(sessions: seq<Session>, sessionId: Option<Id>): (r: seq<SessionView>)
    ensures |r| == |sessions|
    ensures forall i :: 0 <= i < |r| ==> r[i].session == sessions[i]
    ensures forall i :: 0 <= i < |r| ==> (r[i].isCurrent == Some(true) <==> sessionId == Some(sessions[i].id))
    ensures forall i :: 0 <= i < |r| ==> (r[i].isCurrent.None? <==> sessionId != Some(sessions[i].id))
  {
    if sessions == [] then []
    else [View(sessions[0], sessionId)] + MarkCurrent(sessions[1..], sessionId)
  }

  /** How many views are marked current. */
  function CurrentCount(views: seq<SessionView>): nat
  {
    if views == [] then 0
    else (if views[0].isCurrent == Some(true) then 1 else 0) + CurrentCount(views[1..])
  }

  ghost predicate DistinctIds(sessions: seq<Session>)
  {
    forall i, j :: 0 <= i < j < |sessions| ==> sessions[i].id != sessions[j].id
  }

  predicate HasId(sessions: seq<Session>, id: Id)
  {
    exists i :: 0 <= i < |sessions| && sessions[i].id == id
  }

  /** With distinct ids, exactly one session is marked current when the
      request's session is in the list, and none otherwise. */
  lemma {:induction false} OneCurrentSession(sessions: seq<Session>, sessionId: Option<Id>)
    requires DistinctIds(sessions)
    ensures CurrentCount(MarkCurrent(sessions, sessionId)) ==
            (if sessionId.Some? && HasId(sessions, sessionId.value) then 1 else 0)
  {
    if sessions != [] {
      var rest := sessions[1..];
      assert DistinctIds(rest) by {
        forall i, j | 0 <= i < j < |rest| ensures rest[i].id != rest[j].id {
          assert rest[i] == sessions[i + 1] && rest[j] == sessions[j + 1];
        }
      }
      OneCurrentSession(rest, sessionId);
      var views := MarkCurrent(sessions, sessionId);
      assert views[1..] == MarkCurrent(rest, sessionId);
      if sessionId.Some? && sessions[0].id == sessionId.value {
        assert !HasId(rest, sessionId.value) by {
          forall i | 0 <= i < |rest| ensures rest[i].id != sessionId.value {
            assert rest[i] == sessions[i + 1];
          }
        }
        assert HasId(sessions, sessionId.value) by { assert sessions[0].id == sessionId.value; }
      } else {
        assert sessionId.Some? ==> (HasId(sessions, sessionId.value) <==> HasId(rest, sessionId.value)) by {
          if sessionId.Some? {
            if HasId(sessions, sessionId.value) {
              var i :| 0 <= i < |sessions| && sessions[i].id == sessionId.value;
              assert i > 0 && rest[i - 1] == sessions[i];
            }
            if HasId(rest, sessionId.value) {
              var i :| 0 <= i < |rest| && rest[i].id == sessionId.value;
              assert sessions[i + 1] == rest[i];
            }
          }
        }
      }
    }
  }

  function SessionIdMissing(): (e: AppError)
    ensures e.statusCode == StatusNotFound && e.errorCode == Some(ResourceNotFoundCode)
    ensures e.message == "Session ID not fount. Please log in"
  {
    NotFoundException(Some("Session ID not fount. Please log in"), None)
  }

  /** The guard of `getSession`: a missing session id fails NotFound before
      any lookup; otherwise the id goes on to the session service. The
      request's session id has the type of a session's id, as in
      `MarkCurrent`; an id is never the empty string, so "falsy" means absent. */
  function GetSession(sessionId: Option<Id>): (r: Result<Id, AppError>)
    ensures r.Failure? <==> sessionId.None?
    ensures r.Failure? ==> r.error == SessionIdMissing()
    ensures r.Success? ==> r.value == sessionId.value
  {
    if sessionId.None? then Failure(SessionIdMissing()) else Success(sessionId.value)
  }
}
