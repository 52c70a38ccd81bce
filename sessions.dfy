/** The active-session list of src/components/SessionsManagement.tsx: the
    component state (`sessions`, `loading`, `error`, `isRevoking`) and its two
    handlers, loading the list and revoking one session. Each network call is an
    input that has already settled; handlers run one after another. */
module SessionsManagement {
  import opened Types

  const LoadFailed := "Failed to load active sessions"
  const RevokeFailed := "Failed to revoke session"

  /** `sessions.filter(session => session.id !== sessionId)` */
  function RemoveSession(sessions: seq<Session>, id: int): (r: seq<Session>)
    ensures forall s :: s in r <==> s in sessions && s.id != id
    ensures |r| <= |sessions|
  {
    if sessions == [] then []
    else
      var rest := RemoveSession(sessions[1..], id);
      assert forall s :: s in sessions <==> s == sessions[0] || s in sessions[1..];
      if sessions[0].id != id then [sessions[0]] + rest else rest
  }

  /** Filtering distributes over concatenation: the survivors keep their
      original relative order. */
  lemma {:induction false} RemoveSessionAppend(a: seq<Session>, b: seq<Session>, id: int)
    ensures RemoveSession(a + b, id) == RemoveSession(a, id) + RemoveSession(b, id)
  {
    if a == [] {
      assert a + b == b;
    } else {
      assert (a + b)[0] == a[0];
      assert (a + b)[1..] == a[1..] + b;
      RemoveSessionAppend(a[1..], b, id);
    }
  }

  /** Revoking an id that no listed session carries leaves the list as it is. */
  lemma {:induction false} RemoveAbsentId(sessions: seq<Session>, id: int)
    requires forall i :: 0 <= i < |sessions| ==> sessions[i].id != id
    ensures RemoveSession(sessions, id) == sessions
  {
    if sessions != [] {
      RemoveAbsentId(sessions[1..], id);
      assert [sessions[0]] + sessions[1..] == sessions;
    }
  }

  /** Revoking the same id twice removes nothing more. */
  lemma RemoveSessionIdempotent(sessions: seq<Session>, id: int)
    ensures RemoveSession(RemoveSession(sessions, id), id) == RemoveSession(sessions, id)
  {
  }

  /** The component state. `error` and `isRevoking` are `None` for `null`. */
  datatype PanelState = PanelState(
    sessions: seq<Session>,
    loading: bool,
    error: Option<string>,
    isRevoking: Option<int>)

  /** `useState([])`, `useState(true)`, `useState(null)`, `useState(null)` */
  const Initial := PanelState([], true, None, None)

  /** A handler run: the state while its request is outstanding, then after. */
  datatype Transition = Transition(pending: PanelState, after: PanelState)

  /** `loadSessions`: raise `loading`, await the list, then either take it and
      clear the error or keep the old list and record the failure; `loading`
      drops in either case. */
  function LoadStep(s: PanelState, reply: Settled<seq<Session>>): (t: Transition)
    ensures t.pending == s.(loading := true)
    ensures !t.after.loading && t.after.isRevoking == s.isRevoking
    ensures reply.Fulfilled? ==> t.after.sessions == reply.value && t.after.error == None
    ensures reply.Rejected? ==> t.after.sessions == s.sessions && t.after.error == Some(LoadFailed)
  {
    var pending := s.(loading := true);
    var settled :=
      match reply
      case Fulfilled(list) => pending.(sessions := list, error := None)
      case Rejected(_) => pending.(error := Some(LoadFailed));
    Transition(pending, settled.(loading := false))
  }

  /** `handleRevokeSession`: mark the id as being revoked, await the delete,
      then either drop that id from the list (an earlier error stays) or keep
      the list and record the failure; the mark is cleared in either case. */
  function RevokeStep(s: PanelState, sessionId: int, reply: Settled<()>): (t: Transition)
    ensures t.pending == s.(isRevoking := Some(sessionId))
    ensures t.after.isRevoking == None && t.after.loading == s.loading
    ensures reply.Fulfilled? ==>
      t.after.sessions == RemoveSession(s.sessions, sessionId) && t.after.error == s.error
    ensures reply.Rejected? ==> t.after.sessions == s.sessions && t.after.error == Some(RevokeFailed)
  {
    var pending := s.(isRevoking := Some(sessionId));
    var settled :=
      match reply
      case Fulfilled(_) => pending.(sessions := RemoveSession(pending.sessions, sessionId))
      case Rejected(_) => pending.(error := Some(RevokeFailed));
    Transition(pending, settled.(isRevoking := None))
  }

  /** A successful revoke takes out exactly the sessions carrying the id and
      keeps the rest in order; a failed one changes no session. */
  lemma RevokeKeepsOthers(s: PanelState, sessionId: int, reply: Settled<()>, other: Session)
    requires other.id != sessionId
    ensures other in RevokeStep(s, sessionId, reply).after.sessions <==> other in s.sessions
    ensures forall x :: x in RevokeStep(s, sessionId, reply).after.sessions ==> x in s.sessions
  {
  }

  /** Revoking session 7 from the list [5, 7, 9] leaves [5, 9]; a failure leaves
      [5, 7, 9] and reports it. */
  lemma RevokeSevenExample(s5: Session, s7: Session, s9: Session)
    requires s5.id == 5 && s7.id == 7 && s9.id == 9
    ensures RevokeStep(Initial.(sessions := [s5, s7, s9]), 7, Fulfilled(())).after.sessions == [s5, s9]
    ensures RevokeStep(Initial.(sessions := [s5, s7, s9]), 7, Rejected("offline")).after
      == Initial.(sessions := [s5, s7, s9], error := Some(RevokeFailed))
  {
    assert [s9][1..] == [];
    assert RemoveSession([s9], 7) == [s9];
    assert [s7, s9][1..] == [s9];
    assert RemoveSession([s7, s9], 7) == [s9];
    assert [s5, s7, s9][1..] == [s7, s9];
    assert RemoveSession([s5, s7, s9], 7) == [s5] + [s9];
  }

  /** The component instance: its four state hooks as fields. */
  class SessionsPanel {
    var sessions: seq<Session>
    var loading: bool
    var error: Option<string>
    var isRevoking: Option<int>

    function State(): PanelState
      reads this
    {
      PanelState(sessions, loading, error, isRevoking)
    }

    constructor ()
      ensures State() == Initial
    {
      sessions, loading, error, isRevoking := [], true, None, None;
    }

    /** `loadSessions`; `pending` is the state while the list request is out. */
    method LoadSessions(reply: Settled<seq<Session>>) returns (ghost pending: PanelState)
      modifies this
      ensures pending == LoadStep(old(State()), reply).pending
      ensures State() == LoadStep(old(State()), reply).after
    {
      loading := true;
      pending := State();
      match reply {
        case Fulfilled(list) =>
          sessions := list;
          error := None;
        case Rejected(_) =>
          error := Some(LoadFailed);
      }
      loading := false;
    }

    /** `handleRevokeSession`; `pending` is the state while the delete is out. */
    method HandleRevokeSession(sessionId: int, reply: Settled<()>) returns (ghost pending: PanelState)
      modifies this
      ensures pending == RevokeStep(old(State()), sessionId, reply).pending
      ensures State() == RevokeStep(old(State()), sessionId, reply).after
    {
      isRevoking := Some(sessionId);
      pending := State();
      match reply {
        case Fulfilled(_) =>
          sessions := RemoveSession(sessions, sessionId);
        case Rejected(_) =>
          error := Some(RevokeFailed);
      }
      isRevoking := None;
    }
  }
}
