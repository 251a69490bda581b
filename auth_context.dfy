/**
 * The session container: the provider's three pieces of state, the mount-time
 * session check, sign-in and sign-out, and the loading gate on rendering.
 *
 * The transition functions below say what each operation leaves behind; the
 * class performs the same operations one state update at a time, as the
 * provider does inside try/catch/finally, and its methods are proved to end in
 * the state the functions give.
 */
module AuthContext {
  import opened Wrappers
  import opened Account

  datatype AuthState = AuthState(session: Option<Session>, user: Option<User>, loading: bool)

  /** What the provider renders in place of its children. */
  datatype View = LoadingPlaceholder | Children

  /** `loading ? <placeholder/> : children`. */
  function Render(s: AuthState): (v: View)
    ensures v == Children <==> !s.loading
    ensures v == LoadingPlaceholder <==> s.loading
  {
    if s.loading then LoadingPlaceholder else Children
  }

  /** Signed in: a session and a user are both held. */
  predicate SignedIn(s: AuthState) {
    s.session.Some? && s.user.Some?
  }

  /** Signed out: neither a session nor a user is held. */
  predicate SignedOut(s: AuthState) {
    s.session.None? && s.user.None?
  }

  /** The state the provider is created with. */
  function Initial(): (s: AuthState)
    ensures s.loading && SignedOut(s)
    ensures Render(s) == LoadingPlaceholder
  {
    AuthState(None, None, true)
  }

  /** After the mount-time check: signed in with both fetched values when both calls
      resolve, otherwise signed out, and never loading. */
  function AfterCheckSession(currentUser: Remote<User>, currentSession: Remote<Session>): (s: AuthState)
    ensures !s.loading && Render(s) == Children
    ensures SignedIn(s) || SignedOut(s)
    ensures SignedIn(s) <==> currentUser.Ok? && currentSession.Ok?
    ensures SignedIn(s) ==> s.user == Some(currentUser.value) && s.session == Some(currentSession.value)
  {
    match (currentUser, currentSession)
    case (Ok(u), Ok(t)) => AuthState(Some(t), Some(u), false)
    case _ => AuthState(None, None, false)
  }

  /** The calls the mount-time check makes: getSession only after `get` resolved. */
  function CheckSessionCalls(currentUser: Remote<User>): (calls: seq<Call>)
    ensures |calls| == (if currentUser.Ok? then 2 else 1) && calls[0] == Get
    ensures GetSession(CurrentSession) in calls <==> currentUser.Ok?
    ensures currentUser.Ok? ==> calls[1] == GetSession(CurrentSession)
  {
    if currentUser.Ok? then [Get, GetSession(CurrentSession)] else [Get]
  }

  /** After sign-in. The new session is stored as soon as it is created, and only
      then is the user fetched: a failed fetch leaves the new session beside the old user. */
  function AfterSignin(before: AuthState, created: Remote<Session>, fetched: Remote<User>): (s: AuthState)
    ensures !s.loading
    ensures created.Fail? ==> s.session == before.session && s.user == before.user
    ensures created.Ok? ==> s.session == Some(created.value)
    ensures created.Ok? && fetched.Ok? ==> s.user == Some(fetched.value)
    ensures created.Ok? && fetched.Fail? ==> s.user == before.user
  {
    match created
    case Fail(_) => before.(loading := false)
    case Ok(t) =>
      match fetched
      case Fail(_) => AuthState(Some(t), before.user, false)
      case Ok(u) => AuthState(Some(t), Some(u), false)
  }

  /** Sign-in rejects, with the error of the first call that failed, exactly when a call failed. */
  function SigninOutcome(created: Remote<Session>, fetched: Remote<User>): (o: Outcome)
    ensures o.Resolved? <==> created.Ok? && fetched.Ok?
    ensures created.Fail? ==> o == Rejected(created.error)
    ensures created.Ok? && fetched.Fail? ==> o == Rejected(fetched.error)
  {
    if created.Fail? then Rejected(created.error)
    else if fetched.Fail? then Rejected(fetched.error)
    else Resolved
  }

  /** The calls sign-in makes: the user is fetched only once the session exists. */
  function SigninCalls(email: string, password: string, created: Remote<Session>): (calls: seq<Call>)
    ensures |calls| == (if created.Ok? then 2 else 1)
    ensures calls[0] == CreateEmailPasswordSession(email, password)
    ensures Get in calls <==> created.Ok?
    ensures created.Ok? ==> calls[1] == Get
  {
    [CreateEmailPasswordSession(email, password)] + if created.Ok? then [Get] else []
  }

  /** After sign-out: signed out when the session was deleted, unchanged otherwise. */
  function AfterSignout(before: AuthState, deleted: Remote<()>): (s: AuthState)
    ensures !s.loading
    ensures deleted.Ok? ==> SignedOut(s)
    ensures deleted.Fail? ==> s.session == before.session && s.user == before.user
  {
    if deleted.Ok? then AuthState(None, None, false) else before.(loading := false)
  }

  function SignoutOutcome(deleted: Remote<()>): (o: Outcome)
    ensures o.Resolved? <==> deleted.Ok?
    ensures deleted.Fail? ==> o == Rejected(deleted.error)
  {
    if deleted.Ok? then Resolved else Rejected(deleted.error)
  }

  /** Every operation ends with the children shown. */
  lemma ChildrenShownAfterEveryOperation(before: AuthState, u: Remote<User>, t: Remote<Session>,
                                         f: Remote<User>, d: Remote<()>)
    ensures Render(AfterCheckSession(u, t)) == Children
    ensures Render(AfterSignin(before, t, f)) == Children
    ensures Render(AfterSignout(before, d)) == Children
  {
  }

  /** A successful sign-in signs in from any state, and a successful sign-out after it signs out. */
  lemma SigninThenSignout(before: AuthState, t: Session, u: User)
    ensures SignedIn(AfterSignin(before, Ok(t), Ok(u)))
    ensures SignedOut(AfterSignout(AfterSignin(before, Ok(t), Ok(u)), Ok(())))
  {
  }

  /** The pairing of session and user that the mount-time check establishes does not survive
      a sign-in whose user fetch fails: from the signed-out state it leaves a session without a user. */
  lemma SigninFetchFailureUnpairs(t: Session, e: Error)
    ensures var s := AfterSignin(AfterCheckSession(Fail(e), Fail(e)), Ok(t), Fail(e));
      s.session == Some(t) && s.user == None
  {
  }

  class AuthProvider {
    var session: Option<Session>
    var user: Option<User>
    var loading: bool

    function State(): AuthState
      reads this
    {
      AuthState(session, user, loading)
    }

    /** The loading gate: the children are rendered exactly when not loading. */
    function Rendered(): (v: View)
      reads this
      ensures v == Children <==> !loading
    {
      Render(State())
    }

    constructor ()
      ensures State() == Initial()
    {
      loading, session, user := true, None, None;
    }

    /** The mount-time check. Either call may fail; the catch clears both fields,
        including a user already stored by the first call. */
    method CheckSession(currentUser: Remote<User>, currentSession: Remote<Session>) returns (calls: seq<Call>)
      modifies this
      ensures State() == AfterCheckSession(currentUser, currentSession)
      ensures calls == CheckSessionCalls(currentUser)
    {
      var failed := false;
      calls := [Get];
      match currentUser {
        case Fail(_) =>
          failed := true;
        case Ok(u) =>
          user := Some(u);
          calls := calls + [GetSession(CurrentSession)];
          match currentSession {
            case Fail(_) =>
              failed := true;
            case Ok(t) =>
              session := Some(t);
          }
      }
      if failed {
        user := None;
        session := None;
      }
      loading := false;
    }

    method Signin(email: string, password: string, created: Remote<Session>, fetched: Remote<User>)
      returns (outcome: Outcome, calls: seq<Call>)
      modifies this
      ensures State() == AfterSignin(old(State()), created, fetched)
      ensures outcome == SigninOutcome(created, fetched)
      ensures calls == SigninCalls(email, password, created)
    {
      loading := true;
      calls := [CreateEmailPasswordSession(email, password)];
      match created {
        case Fail(e) =>
          outcome := Rejected(e);
        case Ok(t) =>
          session := Some(t);
          calls := calls + [Get];
          match fetched {
            case Fail(e) =>
              outcome := Rejected(e);
            case Ok(u) =>
              user := Some(u);
              outcome := Resolved;
          }
      }
      loading := false;
    }

    method Signout(deleted: Remote<()>) returns (outcome: Outcome, calls: seq<Call>)
      modifies this
      ensures State() == AfterSignout(old(State()), deleted)
      ensures outcome == SignoutOutcome(deleted)
      ensures calls == [DeleteSession(CurrentSession)]
    {
      loading := true;
      calls := [DeleteSession(CurrentSession)];
      match deleted {
        case Fail(e) =>
          outcome := Rejected(e);
        case Ok(_) =>
          session := None;
          user := None;
          outcome := Resolved;
      }
      loading := false;
    }
  }
}
