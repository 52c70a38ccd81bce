/** The authentication context of src/context/AuthContext.tsx: the provider's
    state (`user`, `isLoading`, `isAuthenticated`), the handlers that drive it
    through the auth service (`checkAuth`, `login`, `register`, `logout`), the
    `updateUser` merge and the `useAuth` guard. The service is not modelled: each
    handler receives the way its awaited call settled, and the calls it makes are
    recorded. Navigation is recorded as the last route pushed. */
module AuthContext {
  import opened Types

  const DashboardRoute := "/dashboard"
  const LoginRoute := "/login"
  const OutsideProvider := "useAuth must be used within an AuthProvider"

  /** A call the provider makes on the auth service. */
  datatype ServiceCall =
    | GetProfileCall
    | LoginCall(username: string, password: string, rememberMe: bool)
    | RegisterCall(email: string, password: string)
    | LogoutCall

  /** The reply the provider expects from the service's login: `{ user }`. */
  datatype LoginReply = LoginReply(user: User)

  /** The provider state; `route` is the last path pushed on the router. */
  datatype AuthState = AuthState(
    user: Option<User>,
    isLoading: bool,
    isAuthenticated: bool,
    route: Option<string>)

  /** `useState(null)`, `useState(true)`, `useState(false)`; nothing pushed yet. */
  const Initial := AuthState(None, true, false, None)

  /** One handler run: the state while its service call is outstanding, the
      state after, the service calls made in order, and how the handler settles. */
  datatype Step = Step(pending: AuthState, after: AuthState, calls: seq<ServiceCall>, result: Settled<()>)

  /** `checkAuth`, run on mount: fetch the profile only when the token store
      reports a token; on success adopt the user, on failure ask the service to
      log out (its own failure is caught and logged) and keep the state; in all
      cases clear `isLoading`. */
  function CheckAuthStep(s: AuthState, storeAuthenticated: bool, profile: Settled<User>): (t: Step)
    ensures t.pending == s && t.result == Fulfilled(())
    ensures !t.after.isLoading && t.after.route == s.route
    ensures !storeAuthenticated ==> t.calls == [] && t.after == s.(isLoading := false)
    ensures storeAuthenticated && profile.Fulfilled? ==>
      && t.calls == [GetProfileCall]
      && t.after.user == Some(profile.value)
      && t.after.isAuthenticated
    ensures storeAuthenticated && profile.Rejected? ==>
      t.calls == [GetProfileCall, LogoutCall] && t.after == s.(isLoading := false)
  {
    if !storeAuthenticated then
      Step(s, s.(isLoading := false), [], Fulfilled(()))
    else
      match profile
      case Fulfilled(currentUser) =>
        var s1 := s.(user := Some(currentUser), isAuthenticated := true);
        Step(s, s1.(isLoading := false), [GetProfileCall], Fulfilled(()))
      case Rejected(_) =>
        Step(s, s.(isLoading := false), [GetProfileCall, LogoutCall], Fulfilled(()))
  }

  /** `login`: raise `isLoading`, await the service; on success adopt the user,
      mark authenticated and go to the dashboard; on failure rethrow with the
      state untouched; lower `isLoading` in either case. The remember flag
      defaults to false. */
  function LoginStep(s: AuthState, username: string, password: string, rememberMe: bool := false,
                     reply: Settled<LoginReply>): (t: Step)
    ensures t.pending == s.(isLoading := true)
    ensures t.calls == [LoginCall(username, password, rememberMe)]
    ensures reply.Fulfilled? ==>
      t.after == AuthState(Some(reply.value.user), false, true, Some(DashboardRoute)) && t.result == Fulfilled(())
    ensures reply.Rejected? ==>
      t.after == s.(isLoading := false) && t.result == Rejected(reply.reason)
  {
    var s1 := s.(isLoading := true);
    var calls := [LoginCall(username, password, rememberMe)];
    match reply
    case Fulfilled(response) =>
      var s2 := s1.(user := Some(response.user), isAuthenticated := true, route := Some(DashboardRoute));
      Step(s1, s2.(isLoading := false), calls, Fulfilled(()))
    case Rejected(error) =>
      Step(s1, s1.(isLoading := false), calls, Rejected(error))
  }

  /** `register(password, email)`: the service receives `(email, password)`;
      success goes to the login page, failure rethrows; the user and the
      authentication flag are never touched. */
  function RegisterStep(s: AuthState, password: string, email: string, reply: Settled<()>): (t: Step)
    ensures t.pending == s.(isLoading := true)
    ensures t.calls == [RegisterCall(email, password)]
    ensures t.after.user == s.user && t.after.isAuthenticated == s.isAuthenticated && !t.after.isLoading
    ensures reply.Fulfilled? ==> t.after.route == Some(LoginRoute) && t.result == Fulfilled(())
    ensures reply.Rejected? ==> t.after.route == s.route && t.result == Rejected(reply.reason)
  {
    var s1 := s.(isLoading := true);
    var calls := [RegisterCall(email, password)];
    match reply
    case Fulfilled(_) =>
      Step(s1, s1.(route := Some(LoginRoute), isLoading := false), calls, Fulfilled(()))
    case Rejected(error) =>
      Step(s1, s1.(isLoading := false), calls, Rejected(error))
  }

  /** `logout`: raise `isLoading`, await the service; on success forget the user
      and go to the login page; on failure rethrow with the state untouched;
      lower `isLoading` in either case. */
  function LogoutStep(s: AuthState, reply: Settled<()>): (t: Step)
    ensures t.pending == s.(isLoading := true)
    ensures t.calls == [LogoutCall]
    ensures reply.Fulfilled? ==>
      t.after == AuthState(None, false, false, Some(LoginRoute)) && t.result == Fulfilled(())
    ensures reply.Rejected? ==>
      t.after == s.(isLoading := false) && t.result == Rejected(reply.reason)
  {
    var s1 := s.(isLoading := true);
    match reply
    case Fulfilled(_) =>
      var s2 := s1.(user := None, isAuthenticated := false, route := Some(LoginRoute));
      Step(s1, s2.(isLoading := false), [LogoutCall], Fulfilled(()))
    case Rejected(error) =>
      Step(s1, s1.(isLoading := false), [LogoutCall], Rejected(error))
  }

  /** `{ ...prev, ...update }`: every key the update carries wins; an optional key
      it lacks keeps the earlier value. */
  function MergeUser(prev: User, update: User): (r: User)
    ensures r.id == update.id && r.username == update.username && r.role == update.role
    ensures r.email == (if update.email.Some? then update.email else prev.email)
    ensures r.status == (if update.status.Some? then update.status else prev.status)
    ensures update.email.Some? && update.status.Some? ==> r == update
  {
    User(
      update.id,
      update.username,
      if update.email.Some? then update.email else prev.email,
      update.role,
      if update.status.Some? then update.status else prev.status)
  }

  /** `updateUser`: merge into the current user, or take the update as it is
      when there is none. */
  function UpdatedUser(user: Option<User>, update: User): (r: User)
    ensures user.None? ==> r == update
    ensures r.id == update.id && r.username == update.username && r.role == update.role
    ensures update.email.Some? ==> r.email == update.email
    ensures update.status.Some? ==> r.status == update.status
    ensures user.Some? && update.email.None? ==> r.email == user.value.email
    ensures user.Some? && update.status.None? ==> r.status == user.value.status
  {
    match user
    case None => update
    case Some(prev) => MergeUser(prev, update)
  }

  /** Applying the same update twice gives what applying it once does. */
  lemma UpdateUserIdempotent(user: Option<User>, update: User)
    ensures UpdatedUser(Some(UpdatedUser(user, update)), update) == UpdatedUser(user, update)
  {
  }

  /** Two updates in a row amount to one update by their merge. */
  lemma UpdateUserCompose(user: Option<User>, first: User, second: User)
    ensures UpdatedUser(Some(UpdatedUser(user, first)), second) == UpdatedUser(user, MergeUser(first, second))
  {
  }

  /** An update carrying every key replaces the user outright. */
  lemma FullUpdateReplaces(user: Option<User>, update: User)
    requires update.email.Some? && update.status.Some?
    ensures UpdatedUser(user, update) == update
  {
  }

  /** `useAuth`: outside a provider there is no context value and the hook throws. */
  function UseAuth<T>(context: Option<T>): (r: Settled<T>)
    ensures r.Rejected? <==> context.None?
    ensures r.Rejected? ==> r.reason == OutsideProvider
    ensures context.Some? ==> r == Fulfilled(context.value)
  {
    match context
    case None => Rejected(OutsideProvider)
    case Some(value) => Fulfilled(value)
  }

  /** Leaving out the remember flag passes false to the service. */
  lemma LoginRememberDefault(s: AuthState, username: string, password: string, reply: Settled<LoginReply>)
    ensures LoginStep(s, username, password, reply := reply).calls == [LoginCall(username, password, false)]
    ensures LoginStep(s, username, password, reply := reply) == LoginStep(s, username, password, false, reply)
  {
  }

  /** Every handler that raises `isLoading` has lowered it when it settles,
      whatever the service did. */
  lemma HandlersClearLoading(s: AuthState, username: string, password: string, rememberMe: bool,
                             loginReply: Settled<LoginReply>, reply: Settled<()>)
    ensures LoginStep(s, username, password, rememberMe, loginReply).pending.isLoading
    ensures !LoginStep(s, username, password, rememberMe, loginReply).after.isLoading
    ensures RegisterStep(s, password, username, reply).pending.isLoading
    ensures !RegisterStep(s, password, username, reply).after.isLoading
    ensures LogoutStep(s, reply).pending.isLoading
    ensures !LogoutStep(s, reply).after.isLoading
  {
  }

  /** From the initial state, the mount check ends authenticated exactly when the
      store has a token and the profile fetch succeeds. */
  lemma MountCheck(storeAuthenticated: bool, profile: Settled<User>)
    ensures var t := CheckAuthStep(Initial, storeAuthenticated, profile);
      && !t.after.isLoading
      && (t.after.isAuthenticated <==> storeAuthenticated && profile.Fulfilled?)
      && (t.after.user.Some? <==> storeAuthenticated && profile.Fulfilled?)
  {
  }

  /** A successful login followed by a successful logout leaves no user, not
      authenticated, on the login page. */
  lemma LoginThenLogout(s: AuthState, username: string, password: string, rememberMe: bool, user: User)
    ensures var t := LoginStep(s, username, password, rememberMe, Fulfilled(LoginReply(user)));
      LogoutStep(t.after, Fulfilled(())).after == AuthState(None, false, false, Some(LoginRoute))
  {
  }

  /** The provider instance: the three state hooks as fields, the router as the
      ghost last route. */
  class AuthProvider {
    var user: Option<User>
    var isLoading: bool
    var isAuthenticated: bool
    ghost var route: Option<string>

    ghost function State(): AuthState
      reads this
    {
      AuthState(user, isLoading, isAuthenticated, route)
    }

    constructor ()
      ensures State() == Initial
    {
      user, isLoading, isAuthenticated := None, true, false;
      route := None;
    }

    /** `checkAuth`; `storeAuthenticated` is what the token store reports. */
    method CheckAuth(storeAuthenticated: bool, profile: Settled<User>) returns (ghost calls: seq<ServiceCall>)
      modifies this
      ensures calls == CheckAuthStep(old(State()), storeAuthenticated, profile).calls
      ensures State() == CheckAuthStep(old(State()), storeAuthenticated, profile).after
    {
      calls := [];
      if storeAuthenticated {
        calls := calls + [GetProfileCall];
        match profile {
          case Fulfilled(currentUser) =>
            user := Some(currentUser);
            isAuthenticated := true;
          case Rejected(_) =>
            calls := calls + [LogoutCall];
        }
      }
      isLoading := false;
    }

    method Login(username: string, password: string, rememberMe: bool := false, reply: Settled<LoginReply>)
      returns (r: Settled<()>, ghost pending: AuthState, ghost calls: seq<ServiceCall>)
      modifies this
      ensures var t := LoginStep(old(State()), username, password, rememberMe, reply);
        r == t.result && pending == t.pending && calls == t.calls && State() == t.after
    {
      isLoading := true;
      pending := State();
      calls := [LoginCall(username, password, rememberMe)];
      match reply {
        case Fulfilled(response) =>
          user := Some(response.user);
          isAuthenticated := true;
          route := Some(DashboardRoute);
          r := Fulfilled(());
        case Rejected(error) =>
          r := Rejected(error);
      }
      isLoading := false;
    }

    method Register(password: string, email: string, reply: Settled<()>)
      returns (r: Settled<()>, ghost pending: AuthState, ghost calls: seq<ServiceCall>)
      modifies this
      ensures var t := RegisterStep(old(State()), password, email, reply);
        r == t.result && pending == t.pending && calls == t.calls && State() == t.after
    {
      isLoading := true;
      pending := State();
      calls := [RegisterCall(email, password)];
      match reply {
        case Fulfilled(_) =>
          route := Some(LoginRoute);
          r := Fulfilled(());
        case Rejected(error) =>
          r := Rejected(error);
      }
      isLoading := false;
    }

    method Logout(reply: Settled<()>)
      returns (r: Settled<()>, ghost pending: AuthState, ghost calls: seq<ServiceCall>)
      modifies this
      ensures var t := LogoutStep(old(State()), reply);
        r == t.result && pending == t.pending && calls == t.calls && State() == t.after
    {
      isLoading := true;
      pending := State();
      calls := [LogoutCall];
      match reply {
        case Fulfilled(_) =>
          user := None;
          isAuthenticated := false;
          route := Some(LoginRoute);
          r := Fulfilled(());
        case Rejected(error) =>
          r := Rejected(error);
      }
      isLoading := false;
    }

    /** `updateUser`: only the user changes. */
    method UpdateUser(updatedUser: User)
      modifies this
      ensures user == Some(UpdatedUser(old(user), updatedUser))
      ensures isLoading == old(isLoading) && isAuthenticated == old(isAuthenticated) && route == old(route)
    {
      user := Some(match user case None => updatedUser case Some(prev) => MergeUser(prev, updatedUser));
    }
  }
}
