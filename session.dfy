/**
 * The session store (src/context/AuthContext.tsx). The provider holds `user`
 * and `loading` and drives the browser's `token`/`user` entries and location.
 *
 * The transitions are first stated as functions over a `Session` value; the
 * class `AuthProvider` performs them step by step and is proved to reach
 * exactly the state those functions describe.
 *
 * Both auth calls are read as the provider reads them: they settle to a
 * token and a user (`AuthResponse`). `JSON.parse` is the parameter `parse`
 * (None when it throws) and `JSON.stringify` the parameter `serialize`.
 */
module Session {
  import opened Wrappers
  import opened Browser
  import opened Api

  /** A successful login or registration reply, as the provider consumes it. */
  datatype AuthResponse = AuthResponse(token: string, user: User)

  /** The provider's state together with the browser state it drives. */
  datatype Session = Session(user: Option<User>, loading: bool, env: Env)

  /** `isAuthenticated: !!user` */
  predicate Authenticated(s: Session)
  {
    s.user.Some?
  }

  /** The provider as first rendered over the browser state `env`. */
  function Mounted(env: Env): Session
  {
    Session(None, true, env)
  }

  /** `initAuth`: rehydrate the user from storage, discarding a malformed one. */
  function Rehydrated(s: Session, parse: string -> Option<User>): Session
  {
    var token := Lookup(s.env.storage, TokenKey);
    var stored := Lookup(s.env.storage, UserKey);
    if Truthy(token) && Truthy(stored) then
      match parse(stored.value)
      case Some(u) => s.(user := Some(u), loading := false)
      case None => s.(env := s.env.(storage := ClearSession(s.env.storage)), loading := false)
    else
      s.(loading := false)
  }

  /** `login` and `register`: the state once the auth call has settled to `o`. */
  function SignedIn(s: Session, o: Outcome<AuthResponse>, serialize: User -> string): Session
  {
    match o
    case Success(reply) =>
      var storage := Put(Put(s.env.storage, TokenKey, reply.token), UserKey, serialize(reply.user));
      s.(user := Some(reply.user), env := Env(storage, TodosRoute))
    case Failure(e) =>
      s.(env := AfterError(s.env, e))
  }

  /** What `login` and `register` resolve or reject with. */
  function SignInResult(o: Outcome<AuthResponse>): Outcome<()>
  {
    match o
    case Success(_) => Success(())
    case Failure(e) => Failure(PlainError(GetErrorMessage(e)))
  }

  /** `logout` */
  function SignedOut(s: Session): Session
  {
    s.(user := None, env := Env(ClearSession(s.env.storage), LoginRoute))
  }

  // ----------------------------------------------------------------- lemmas

  /** Both keys present and a parseable user: the user is restored and storage is kept. */
  lemma RehydrateRestoresUser(s: Session, parse: string -> Option<User>)
    requires Truthy(Lookup(s.env.storage, TokenKey)) && Truthy(Lookup(s.env.storage, UserKey))
    requires parse(s.env.storage[UserKey]).Some?
    ensures var r := Rehydrated(s, parse);
            r.user == parse(s.env.storage[UserKey]) && r.env == s.env && !r.loading
  {
  }

  /** Both keys present but an unparseable user: both keys go and no user is set. */
  lemma RehydrateDiscardsMalformed(s: Session, parse: string -> Option<User>)
    requires Truthy(Lookup(s.env.storage, TokenKey)) && Truthy(Lookup(s.env.storage, UserKey))
    requires parse(s.env.storage[UserKey]).None?
    ensures var r := Rehydrated(s, parse);
            r.env == s.env.(storage := ClearSession(s.env.storage)) && r.user == s.user && !r.loading
    ensures Rehydrated(Rehydrated(s, parse), parse) == Rehydrated(s, parse)
  {
  }

  /** Either key missing or empty: nothing but `loading` changes. */
  lemma RehydrateWithoutSession(s: Session, parse: string -> Option<User>)
    requires !Truthy(Lookup(s.env.storage, TokenKey)) || !Truthy(Lookup(s.env.storage, UserKey))
    ensures Rehydrated(s, parse) == s.(loading := false)
  {
  }

  /** Running init again on its own result changes nothing, malformed stored user included. */
  lemma RehydrateIdempotent(s: Session, parse: string -> Option<User>)
    ensures Rehydrated(Rehydrated(s, parse), parse) == Rehydrated(s, parse)
  {
  }

  /** On a freshly mounted provider, init authenticates exactly when a stored session parses. */
  lemma RehydrateAuthenticates(env: Env, parse: string -> Option<User>)
    ensures var r := Rehydrated(Mounted(env), parse);
            !r.loading &&
            (Authenticated(r) <==>
               Truthy(Lookup(env.storage, TokenKey)) && Truthy(Lookup(env.storage, UserKey)) &&
               parse(env.storage[UserKey]).Some?)
  {
  }

  /** A successful sign-in stores the token and the serialised user and goes to the todo list. */
  lemma SignInStoresSession(s: Session, reply: AuthResponse, serialize: User -> string)
    ensures var r := SignedIn(s, Success(reply), serialize);
            Authenticated(r) && r.user == Some(reply.user) && r.loading == s.loading &&
            Lookup(r.env.storage, TokenKey) == Some(reply.token) &&
            Lookup(r.env.storage, UserKey) == Some(serialize(reply.user)) &&
            r.env.location == TodosRoute &&
            (forall k :: k != TokenKey && k != UserKey ==> Lookup(r.env.storage, k) == Lookup(s.env.storage, k))
  {
  }

  /**
   * A failed sign-in keeps the user and writes nothing itself; only the
   * response interceptor acts, and only on a 401.
   */
  lemma SignInFailureKeepsState(s: Session, e: Thrown, serialize: User -> string)
    ensures var r := SignedIn(s, Failure(e), serialize);
            r.user == s.user && r.loading == s.loading && r.env == AfterError(s.env, e)
    ensures !Unauthorized(e) ==> SignedIn(s, Failure(e), serialize) == s
    ensures SignInResult(Failure(e)).Failure?
    ensures GetErrorMessage(SignInResult(Failure(e)).error) == GetErrorMessage(e)
  {
  }

  /** Logout always ends anonymous, with both keys gone and the login page as target. */
  lemma SignOutClears(s: Session)
    ensures var r := SignedOut(s);
            !Authenticated(r) && TokenKey !in r.env.storage && UserKey !in r.env.storage &&
            r.env.location == LoginRoute
    ensures SignedOut(SignedOut(s)) == SignedOut(s)
  {
  }

  /** Every transition keeps `token` and `user` stored together or not at all. */
  lemma TransitionsKeepKeysPaired(s: Session, parse: string -> Option<User>, o: Outcome<AuthResponse>,
                                  serialize: User -> string)
    requires KeysPaired(s.env.storage)
    ensures KeysPaired(Rehydrated(s, parse).env.storage)
    ensures KeysPaired(SignedIn(s, o, serialize).env.storage)
    ensures KeysPaired(SignedOut(s).env.storage)
  {
  }

  /**
   * A reload after a successful sign-in brings the same user back, provided
   * parsing inverts serialisation and neither stored value is empty.
   */
  lemma ReloadAfterSignIn(s: Session, reply: AuthResponse, parse: string -> Option<User>,
                          serialize: User -> string)
    requires parse(serialize(reply.user)) == Some(reply.user)
    requires reply.token != "" && serialize(reply.user) != ""
    ensures var env := SignedIn(s, Success(reply), serialize).env;
            Rehydrated(Mounted(env), parse) == Session(Some(reply.user), false, env)
  {
  }

  /** A reload after logout comes up anonymous, whatever `parse` does. */
  lemma ReloadAfterSignOut(s: Session, parse: string -> Option<User>)
    ensures var env := SignedOut(s).env;
            Rehydrated(Mounted(env), parse) == Session(None, false, env)
  {
  }

  // --------------------------------------------------------------- provider

  /** `AuthProvider`: the context value's state and its transitions. */
  class AuthProvider {
    var user: Option<User>
    var loading: bool
    const window: Window

    function State(): Session
      reads this, window
    {
      Session(user, loading, window.Snapshot())
    }

    /** `isAuthenticated` */
    function IsAuthenticated(): bool
      reads this, window
    {
      Authenticated(State())
    }

    constructor (window: Window)
      ensures this.window == window
      ensures State() == Mounted(window.Snapshot())
    {
      this.window := window;
      user := None;
      loading := true;
    }

    method InitAuth(parse: string -> Option<User>)
      modifies this, window
      ensures State() == Rehydrated(old(State()), parse)
    {
      var token := window.GetItem(TokenKey);
      var storedUser := window.GetItem(UserKey);
      if Truthy(token) && Truthy(storedUser) {
        var parsed := parse(storedUser.value);
        if parsed.Some? {
          user := parsed;
        } else {
          window.RemoveItem(TokenKey);
          window.RemoveItem(UserKey);
        }
      }
      loading := false;
    }

    method Login(o: Outcome<AuthResponse>, serialize: User -> string) returns (sent: Request, r: Outcome<()>)
      modifies this, window
      ensures sent == LoginRequest
      ensures State() == SignedIn(old(State()), o, serialize)
      ensures r == SignInResult(o)
    {
      sent := LoginRequest;
      r := SignIn(o, serialize);
    }

    method Register(o: Outcome<AuthResponse>, serialize: User -> string) returns (sent: Request, r: Outcome<()>)
      modifies this, window
      ensures sent == RegisterRequest
      ensures State() == SignedIn(old(State()), o, serialize)
      ensures r == SignInResult(o)
    {
      sent := RegisterRequest;
      r := SignIn(o, serialize);
    }

    /** The body `login` and `register` share, after the call has passed the response interceptor. */
    method SignIn(o: Outcome<AuthResponse>, serialize: User -> string) returns (r: Outcome<()>)
      modifies this, window
      ensures State() == SignedIn(old(State()), o, serialize)
      ensures r == SignInResult(o)
    {
      var reply := OnResponse(window, o);
      match reply
      case Success(response) =>
        window.SetItem(TokenKey, response.token);
        window.SetItem(UserKey, serialize(response.user));
        user := Some(response.user);
        window.Navigate(TodosRoute);
        r := Success(());
      case Failure(e) =>
        r := Failure(PlainError(GetErrorMessage(e)));
    }

    method Logout()
      modifies this, window
      ensures State() == SignedOut(old(State()))
    {
      window.RemoveItem(TokenKey);
      window.RemoveItem(UserKey);
      user := None;
      window.Navigate(LoginRoute);
    }
  }

  const OutsideProviderMessage := "useAuth must be used within an AuthProvider"

  /** `useAuth`: the enclosing provider, or an error when there is none. */
  function UseAuth(context: Option<AuthProvider>): (r: Outcome<AuthProvider>)
    ensures r.Success? <==> context.Some?
    ensures r.Success? ==> r.value == context.value
    ensures r.Failure? ==> GetErrorMessage(r.error) == OutsideProviderMessage
  {
    match context
    case Some(provider) => Success(provider)
    case None => Failure(PlainError(OutsideProviderMessage))
  }
}
