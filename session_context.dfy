/** The authentication context the application mounts (contexts/AuthContexts.tsx,
    headed lib/auth-context.tsx): the React state `user` and `isLoading`, the
    browser's localStorage, the last router navigation and the last write of
    the remember-me cookie, with login, logout, token refresh and the start-up
    check as methods whose backend replies are parameters. */
module SessionContext {
  import opened Common
  import TokenRefresh

  /** hasPermission: no user has no permission; a SUPER_ADMIN has every
      permission; every other level is refused (the policy lookup is a stub). */
  predicate HasPermission(user: Option<User>, resource: string, action: string, marketId: Option<string>) {
    user.Some? && user.value.adminLevel == Some(SUPER_ADMIN)
  }

  /** The grant does not depend on what is asked for, only on who asks. */
  lemma PermissionIgnoresRequest(user: Option<User>, r1: string, a1: string, m1: Option<string>,
                                 r2: string, a2: string, m2: Option<string>)
    ensures HasPermission(user, r1, a1, m1) == HasPermission(user, r2, a2, m2)
    ensures user.None? ==> !HasPermission(user, r1, a1, m1)
    ensures user.Some? ==> (HasPermission(user, r1, a1, m1) <==> user.value.adminLevel == Some(SUPER_ADMIN))
  {
  }

  /** The landing page after login: ADMIN goes to the admin dashboard, every other role to the dashboard. */
  function LandingFor(u: User): (path: string)
    ensures u.role == ADMIN <==> path == "/dashboard/admin"
    ensures path == "/dashboard/admin" || path == "/dashboard"
  {
    if u.role == ADMIN then "/dashboard/admin" else "/dashboard"
  }

  /** The message a failed login throws: the server's message, else 'Login failed'. */
  function LoginError(reply: Reply<LoginData>): (message: string)
    requires !reply.Ok?
    ensures message != ""
    ensures reply.Rejected? ==> message == OrElse(reply.message, "Login failed")
    ensures !reply.Rejected? ==> message == OrElse(Some(reply.error), "Login failed")
  {
    ThrownMessage(reply, "Login failed", "Login failed")
  }

  /** Everything the provider holds. */
  datatype ProviderState = ProviderState(
    storage: Storage,
    user: Option<User>,
    isLoading: bool,
    navigatedTo: Option<string>,
    rememberCookie: Option<CookieWrite>)

  /** The state logout leaves: the four session keys removed, the remember-me
      cookie expired, no user, and a navigation to /login. */
  function AfterLogout(st: ProviderState): (r: ProviderState)
    ensures forall k :: k in SESSION_KEYS ==> k !in r.storage
    ensures forall k :: k in st.storage && k !in SESSION_KEYS ==> k in r.storage && r.storage[k] == st.storage[k]
    ensures r.user == None && r.navigatedTo == Some("/login") && r.rememberCookie == Some(REMEMBER_ME_EXPIRED)
    ensures r.isLoading == st.isLoading
  {
    st.(storage := st.storage - SESSION_KEYS, user := None, navigatedTo := Some("/login"),
        rememberCookie := Some(REMEMBER_ME_EXPIRED))
  }

  /** Logging out twice leaves the same state as logging out once. */
  lemma LogoutIdempotent(st: ProviderState)
    ensures AfterLogout(AfterLogout(st)) == AfterLogout(st)
  {
  }

  function ValidateRequest(apiUrl: string, token: string): Outbound {
    Outbound(apiUrl + "/auth/validate", Options(None, Bearer(token), NoBody))
  }

  function LoginRequest(apiUrl: string, email: string, password: string): Outbound {
    Outbound(apiUrl + "/auth/login", Options(Some("POST"), JSON_CONTENT, Credentials(email, password)))
  }

  /** The fire-and-forget logout call; with no token stored its header reads "Bearer null". */
  function LogoutRequest(apiUrl: string, s: Storage): Outbound {
    Outbound(apiUrl + "/auth/logout", Options(Some("POST"), Bearer(Interpolated(s, ACCESS_TOKEN)), NoBody))
  }

  class AuthProvider {
    /** process.env.NEXT_PUBLIC_API_URL */
    const apiUrl: string
    var storage: Storage
    var user: Option<User>
    var isLoading: bool
    var navigatedTo: Option<string>
    var rememberCookie: Option<CookieWrite>

    function State(): ProviderState
      reads this
    {
      ProviderState(storage, user, isLoading, navigatedTo, rememberCookie)
    }

    /** The provider mounts with no user and isLoading true. */
    constructor (apiUrl: string, storage: Storage)
      ensures this.apiUrl == apiUrl && this.storage == storage
      ensures user == None && isLoading && navigatedTo == None && rememberCookie == None
    {
      this.apiUrl := apiUrl;
      this.storage := storage;
      user := None;
      isLoading := true;
      navigatedTo := None;
      rememberCookie := None;
    }

    /** logout: the backend call is fired and its failure ignored; then the
        four keys are removed one by one, the cookie expired, the user cleared
        and the router sent to /login. */
    method Logout() returns (sent: Outbound)
      modifies this
      ensures State() == AfterLogout(old(State()))
      ensures sent == LogoutRequest(apiUrl, old(storage))
    {
      sent := LogoutRequest(apiUrl, storage);
      ghost var before := storage;
      storage := storage - {ACCESS_TOKEN};
      storage := storage - {REFRESH_TOKEN};
      storage := storage - {USER};
      storage := storage - {REMEMBER_ME};
      assert storage == before - SESSION_KEYS;
      rememberCookie := Some(REMEMBER_ME_EXPIRED);
      user := None;
      navigatedTo := Some("/login");
    }

    /** refreshToken: the shared refresh exchange against this provider's storage. */
    method RefreshToken(reply: Reply<string>) returns (refreshed: bool, sent: Option<Outbound>)
      modifies this`storage
      ensures var o := TokenRefresh.Refresh(apiUrl, old(storage), reply);
        refreshed == o.refreshed && storage == o.storage && sent == o.sent
    {
      if !Stored(storage, REFRESH_TOKEN) {
        return false, None;
      }
      sent := Some(TokenRefresh.RefreshRequest(apiUrl, EntryText(storage[REFRESH_TOKEN])));
      if reply.Ok? {
        storage := storage[ACCESS_TOKEN := Text(reply.payload)];
        refreshed := true;
      } else {
        refreshed := false;
      }
    }

    /** One tick of the 15-minute interval: it refreshes only while a user is signed in. */
    method RefreshTick(reply: Reply<string>) returns (sent: Option<Outbound>)
      modifies this`storage
      ensures user.None? ==> storage == old(storage) && sent == None
      ensures user.Some? ==> var o := TokenRefresh.Refresh(apiUrl, old(storage), reply);
        storage == o.storage && sent == o.sent
    {
      sent := None;
      if user.Some? {
        var _, s := RefreshToken(reply);
        sent := s;
      }
    }

    /** login: isLoading is raised for the call; an ok reply stores the session,
        sets the user and navigates by role; any failure surfaces the server's
        message (or 'Login failed') and writes nothing. */
    method Login(email: string, password: string, reply: Reply<LoginData>)
      returns (error: Option<string>, sent: Outbound)
      modifies this
      ensures sent == LoginRequest(apiUrl, email, password)
      ensures !isLoading && rememberCookie == old(rememberCookie)
      ensures reply.Ok? ==>
        && error == None
        && storage == StoreSession(old(storage), reply.payload)
        && user == Some(reply.payload.user)
        && navigatedTo == Some(LandingFor(reply.payload.user))
      ensures !reply.Ok? ==>
        && error == Some(LoginError(reply))
        && storage == old(storage) && user == old(user) && navigatedTo == old(navigatedTo)
    {
      isLoading := true;
      sent := LoginRequest(apiUrl, email, password);
      if !reply.Ok? {
        error := Some(LoginError(reply));
      } else {
        var data := reply.payload;
        storage := storage[ACCESS_TOKEN := Text(data.accessToken)];
        storage := storage[USER := Profile(data.user)];
        if Present(data.refreshToken) {
          storage := storage[REFRESH_TOKEN := Text(data.refreshToken.value)];
        }
        user := Some(data.user);
        navigatedTo := Some(LandingFor(data.user));
        error := None;
      }
      isLoading := false;
    }

    /** One run of checkAuth. The provider's effect runs it on mount and again
        whenever `user` changes. It validates only when both the access token
        and the profile are stored. An ok validation restores the stored
        profile (a stored value that is not a profile fails to parse, and the
        failure is swallowed); a refused one tries a refresh and logs out when
        that fails, while a successful refresh leaves the user as it was; a
        network error is swallowed. isLoading ends false on every path. */
    method CheckAuth(validation: Reply<()>, refresh: Reply<string>) returns (sent: seq<Outbound>)
      modifies this
      ensures !isLoading
      ensures !(Stored(old(storage), ACCESS_TOKEN) && Stored(old(storage), USER)) ==>
        State() == old(State()).(isLoading := false) && sent == []
      ensures Stored(old(storage), ACCESS_TOKEN) && Stored(old(storage), USER) ==>
        && |sent| >= 1
        && sent[0] == ValidateRequest(apiUrl, EntryText(old(storage)[ACCESS_TOKEN]))
      ensures Stored(old(storage), ACCESS_TOKEN) && Stored(old(storage), USER) && validation.IsOk() ==>
        && storage == old(storage) && navigatedTo == old(navigatedTo) && rememberCookie == old(rememberCookie)
        && user == (if old(storage)[USER].Profile? then Some(old(storage)[USER].user) else old(user))
        && |sent| == 1
      ensures Stored(old(storage), ACCESS_TOKEN) && Stored(old(storage), USER) && validation.NetworkError? ==>
        State() == old(State()).(isLoading := false) && |sent| == 1
      ensures Stored(old(storage), ACCESS_TOKEN) && Stored(old(storage), USER)
              && !validation.IsOk() && !validation.NetworkError? ==>
        var o := TokenRefresh.Refresh(apiUrl, old(storage), refresh);
        if o.refreshed then
          State() == old(State()).(storage := o.storage, isLoading := false)
          && sent == [sent[0]] + AsSeq(o.sent)
        else
          State() == AfterLogout(old(State()).(isLoading := false))
          && sent == [sent[0]] + AsSeq(o.sent) + [LogoutRequest(apiUrl, old(storage))]
    {
      sent := [];
      if Stored(storage, ACCESS_TOKEN) && Stored(storage, USER) {
        sent := [ValidateRequest(apiUrl, EntryText(storage[ACCESS_TOKEN]))];
        if validation.IsOk() {
          if storage[USER].Profile? {
            user := Some(storage[USER].user);
          }
        } else if !validation.NetworkError? {
          var refreshed, refreshSent := RefreshToken(refresh);
          sent := sent + AsSeq(refreshSent);
          if !refreshed {
            var logoutSent := Logout();
            sent := sent + [logoutSent];
          }
        }
      }
      isLoading := false;
    }
  }

  /** Scenario: after a successful login and a page reload (a fresh provider
      over the same storage), the start-up check restores the logged-in
      profile when the token validates. */
  method LoginThenCheckAuth(apiUrl: string, s: Storage, email: string, password: string, data: LoginData)
    returns (restored: Option<User>)
    requires data.accessToken != ""
    ensures restored == Some(data.user)
  {
    var p := new AuthProvider(apiUrl, s);
    var _, _ := p.Login(email, password, Ok(data));
    var reloaded := new AuthProvider(apiUrl, p.storage);
    var _ := reloaded.CheckAuth(Ok(()), NetworkError("unused"));
    restored := reloaded.user;
  }
}
