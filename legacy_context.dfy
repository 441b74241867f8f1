/** The older, minimal authentication context (contexts/AuthContext.tsx). It
    rebuilds the user from the claims of the stored token instead of asking
    the backend, logs in through the application's own /api/auth/login route,
    and its logout removes only the access token. */
module LegacyContext {
  import opened Common
  import TokenRefresh

  /** The claims jwtDecode yields; decoding itself is a foreign library and
      enters the model as a partial function `string -> Option<Claims>`. */
  datatype Claims = Claims(sub: string, email: string, role: string, adminLevel: Option<string>)

  /** The user checkAuth builds from the claims: placeholder names and no KYC status. */
  function ClaimsUser(c: Claims): (u: User)
    ensures u.id == c.sub && u.email == c.email && u.role == c.role && u.adminLevel == c.adminLevel
    ensures u.firstName == "User" && u.lastName == "Name" && u.kycStatus == None
  {
    User(c.sub, c.email, "User", "Name", c.role, c.adminLevel, None)
  }

  /** The message a failed legacy login carries: a non-ok reply always gives the
      fixed 'Login failed' (the body is never read); an error thrown by fetch or
      by parsing an ok body is rethrown unchanged. */
  function LegacyLoginError(reply: Reply<LoginData>): (message: string)
    requires !reply.Ok?
    ensures !reply.IsOk() ==> reply.NetworkError? || message == "Login failed"
    ensures reply.NetworkError? || (reply.Unreadable? && reply.ok) ==> message == reply.error
  {
    match reply
    case Rejected(_, _) => "Login failed"
    case Unreadable(ok, _, e) => if ok then e else "Login failed"
    case NetworkError(e) => e
  }

  const LEGACY_LOGIN_URL: string := "/api/auth/login"

  function LegacyLoginRequest(email: string, password: string): Outbound {
    Outbound(LEGACY_LOGIN_URL, Options(Some("POST"), JSON_CONTENT, Credentials(email, password)))
  }

  class AuthProvider {
    var storage: Storage
    var user: Option<User>
    var isLoading: bool
    var navigatedTo: Option<string>

    constructor (storage: Storage)
      ensures this.storage == storage && user == None && isLoading && navigatedTo == None
    {
      this.storage := storage;
      user := None;
      isLoading := true;
      navigatedTo := None;
    }

    /** checkAuth: with no token the user stays as it was; a decodable token
        sets the user from its claims; a token that fails to decode is removed.
        isLoading ends false on every path. */
    method CheckAuth(decode: string -> Option<Claims>)
      modifies this
      ensures !isLoading && navigatedTo == old(navigatedTo)
      ensures !Stored(old(storage), ACCESS_TOKEN) ==> storage == old(storage) && user == old(user)
      ensures Stored(old(storage), ACCESS_TOKEN) ==>
        var claims := decode(EntryText(old(storage)[ACCESS_TOKEN]));
        if claims.Some? then storage == old(storage) && user == Some(ClaimsUser(claims.value))
        else storage == old(storage) - {ACCESS_TOKEN} && user == old(user)
    {
      if Stored(storage, ACCESS_TOKEN) {
        var claims := decode(EntryText(storage[ACCESS_TOKEN]));
        if claims.Some? {
          user := Some(ClaimsUser(claims.value));
        } else {
          storage := storage - {ACCESS_TOKEN};
        }
      }
      isLoading := false;
    }

    /** login: only the access token is stored, the user set, and every role
        sent to /dashboard; a failure writes nothing. isLoading is not touched. */
    method Login(email: string, password: string, reply: Reply<LoginData>)
      returns (error: Option<string>, sent: Outbound)
      modifies this
      ensures sent == LegacyLoginRequest(email, password)
      ensures isLoading == old(isLoading)
      ensures reply.Ok? ==>
        && error == None
        && storage == old(storage)[ACCESS_TOKEN := Text(reply.payload.accessToken)]
        && user == Some(reply.payload.user)
        && navigatedTo == Some("/dashboard")
      ensures !reply.Ok? ==>
        && error == Some(LegacyLoginError(reply))
        && storage == old(storage) && user == old(user) && navigatedTo == old(navigatedTo)
    {
      sent := LegacyLoginRequest(email, password);
      if !reply.Ok? {
        error := Some(LegacyLoginError(reply));
        return;
      }
      storage := storage[ACCESS_TOKEN := Text(reply.payload.accessToken)];
      user := Some(reply.payload.user);
      navigatedTo := Some("/dashboard");
      error := None;
    }

    /** logout: removes the access token only, clears the user, navigates to /login. */
    method Logout()
      modifies this
      ensures storage == LegacyLogoutStorage(old(storage))
      ensures user == None && navigatedTo == Some("/login") && isLoading == old(isLoading)
    {
      storage := storage - {ACCESS_TOKEN};
      user := None;
      navigatedTo := Some("/login");
    }
  }

  /** The storage the legacy logout leaves behind. */
  function LegacyLogoutStorage(s: Storage): Storage {
    s - {ACCESS_TOKEN}
  }

  /** The legacy logout keeps the refresh token and the stored profile, so the
      session can be revived: a refresh afterwards still sends its request, and
      succeeds on an ok reply. */
  lemma LegacyLogoutLeavesSessionRefreshable(apiUrl: string, s: Storage, token: string)
    requires Stored(s, REFRESH_TOKEN)
    ensures GetItem(LegacyLogoutStorage(s), REFRESH_TOKEN) == GetItem(s, REFRESH_TOKEN)
    ensures GetItem(LegacyLogoutStorage(s), USER) == GetItem(s, USER)
    ensures TokenRefresh.Refresh(apiUrl, LegacyLogoutStorage(s), Ok(token)).refreshed
    ensures GetItem(TokenRefresh.Refresh(apiUrl, LegacyLogoutStorage(s), Ok(token)).storage, ACCESS_TOKEN) == Some(token)
  {
    assert REFRESH_TOKEN != ACCESS_TOKEN && USER != ACCESS_TOKEN;
  }
}
