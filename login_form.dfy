/** The login page (app/login/login-form.tsx): the form schema, the storage
    and cookie writes of a submit, the role-based redirect table, the
    forgot-password request and the remember-me restore on mount. The email
    check is a library predicate and enters as a parameter. */
module LoginForm {
  import opened Common
  import SessionContext

  const MARKET_MASTER: string := "MARKET_MASTER"
  const CITY_ADMIN: string := "CITY_ADMIN"

  /** Where redirectBasedOnRole sends a freshly signed-in user. */
  function RedirectBasedOnRole(u: User): (target: string)
    ensures |target| >= 10 && target[..10] == "/dashboard"
  {
    if u.role == ADMIN then
      if u.adminLevel == Some(SUPER_ADMIN) then "/dashboard/admin/super"
      else if u.adminLevel == Some(MARKET_MASTER) then "/dashboard/admin/market"
      else if u.adminLevel == Some(CITY_ADMIN) then "/dashboard/admin/city"
      else "/dashboard/admin"
    else if u.role == STAKEHOLDER then
      if u.kycStatus == Some("VERIFIED") then "/dashboard/vendor"
      else if u.kycStatus == Some("PENDING") then "/dashboard/kyc-pending"
      else "/dashboard/profile"
    else "/dashboard"
  }

  /** The admin part of the table: the three named levels have their own
      dashboards, any other or absent level gets the general admin one. */
  lemma AdminRedirects(u: User)
    requires u.role == ADMIN
    ensures u.adminLevel == Some(SUPER_ADMIN) <==> RedirectBasedOnRole(u) == "/dashboard/admin/super"
    ensures u.adminLevel == Some(MARKET_MASTER) <==> RedirectBasedOnRole(u) == "/dashboard/admin/market"
    ensures u.adminLevel == Some(CITY_ADMIN) <==> RedirectBasedOnRole(u) == "/dashboard/admin/city"
    ensures u.adminLevel !in {Some(SUPER_ADMIN), Some(MARKET_MASTER), Some(CITY_ADMIN)} <==>
            RedirectBasedOnRole(u) == "/dashboard/admin"
  {
  }

  /** The stakeholder part: the KYC status decides, and the admin level plays no part. */
  lemma StakeholderRedirects(u: User)
    requires u.role == STAKEHOLDER
    ensures u.kycStatus == Some("VERIFIED") <==> RedirectBasedOnRole(u) == "/dashboard/vendor"
    ensures u.kycStatus == Some("PENDING") <==> RedirectBasedOnRole(u) == "/dashboard/kyc-pending"
    ensures u.kycStatus !in {Some("VERIFIED"), Some("PENDING")} <==> RedirectBasedOnRole(u) == "/dashboard/profile"
    ensures forall level :: RedirectBasedOnRole(u.(adminLevel := level)) == RedirectBasedOnRole(u)
  {
  }

  /** Every other role goes to the general dashboard, whatever its level or KYC status. */
  lemma OtherRoleRedirect(u: User)
    requires u.role != ADMIN && u.role != STAKEHOLDER
    ensures RedirectBasedOnRole(u) == "/dashboard"
  {
  }

  /** The form's targets refine the session context's: each lies under the
      page the context would have chosen for the same user. */
  lemma RedirectRefinesLanding(u: User)
    ensures SessionContext.LandingFor(u) <= RedirectBasedOnRole(u)
  {
  }

  /** loginSchema: a valid email and a password of at least six characters
      (UTF-16 units, as zod counts them); rememberMe is any boolean. */
  predicate LoginSchema(isEmail: string -> bool, email: string, password: string) {
    isEmail(email) && Utf16Length(password) >= 6
  }

  /** The values a submit receives. */
  datatype LoginFormData = LoginFormData(email: string, password: string, rememberMe: bool)

  /** 30 days, in seconds. */
  const REMEMBER_ME_MAX_AGE: nat := 30 * 24 * 60 * 60

  /** The cookie write of a submit: a 30-day remember-me cookie, or its expiry. */
  function RememberCookie(remember: bool): (c: CookieWrite)
    ensures c.name == "remember_me" && c.path == "/"
    ensures remember ==> c.value == "true" && c.maxAge == 2592000
    ensures !remember ==> c == REMEMBER_ME_EXPIRED && c.maxAge == 0
  {
    if remember then CookieWrite("remember_me", "true", REMEMBER_ME_MAX_AGE, "/") else REMEMBER_ME_EXPIRED
  }

  /** The remember_me key after a submit: "true", or removed. */
  function RememberStorage(s: Storage, remember: bool): (r: Storage)
    ensures remember ==> GetItem(r, REMEMBER_ME) == Some("true")
    ensures !remember ==> REMEMBER_ME !in r
    ensures forall k :: k in s && k != REMEMBER_ME ==> k in r && r[k] == s[k]
    ensures r.Keys - {REMEMBER_ME} == s.Keys - {REMEMBER_ME}
  {
    if remember then s[REMEMBER_ME := Text("true")] else s - {REMEMBER_ME}
  }

  /** The mount effect: the checkbox is ticked when remember_me reads "true",
      and otherwise keeps the value it has. */
  function RestoredRememberMe(s: Storage, current: bool): (r: bool)
    ensures GetItem(s, REMEMBER_ME) == Some("true") ==> r
    ensures GetItem(s, REMEMBER_ME) != Some("true") ==> r == current
  {
    if GetItem(s, REMEMBER_ME) == Some("true") then true else current
  }

  /** Remembering survives a reload: a fresh form (unticked by default) over
      the storage a submit left restores exactly the choice that was submitted. */
  lemma RememberRoundTrip(s: Storage, remember: bool)
    ensures RestoredRememberMe(RememberStorage(s, remember), false) == remember
  {
  }

  /** The session context's logout forgets the choice. */
  lemma LogoutForgetsRememberMe(st: SessionContext.ProviderState)
    ensures !RestoredRememberMe(SessionContext.AfterLogout(st).storage, false)
  {
    assert REMEMBER_ME in SESSION_KEYS;
  }

  /** The message a failed submit shows. The body is parsed before the status
      is looked at, so an unparsable body always surfaces its parse error. */
  function SubmitError(reply: Reply<LoginData>): (message: string)
    requires !reply.Ok?
    ensures message != ""
    ensures reply.Rejected? ==> message == OrElse(reply.message, "Login failed")
    ensures !reply.Rejected? ==> message == OrElse(Some(reply.error), "An error occurred during login")
  {
    ThrownMessage(reply, "Login failed", "An error occurred during login")
  }

  /** The message a failed forgot-password request shows. */
  function ForgotPasswordError(reply: Reply<()>): (message: string)
    requires !reply.Ok?
    ensures message != ""
    ensures reply.Rejected? ==> message == OrElse(reply.message, "Failed to send reset email")
    ensures !reply.Rejected? ==> message == OrElse(Some(reply.error), "Failed to process forgot password request")
  {
    ThrownMessage(reply, "Failed to send reset email", "Failed to process forgot password request")
  }

  function ForgotPasswordRequest(apiUrl: string, email: string): Outbound {
    Outbound(apiUrl + "/auth/forgot-password",
             Options(Some("POST"), JSON_CONTENT, JsonBody(map["email" := JStr(email)])))
  }

  class LoginPage {
    /** process.env.NEXT_PUBLIC_API_URL */
    const apiUrl: string
    var storage: Storage
    var cookie: Option<CookieWrite>
    var isLoading: bool
    var error: Option<string>
    var navigatedTo: Option<string>
    /** the form's rememberMe value */
    var rememberMe: bool
    /** whether the reset-instructions alert was shown */
    var alerted: bool

    /** The page mounts idle, with no error and the checkbox unticked. */
    constructor (apiUrl: string, storage: Storage)
      ensures this.apiUrl == apiUrl && this.storage == storage
      ensures cookie == None && !isLoading && error == None && navigatedTo == None && !rememberMe && !alerted
    {
      this.apiUrl := apiUrl;
      this.storage := storage;
      cookie := None;
      isLoading := false;
      error := None;
      navigatedTo := None;
      rememberMe := false;
      alerted := false;
    }

    /** The remember-me mount effect. */
    method RestoreRememberMe()
      modifies this`rememberMe
      ensures rememberMe == RestoredRememberMe(storage, old(rememberMe))
    {
      if GetItem(storage, REMEMBER_ME) == Some("true") {
        rememberMe := true;
      }
    }

    /** onSubmit: an ok reply stores the session, records the remember-me
        choice in storage and cookie, and redirects by role; a failure shows
        its message and writes nothing. isLoading ends false either way. */
    method OnSubmit(data: LoginFormData, reply: Reply<LoginData>) returns (sent: Outbound)
      modifies this
      ensures sent == SessionContext.LoginRequest(apiUrl, data.email, data.password)
      ensures !isLoading && rememberMe == old(rememberMe) && alerted == old(alerted)
      ensures reply.Ok? ==>
        && storage == RememberStorage(StoreSession(old(storage), reply.payload), data.rememberMe)
        && cookie == Some(RememberCookie(data.rememberMe))
        && navigatedTo == Some(RedirectBasedOnRole(reply.payload.user))
        && error == None
      ensures !reply.Ok? ==>
        && storage == old(storage) && cookie == old(cookie) && navigatedTo == old(navigatedTo)
        && error == Some(SubmitError(reply))
    {
      isLoading := true;
      error := None;
      sent := SessionContext.LoginRequest(apiUrl, data.email, data.password);
      if reply.Ok? {
        var result := reply.payload;
        StoreTokens(result);
        StoreRememberMe(data.rememberMe);
        navigatedTo := Some(RedirectBasedOnRole(result.user));
      } else {
        error := Some(SubmitError(reply));
      }
      isLoading := false;
    }

    /** The session writes of a successful submit. */
    method StoreTokens(result: LoginData)
      modifies this`storage
      ensures storage == StoreSession(old(storage), result)
    {
      storage := storage[ACCESS_TOKEN := Text(result.accessToken)];
      storage := storage[USER := Profile(result.user)];
      if Present(result.refreshToken) {
        storage := storage[REFRESH_TOKEN := Text(result.refreshToken.value)];
      }
    }

    /** The remember-me writes of a successful submit. */
    method StoreRememberMe(remember: bool)
      modifies this`storage, this`cookie
      ensures storage == RememberStorage(old(storage), remember) && cookie == Some(RememberCookie(remember))
    {
      if remember {
        storage := storage[REMEMBER_ME := Text("true")];
        cookie := Some(CookieWrite("remember_me", "true", REMEMBER_ME_MAX_AGE, "/"));
      } else {
        storage := storage - {REMEMBER_ME};
        cookie := Some(REMEMBER_ME_EXPIRED);
      }
    }

    /** handleForgotPassword: with no email in the field it only shows a
        prompt; otherwise it posts the email, alerts on success and shows the
        failure's message otherwise. */
    method HandleForgotPassword(email: Option<string>, reply: Reply<()>) returns (sent: Option<Outbound>)
      modifies this
      ensures storage == old(storage) && cookie == old(cookie) && navigatedTo == old(navigatedTo)
      ensures rememberMe == old(rememberMe)
      ensures !Present(email) ==>
        && sent == None && error == Some("Please enter your email address first")
        && isLoading == old(isLoading) && alerted == old(alerted)
      ensures Present(email) ==>
        && sent == Some(ForgotPasswordRequest(apiUrl, email.value))
        && !isLoading
        && (reply.Ok? ==> error == None && alerted)
        && (!reply.Ok? ==> error == Some(ForgotPasswordError(reply)) && alerted == old(alerted))
    {
      if !Present(email) {
        error := Some("Please enter your email address first");
        return None;
      }
      isLoading := true;
      error := None;
      sent := Some(ForgotPasswordRequest(apiUrl, email.value));
      if reply.Ok? {
        alerted := true;
      } else {
        error := Some(ForgotPasswordError(reply));
      }
      isLoading := false;
    }
  }

  /** Scenario: signing in with remember-me ticked and reloading the page
      brings the checkbox back ticked. */
  method SubmitThenReload(apiUrl: string, s: Storage, data: LoginData, email: string, password: string)
    returns (ticked: bool)
    ensures ticked
  {
    var page := new LoginPage(apiUrl, s);
    var _ := page.OnSubmit(LoginFormData(email, password, true), Ok(data));
    var reloaded := new LoginPage(apiUrl, page.storage);
    reloaded.RestoreRememberMe();
    ticked := reloaded.rememberMe;
  }
}
