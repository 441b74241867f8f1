/** The three server handlers of the auth API (app/api/auth/login/route.ts,
    which also holds the logout and validate routes): each is a sequence of
    checks on the incoming request and on the backend's reply, ending in one
    JSON response whose cookies the handler sets or deletes. The backend's
    reply is a parameter; BACKEND_API_URL and the production flag are too. */
module AuthRoutes {
  import opened Common

  /** One Set-Cookie a response carries: a cookie with its attributes, or the
      expiry that `cookies.delete` emits. */
  datatype SetCookie =
    | Cookie(value: JsonValue, httpOnly: bool, secure: bool, sameSite: string, maxAge: nat, path: string)
    | Expired

  /** A NextResponse: status, JSON body and the cookies it sets. */
  class ServerResponse {
    var status: nat
    var body: JsonObject
    var cookies: map<string, SetCookie>

    /** NextResponse.json(body, { status }) */
    constructor (body: JsonObject, status: nat)
      ensures this.body == body && this.status == status && cookies == map[]
    {
      this.body := body;
      this.status := status;
      cookies := map[];
    }

    method Set(name: string, c: SetCookie)
      modifies this`cookies
      ensures cookies == old(cookies)[name := c]
    {
      cookies := cookies[name := c];
    }

    method Delete(name: string)
      modifies this`cookies
      ensures cookies == old(cookies)[name := Expired]
    {
      cookies := cookies[name := Expired];
    }
  }

  function Message(text: string): JsonObject {
    map["message" := JStr(text)]
  }

  // ----- POST /api/auth/login -----

  /** `!email || !password` fails: either field is missing or falsy. */
  predicate CredentialsGiven(body: JsonObject) {
    FieldTruthy(body, "email") && FieldTruthy(body, "password")
  }

  function BackendLoginRequest(backendUrl: string, body: JsonObject): Outbound
    requires CredentialsGiven(body)
  {
    Outbound(backendUrl + "/auth/login",
             Options(Some("POST"), JSON_CONTENT, JsonBody(map["email" := body["email"], "password" := body["password"]])))
  }

  /** 7 days, in seconds. */
  const REFRESH_COOKIE_MAX_AGE: nat := 7 * 24 * 60 * 60

  /** The refresh cookie a successful login sets. */
  function RefreshCookie(value: JsonValue, production: bool): (c: SetCookie)
    ensures c.Cookie? && c.value == value
    ensures c.httpOnly && c.sameSite == "strict" && c.maxAge == 604800 && c.path == "/"
    ensures c.secure <==> production
  {
    Cookie(value, true, production, "strict", REFRESH_COOKIE_MAX_AGE, "/")
  }

  /** The status and body a refused backend login is passed through with. */
  function PassThrough(status: nat, message: Option<string>): (r: (nat, JsonObject))
    ensures r.0 == status
    ensures r.1 == Message(if Present(message) then message.value else "Login failed")
  {
    (status, Message(OrElse(message, "Login failed")))
  }

  /** The login handler. A request body that does not parse, or is null,
      throws when it is destructured; any other non-object body has no email
      and is refused with 400. An unparsable backend body and a network error
      are thrown and caught alike. */
  method LoginPost(backendUrl: string, production: bool, body: RequestBody, backend: Reply<JsonObject>)
    returns (res: ServerResponse, sent: Option<Outbound>)
    ensures fresh(res)
    ensures body.Throws? ==>
      sent == None && res.status == 500 && res.body == Message("Internal server error") && res.cookies == map[]
    ensures !body.Throws? && !CredentialsGiven(Fields(body)) ==>
      sent == None && res.status == 400 && res.body == Message("Email and password are required") && res.cookies == map[]
    ensures !body.Throws? && CredentialsGiven(Fields(body)) ==>
      && sent == Some(BackendLoginRequest(backendUrl, Fields(body)))
      && (backend.Ok? ==>
            && res.status == 200 && res.body == backend.payload
            && res.cookies == (if FieldTruthy(backend.payload, "refresh_token")
                               then map["refresh_token" := RefreshCookie(backend.payload["refresh_token"], production)]
                               else map[]))
      && (backend.Rejected? ==>
            (res.status, res.body) == PassThrough(backend.status, backend.message) && res.cookies == map[])
      && (backend.Unreadable? || backend.NetworkError? ==>
            res.status == 500 && res.body == Message("Internal server error") && res.cookies == map[])
  {
    sent := None;
    if body.Throws? {
      res := new ServerResponse(Message("Internal server error"), 500);
      return;
    }
    var b := Fields(body);
    if !CredentialsGiven(b) {
      res := new ServerResponse(Message("Email and password are required"), 400);
      return;
    }
    sent := Some(BackendLoginRequest(backendUrl, b));
    match backend {
      case Ok(data) =>
        res := new ServerResponse(data, 200);
        if FieldTruthy(data, "refresh_token") {
          res.Set("refresh_token", RefreshCookie(data["refresh_token"], production));
        }
      case Rejected(status, m) =>
        var (st, msg) := PassThrough(status, m);
        res := new ServerResponse(msg, st);
      case Unreadable(_, _, _) =>
        res := new ServerResponse(Message("Internal server error"), 500);
      case NetworkError(_) =>
        res := new ServerResponse(Message("Internal server error"), 500);
    }
  }

  // ----- POST /api/auth/logout -----

  /** The refresh token the logout forwards: the request's cookie when it is non-empty. */
  function LogoutToken(requestCookies: map<string, string>): (t: Option<string>)
    ensures t.Some? <==> "refresh_token" in requestCookies && requestCookies["refresh_token"] != ""
    ensures t.Some? ==> t.value == requestCookies["refresh_token"]
  {
    if "refresh_token" in requestCookies && requestCookies["refresh_token"] != "" then
      Some(requestCookies["refresh_token"])
    else None
  }

  function BackendLogoutRequest(backendUrl: string, token: string): Outbound {
    Outbound(backendUrl + "/auth/logout", Options(Some("POST"), Bearer(token), NoBody))
  }

  /** The logout handler: the backend is told only when a refresh cookie came
      in, and only the fetch failing (not the backend refusing) makes it fail;
      otherwise both auth cookies are expired. */
  method LogoutPost(backendUrl: string, requestCookies: map<string, string>, backend: Reply<()>)
    returns (res: ServerResponse, sent: Option<Outbound>)
    ensures fresh(res)
    ensures var token := LogoutToken(requestCookies);
      sent == (if token.Some? then Some(BackendLogoutRequest(backendUrl, token.value)) else None)
    ensures sent.Some? && backend.NetworkError? ==>
      res.status == 500 && res.body == Message("Logout failed") && res.cookies == map[]
    ensures !(sent.Some? && backend.NetworkError?) ==>
      && res.status == 200 && res.body == Message("Logged out successfully")
      && res.cookies == map["refresh_token" := Expired, "access_token" := Expired]
  {
    var token := LogoutToken(requestCookies);
    sent := None;
    if token.Some? {
      sent := Some(BackendLogoutRequest(backendUrl, token.value));
      if backend.NetworkError? {
        res := new ServerResponse(Message("Logout failed"), 500);
        return;
      }
    }
    res := new ServerResponse(Message("Logged out successfully"), 200);
    res.Delete("refresh_token");
    res.Delete("access_token");
  }

  // ----- GET /api/auth/validate -----

  /** `pat` occurs in `s` at position `i`. */
  predicate OccursAt(s: string, pat: string, i: nat) {
    i + |pat| <= |s| && s[i..i + |pat|] == pat
  }

  /** The first position at or after `from` where `pat` occurs. */
  function FindFrom(s: string, pat: string, from: nat): (r: Option<nat>)
    decreases |s| - from
    ensures r.Some? ==> from <= r.value && OccursAt(s, pat, r.value)
    ensures r.Some? ==> forall j: nat :: from <= j < r.value ==> !OccursAt(s, pat, j)
    ensures r.None? ==> forall j: nat :: from <= j ==> !OccursAt(s, pat, j)
  {
    if from + |pat| > |s| then None
    else if s[from..from + |pat|] == pat then Some(from)
    else FindFrom(s, pat, from + 1)
  }

  /** `s.replace(pat, "")` with a string pattern: the first occurrence is cut out. */
  function RemoveFirst(s: string, pat: string): (r: string)
    ensures (forall j: nat :: !OccursAt(s, pat, j)) ==> r == s
    ensures (exists j: nat :: OccursAt(s, pat, j)) ==> |r| == |s| - |pat|
    ensures forall i: nat :: OccursAt(s, pat, i) && (forall j: nat :: j < i ==> !OccursAt(s, pat, j)) ==>
              r == s[..i] + s[i + |pat|..]
  {
    match FindFrom(s, pat, 0)
    case None => s
    case Some(i) => s[..i] + s[i + |pat|..]
  }

  /** The token validate extracts: the header with its first "Bearer " cut
      out; an absent header yields none. */
  function ExtractToken(header: Option<string>): (token: Option<string>)
    ensures header.None? <==> token.None?
    ensures header.Some? && (forall j: nat :: !OccursAt(header.value, "Bearer ", j)) ==> token == header
    ensures header.Some? && (exists j: nat :: OccursAt(header.value, "Bearer ", j)) ==>
              |token.value| == |header.value| - 7
  {
    if header.Some? then Some(RemoveFirst(header.value, "Bearer ")) else None
  }

  /** A well-formed bearer header yields exactly the token after the prefix. */
  lemma {:induction false} BearerHeaderYieldsToken(token: string)
    ensures ExtractToken(Some("Bearer " + token)) == Some(token)
  {
    var h := "Bearer " + token;
    assert OccursAt(h, "Bearer ", 0);
    var i := FindFrom(h, "Bearer ", 0);
    assert i == Some(0);
    assert RemoveFirst(h, "Bearer ") == h[..0] + h[7..];
    assert h[..0] + h[7..] == token;
  }

  /** A header without the prefix anywhere is forwarded as it is. */
  lemma RawHeaderForwarded(header: string)
    requires forall j: nat :: !OccursAt(header, "Bearer ", j)
    ensures ExtractToken(Some(header)) == Some(header)
  {
  }

  /** The cut need not be at the start: the first "Bearer " anywhere goes,
      so text before it survives and is forwarded with the token. */
  lemma CutAtFirstBearer(p: string, t: string)
    requires forall j: nat :: j < |p| ==> !OccursAt(p + "Bearer " + t, "Bearer ", j)
    ensures ExtractToken(Some(p + "Bearer " + t)) == Some(p + t)
  {
    var h := p + "Bearer " + t;
    assert h[|p|..|p| + 7] == "Bearer ";
    assert OccursAt(h, "Bearer ", |p|);
    assert h[..|p|] == p && h[|p| + 7..] == t;
  }

  /** In particular, text before the prefix that contains no 'B' is kept. */
  lemma CutAfterPlainPrefix(p: string, t: string)
    requires 'B' !in p
    ensures ExtractToken(Some(p + "Bearer " + t)) == Some(p + t)
  {
    var h := p + "Bearer " + t;
    forall j: nat | j < |p|
      ensures !OccursAt(h, "Bearer ", j)
    {
      assert h[j] == p[j] != 'B';
      assert h[j..j + 7][0] == h[j];
    }
    CutAtFirstBearer(p, t);
  }

  function BackendValidateRequest(backendUrl: string, token: string): Outbound {
    Outbound(backendUrl + "/auth/validate", Options(None, Bearer(token), NoBody))
  }

  /** The body of an accepted validation: valid, and the backend's user when it sent one. */
  function ValidBody(data: JsonObject): (r: JsonObject)
    ensures "valid" in r && r["valid"] == JBool(true)
    ensures "user" in r <==> "user" in data
    ensures "user" in data ==> r["user"] == data["user"]
    ensures r.Keys <= {"valid", "user"}
  {
    map["valid" := JBool(true)] + (if "user" in data then map["user" := data["user"]] else map[])
  }

  function Invalid(message: string): JsonObject {
    map["valid" := JBool(false), "message" := JStr(message)]
  }

  /** The validate handler: no token means 401 without a backend call; the
      backend's verdict decides between 200 and 401; a fetch failure or an
      unparsable ok body means 500. It sets no cookies. */
  method ValidateGet(backendUrl: string, authorization: Option<string>, backend: Reply<JsonObject>)
    returns (res: ServerResponse, sent: Option<Outbound>)
    ensures fresh(res) && res.cookies == map[]
    ensures var token := ExtractToken(authorization);
      && (!Present(token) ==> sent == None && res.status == 401 && res.body == Invalid("No token provided"))
      && (Present(token) ==> sent == Some(BackendValidateRequest(backendUrl, token.value)))
    ensures Present(ExtractToken(authorization)) ==>
      && (backend.Ok? ==> res.status == 200 && res.body == ValidBody(backend.payload))
      && (!backend.IsOk() && !backend.NetworkError? ==> res.status == 401 && res.body == Invalid("Invalid token"))
      && (backend.NetworkError? || (backend.Unreadable? && backend.ok) ==>
            res.status == 500 && res.body == Invalid("Validation error"))
  {
    var token := ExtractToken(authorization);
    sent := None;
    if !Present(token) {
      res := new ServerResponse(Invalid("No token provided"), 401);
      return;
    }
    sent := Some(BackendValidateRequest(backendUrl, token.value));
    if backend.NetworkError? {
      res := new ServerResponse(Invalid("Validation error"), 500);
    } else if backend.IsOk() {
      if backend.Ok? {
        res := new ServerResponse(ValidBody(backend.payload), 200);
      } else {
        res := new ServerResponse(Invalid("Validation error"), 500);
      }
    } else {
      res := new ServerResponse(Invalid("Invalid token"), 401);
    }
  }

  /** The bare prefix leaves nothing to validate: "Bearer " alone is refused
      before the backend is asked. */
  lemma BarePrefixRefused()
    ensures !Present(ExtractToken(Some("Bearer ")))
  {
    BearerHeaderYieldsToken("");
  }
}
