/** Shared vocabulary of the authentication core: JavaScript truthiness, the
    browser's key/value store, user profiles, JSON values, outbound requests
    and the shapes of the backend's replies (which the model receives as
    parameters instead of performing network calls). */
module Common {

  datatype Option<T> = None | Some(value: T)

  /** An optional string is truthy in JavaScript when it is present and not "". */
  predicate Present(o: Option<string>) {
    o.Some? && o.value != ""
  }

  /** `o || fallback` for an optional string. */
  function OrElse(o: Option<string>, fallback: string): (r: string)
    ensures Present(o) ==> r == o.value
    ensures !Present(o) ==> r == fallback
    ensures fallback != "" ==> r != ""
  {
    if Present(o) then o.value else fallback
  }

  /** `s.length` in JavaScript, which counts UTF-16 code units: a character
      outside the Basic Multilingual Plane takes two. */
  function Utf16Length(s: string): (n: nat)
    ensures |s| <= n <= 2 * |s|
    ensures n == 0 <==> s == ""
  {
    if s == [] then 0 else (if s[0] as int > 0xFFFF then 2 else 1) + Utf16Length(s[1..])
  }

  /** Within the Basic Multilingual Plane, JavaScript's length is the number of characters. */
  lemma {:induction false} Utf16LengthOfBmp(s: string)
    requires forall i :: 0 <= i < |s| ==> s[i] as int <= 0xFFFF
    ensures Utf16Length(s) == |s|
  {
    if s != [] {
      assert forall i :: 0 <= i < |s[1..]| ==> s[1..][i] == s[i + 1];
      Utf16LengthOfBmp(s[1..]);
    }
  }

  /** Lengths add up over concatenation, so each character contributes on its own. */
  lemma {:induction false} Utf16LengthConcat(a: string, b: string)
    ensures Utf16Length(a + b) == Utf16Length(a) + Utf16Length(b)
  {
    if a == [] {
      assert a + b == b;
    } else {
      assert (a + b)[0] == a[0] && (a + b)[1..] == a[1..] + b;
      Utf16LengthConcat(a[1..], b);
    }
  }

  // ----- JSON values, as they arrive in request and response bodies -----

  /** Arrays and objects are not inspected by the core; they are all truthy. */
  datatype JsonValue = JNull | JBool(b: bool) | JNum(n: int) | JStr(s: string) | JComposite

  type JsonObject = map<string, JsonValue>

  /** JavaScript truthiness of a JSON value (floating point is not modelled). */
  predicate Truthy(v: JsonValue) {
    match v
    case JNull => false
    case JBool(b) => b
    case JNum(n) => n != 0
    case JStr(s) => s != ""
    case JComposite => true
  }

  /** `!!obj[key]`: a missing key reads as undefined, which is falsy. */
  predicate FieldTruthy(obj: JsonObject, key: string) {
    key in obj && Truthy(obj[key])
  }

  /** What `await request.json()` gives a route handler. Object: a JSON
      object. NonObject: a number, string, boolean or array, whose named fields
      all read as undefined. Throws: the body does not parse, or it is null so
      that reading a field from it throws; `error` is the message raised. */
  datatype RequestBody = Object(obj: JsonObject) | NonObject | Throws(error: string)

  /** The named fields a handler reads from a body that did not throw. */
  function Fields(b: RequestBody): (r: JsonObject)
    requires !b.Throws?
    ensures b.Object? ==> r == b.obj
    ensures b.NonObject? ==> forall k :: !FieldTruthy(r, k)
  {
    if b.Object? then b.obj else map[]
  }

  // ----- User profile and roles -----

  datatype User = User(
    id: string,
    email: string,
    firstName: string,
    lastName: string,
    role: string,
    adminLevel: Option<string>,
    kycStatus: Option<string>)

  const ADMIN: string := "ADMIN"
  const STAKEHOLDER: string := "STAKEHOLDER"
  const SUPER_ADMIN: string := "SUPER_ADMIN"

  // ----- The browser's localStorage -----

  /** A stored value: plain text, or the JSON serialisation of a user profile. */
  datatype Entry = Text(text: string) | Profile(user: User)

  type Storage = map<string, Entry>

  const ACCESS_TOKEN: string := "access_token"
  const REFRESH_TOKEN: string := "refresh_token"
  const USER: string := "user"
  const REMEMBER_ME: string := "remember_me"

  /** The four keys the session layer owns. */
  const SESSION_KEYS: set<string> := {ACCESS_TOKEN, REFRESH_TOKEN, USER, REMEMBER_ME}

  function Quoted(s: string): string {
    "\"" + s + "\""
  }

  function OptionalMember(name: string, o: Option<string>): string {
    if o.Some? then ",\"" + name + "\":" + Quoted(o.value) else ""
  }

  /** JSON.stringify of a profile (string escaping is not modelled). */
  function ProfileJson(u: User): (r: string)
    ensures |r| > 0 && r[0] == '{'
  {
    "{\"id\":" + Quoted(u.id) + ",\"email\":" + Quoted(u.email)
    + ",\"firstName\":" + Quoted(u.firstName) + ",\"lastName\":" + Quoted(u.lastName)
    + ",\"role\":" + Quoted(u.role)
    + OptionalMember("adminLevel", u.adminLevel) + OptionalMember("kycStatus", u.kycStatus) + "}"
  }

  /** The string `localStorage.getItem` hands back for an entry. */
  function EntryText(e: Entry): string {
    match e
    case Text(t) => t
    case Profile(u) => ProfileJson(u)
  }

  /** `localStorage.getItem(key)` as an optional string. */
  function GetItem(s: Storage, key: string): Option<string> {
    if key in s then Some(EntryText(s[key])) else None
  }

  /** `if (localStorage.getItem(key))`: stored and not the empty string. */
  predicate Stored(s: Storage, key: string) {
    Present(GetItem(s, key))
  }

  /** `${localStorage.getItem(key)}` inside a template literal: null renders as "null". */
  function Interpolated(s: Storage, key: string): (r: string)
    ensures key !in s ==> r == "null"
    ensures key in s ==> r == EntryText(s[key])
  {
    if key in s then EntryText(s[key]) else "null"
  }

  // ----- Outbound requests -----

  datatype Body = NoBody | JsonBody(data: JsonObject)

  /** The RequestInit of a fetch call: its `method` (here `verb`), headers and body. */
  datatype Options = Options(verb: Option<string>, headers: map<string, string>, body: Body)

  datatype Outbound = Outbound(url: string, init: Options)

  function Bearer(token: string): map<string, string> {
    map["Authorization" := "Bearer " + token]
  }

  /** The requests an optional call contributed, in order. */
  function AsSeq(o: Option<Outbound>): (r: seq<Outbound>)
    ensures o.Some? ==> r == [o.value]
    ensures o.None? ==> r == []
  {
    if o.Some? then [o.value] else []
  }

  const JSON_CONTENT: map<string, string> := map["Content-Type" := "application/json"]

  /** The body JSON.stringify({ email, password }) that every login call sends. */
  function Credentials(email: string, password: string): Body {
    JsonBody(map["email" := JStr(email), "password" := JStr(password)])
  }

  // ----- Backend replies -----

  /** What a fetch produced, as far as the calling code can observe it:
      Ok: a 2xx status with a JSON body;
      Rejected: a non-2xx status with a JSON body whose `message` field is given;
      Unreadable: a response whose body is not JSON (`response.json()` rejects with `error`);
      NetworkError: the fetch itself rejected with `error`. */
  datatype Reply<T> =
    | Ok(payload: T)
    | Rejected(status: nat, message: Option<string>)
    | Unreadable(ok: bool, status: nat, error: string)
    | NetworkError(error: string)
  {
    /** `response.ok`; false for a reply that never arrived. */
    predicate IsOk() {
      Ok? || (Unreadable? && ok)
    }

    /** `response.status === 401` */
    predicate Unauthorized() {
      (Rejected? && status == 401) || (Unreadable? && status == 401)
    }
  }

  /** The message a failed call reports when a refused reply is thrown as
      `new Error(message || thrown)` and caught as `err.message || caught`. A
      body that does not parse, or a fetch that rejects, reports its own error,
      falling back to `caught` only when that error is empty. */
  function ThrownMessage<T>(reply: Reply<T>, thrown: string, caught: string): (message: string)
    requires !reply.Ok?
    ensures thrown != "" && caught != "" ==> message != ""
    ensures reply.Rejected? && thrown != "" ==> message == OrElse(reply.message, thrown)
    ensures !reply.Rejected? ==> message == OrElse(Some(reply.error), caught)
  {
    match reply
    case Rejected(_, m) => OrElse(Some(OrElse(m, thrown)), caught)
    case Unreadable(_, _, e) => OrElse(Some(e), caught)
    case NetworkError(e) => OrElse(Some(e), caught)
  }

  /** The body of a successful login at the backend. */
  datatype LoginData = LoginData(accessToken: string, refreshToken: Option<string>, user: User)

  /** The storage writes a successful login performs: access token and profile
      always, the refresh token only when the reply carries a non-empty one. */
  function StoreSession(s: Storage, d: LoginData): (r: Storage)
    ensures GetItem(r, ACCESS_TOKEN) == Some(d.accessToken)
    ensures USER in r && r[USER] == Profile(d.user)
    ensures Present(d.refreshToken) ==> GetItem(r, REFRESH_TOKEN) == d.refreshToken
    ensures !Present(d.refreshToken) ==> GetItem(r, REFRESH_TOKEN) == GetItem(s, REFRESH_TOKEN)
    ensures forall k :: k in s && k !in {ACCESS_TOKEN, USER, REFRESH_TOKEN} ==> k in r && r[k] == s[k]
    ensures r.Keys == s.Keys + {ACCESS_TOKEN, USER} + (if Present(d.refreshToken) then {REFRESH_TOKEN} else {})
  {
    var withSession := s[ACCESS_TOKEN := Text(d.accessToken)][USER := Profile(d.user)];
    if Present(d.refreshToken) then withSession[REFRESH_TOKEN := Text(d.refreshToken.value)] else withSession
  }

  /** An assignment to `document.cookie`. */
  datatype CookieWrite = CookieWrite(name: string, value: string, maxAge: nat, path: string)

  /** `remember_me=; max-age=0; path=/`: expires the remember-me cookie. */
  const REMEMBER_ME_EXPIRED: CookieWrite := CookieWrite("remember_me", "", 0, "/")

  // ----- Decimal rendering of status codes -----

  function DigitChar(d: nat): (c: char)
    requires d < 10
    ensures '0' <= c <= '9' && c as int - '0' as int == d
  {
    ('0' as int + d) as char
  }

  /** `${n}` for a non-negative integer. */
  function NatToString(n: nat): (r: string)
    ensures |r| >= 1
    ensures forall i :: 0 <= i < |r| ==> '0' <= r[i] <= '9'
  {
    if n < 10 then [DigitChar(n)] else NatToString(n / 10) + [DigitChar(n % 10)]
  }

  /** Reads a string of decimal digits back as a number. */
  function DecimalValue(s: string): nat
    requires forall i :: 0 <= i < |s| ==> '0' <= s[i] <= '9'
  {
    if s == [] then 0
    else DecimalValue(s[..|s| - 1]) * 10 + (s[|s| - 1] as int - '0' as int)
  }

  /** The rendering loses nothing: it reads back as the number it came from. */
  lemma {:induction false} NatToStringValue(n: nat)
    ensures DecimalValue(NatToString(n)) == n
  {
    if n >= 10 {
      NatToStringValue(n / 10);
      var r := NatToString(n);
      assert r[..|r| - 1] == NatToString(n / 10);
    }
  }
}
