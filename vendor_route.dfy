/** The vendor registration handler (app/api/auth/register/vendor/route.ts):
    the required fields are checked one by one in a fixed order, then the
    database is asked whether the email is taken, then the registration is
    forwarded to the backend. The database answer and the backend reply are
    parameters. */
module VendorRoute {
  import opened Common

  /** The fields the handler insists on, in the order it checks them. */
  const REQUIRED_FIELDS: seq<string> :=
    ["email", "password", "firstName", "lastName", "phone", "businessName", "marketId", "vendorType"]

  /** The first field of `fields` that is missing or falsy in `body`. */
  function FirstMissing(body: JsonObject, fields: seq<string>): (r: Option<string>)
    ensures r.None? <==> forall i :: 0 <= i < |fields| ==> FieldTruthy(body, fields[i])
    ensures r.Some? ==> exists i :: 0 <= i < |fields| && fields[i] == r.value && !FieldTruthy(body, r.value)
                                    && forall j :: 0 <= j < i ==> FieldTruthy(body, fields[j])
  {
    if fields == [] then None
    else if !FieldTruthy(body, fields[0]) then Some(fields[0])
    else
      var r := FirstMissing(body, fields[1..]);
      if r.None? then r
      else
        var i :| 0 <= i < |fields[1..]| && fields[1..][i] == r.value && !FieldTruthy(body, r.value)
                 && forall j :: 0 <= j < i ==> FieldTruthy(body, fields[1..][j]);
        assert fields[i + 1] == r.value && forall j :: 0 <= j < i + 1 ==> FieldTruthy(body, fields[j]);
        r
  }

  /** The loop over the required fields, returning at the first failure. */
  method CheckRequired(body: JsonObject) returns (missing: Option<string>)
    ensures missing == FirstMissing(body, REQUIRED_FIELDS)
  {
    var i := 0;
    while i < |REQUIRED_FIELDS|
      invariant 0 <= i <= |REQUIRED_FIELDS|
      invariant FirstMissing(body, REQUIRED_FIELDS) == FirstMissing(body, REQUIRED_FIELDS[i..])
    {
      var field := REQUIRED_FIELDS[i];
      assert REQUIRED_FIELDS[i..][1..] == REQUIRED_FIELDS[i + 1..];
      if !FieldTruthy(body, field) {
        return Some(field);
      }
      i := i + 1;
    }
    return None;
  }

  /** Only the listed fields are looked at: whatever the body says about any
      other field (a licence number, the terms box, the confirmation) cannot
      change the verdict. */
  lemma OtherFieldsIgnored(body: JsonObject, key: string, v: JsonValue)
    requires key !in REQUIRED_FIELDS
    ensures FirstMissing(body[key := v], REQUIRED_FIELDS) == FirstMissing(body, REQUIRED_FIELDS)
  {
    FieldsOutsideIgnored(body, key, v, REQUIRED_FIELDS);
  }

  lemma {:induction false} FieldsOutsideIgnored(body: JsonObject, key: string, v: JsonValue, fields: seq<string>)
    requires key !in fields
    ensures FirstMissing(body[key := v], fields) == FirstMissing(body, fields)
  {
    if fields != [] {
      assert FieldTruthy(body[key := v], fields[0]) == FieldTruthy(body, fields[0]);
      FieldsOutsideIgnored(body, key, v, fields[1..]);
    }
  }

  /** A body that is JSON but not an object has no fields: the first required
      field is reported missing, so such a body never reaches the lookup. */
  lemma NonObjectMissesEmail(request: RequestBody)
    requires request.NonObject?
    ensures FirstMissing(Fields(request), REQUIRED_FIELDS) == Some("email")
  {
  }

  function BackendRegisterRequest(backendUrl: string, body: JsonObject): Outbound {
    Outbound(backendUrl + "/api/vendor/register", Options(Some("POST"), JSON_CONTENT, JsonBody(body)))
  }

  /** The message of a caught error, falling back to 'Registration failed'. */
  function Caught(message: Option<string>): JsonObject {
    map["message" := JStr(OrElse(message, "Registration failed"))]
  }

  /** The handler. `userExists` is the database's answer for the body's email;
      it is consulted only once every required field is there. */
  method RegisterPost(backendUrl: string, request: RequestBody, userExists: bool, backend: Reply<JsonObject>)
    returns (status: nat, body: JsonObject, lookedUp: bool, sent: Option<Outbound>)
    ensures request.Throws? ==>
      status == 500 && body == Caught(Some(request.error)) && !lookedUp && sent == None
    ensures !request.Throws? && FirstMissing(Fields(request), REQUIRED_FIELDS).Some? ==>
      && status == 400 && !lookedUp && sent == None
      && body == map["message" := JStr(FirstMissing(Fields(request), REQUIRED_FIELDS).value + " is required")]
    ensures !request.Throws? && FirstMissing(Fields(request), REQUIRED_FIELDS).None? ==> lookedUp
    ensures lookedUp && userExists ==>
      status == 400 && body == map["message" := JStr("User already exists with this email")] && sent == None
    ensures lookedUp && !userExists ==>
      && sent == Some(BackendRegisterRequest(backendUrl, Fields(request)))
      && (backend.Ok? ==> status == 201 && body == backend.payload)
      && (backend.Rejected? ==> status == 500 && body == Caught(backend.message))
      && (backend.Unreadable? || backend.NetworkError? ==> status == 500 && body == Caught(Some(backend.error)))
  {
    lookedUp, sent := false, None;
    if request.Throws? {
      return 500, Caught(Some(request.error)), lookedUp, sent;
    }
    var fields := Fields(request);
    var missing := CheckRequired(fields);
    if missing.Some? {
      return 400, map["message" := JStr(missing.value + " is required")], lookedUp, sent;
    }
    lookedUp := true;
    if userExists {
      return 400, map["message" := JStr("User already exists with this email")], lookedUp, sent;
    }
    sent := Some(BackendRegisterRequest(backendUrl, fields));
    match backend {
      case Ok(result) => status, body := 201, result;
      case Rejected(_, m) => status, body := 500, Caught(m);
      case Unreadable(_, _, e) => status, body := 500, Caught(Some(e));
      case NetworkError(e) => status, body := 500, Caught(Some(e));
    }
  }
}
