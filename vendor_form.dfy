/** The vendor registration page (app/register/vendor/page.tsx): the form
    schema and the message a failed submit shows. The email check is a library
    predicate and enters as a parameter. */
module VendorForm {
  import opened Common
  import VendorRoute
  import LoginForm

  datatype VendorFormData = VendorFormData(
    email: string,
    password: string,
    confirmPassword: string,
    firstName: string,
    lastName: string,
    phone: string,
    businessName: string,
    marketId: string,
    vendorType: string,
    businessLicenseNumber: Option<string>,
    acceptTerms: bool)

  /** One schema complaint: the field it is attached to and its message. */
  datatype Issue = Issue(field: string, message: string)

  function Check(ok: bool, field: string, message: string): seq<Issue> {
    if ok then [] else [Issue(field, message)]
  }

  /** The complaints vendorSchema raises, in field order, with the password
      confirmation last and attached to confirmPassword. */
  function Issues(isEmail: string -> bool, f: VendorFormData): seq<Issue> {
    Check(isEmail(f.email), "email", "Invalid email address")
    + Check(Utf16Length(f.password) >= 8, "password", "Password must be at least 8 characters")
    + Check(Utf16Length(f.firstName) >= 2, "firstName", "First name is required")
    + Check(Utf16Length(f.lastName) >= 2, "lastName", "Last name is required")
    + Check(Utf16Length(f.phone) >= 10, "phone", "Valid phone number is required")
    + Check(Utf16Length(f.businessName) >= 2, "businessName", "Business name is required")
    + Check(Utf16Length(f.marketId) >= 1, "marketId", "Please select a market")
    + Check(Utf16Length(f.vendorType) >= 1, "vendorType", "Vendor type is required")
    + Check(f.acceptTerms, "acceptTerms", "You must accept terms and conditions")
    + Check(f.password == f.confirmPassword, "confirmPassword", "Passwords don't match")
  }

  /** The rules a submitted form satisfies; the licence number may be anything or absent. */
  predicate Accepts(isEmail: string -> bool, f: VendorFormData) {
    && isEmail(f.email)
    && Utf16Length(f.password) >= 8 && f.password == f.confirmPassword
    && Utf16Length(f.firstName) >= 2 && Utf16Length(f.lastName) >= 2 && Utf16Length(f.businessName) >= 2
    && Utf16Length(f.phone) >= 10
    && Utf16Length(f.marketId) >= 1 && Utf16Length(f.vendorType) >= 1
    && f.acceptTerms
  }

  /** The schema complains about nothing exactly when the form is acceptable. */
  lemma NoIssuesIffAccepted(isEmail: string -> bool, f: VendorFormData)
    ensures Issues(isEmail, f) == [] <==> Accepts(isEmail, f)
  {
  }

  /** Mismatched passwords are reported on the confirmation field, with that message. */
  lemma MismatchReportedOnConfirmation(isEmail: string -> bool, f: VendorFormData)
    requires f.password != f.confirmPassword
    ensures Issue("confirmPassword", "Passwords don't match") in Issues(isEmail, f)
  {
  }

  /** The market and type selects start on an empty placeholder, which the schema refuses. */
  lemma PlaceholderRefused(isEmail: string -> bool, f: VendorFormData)
    requires f.marketId == "" || f.vendorType == ""
    ensures !Accepts(isEmail, f)
    ensures f.marketId == "" ==> Issue("marketId", "Please select a market") in Issues(isEmail, f)
  {
  }

  /** JSON.stringify(data): every field as a string or boolean, and the
      licence number only when it was given. */
  function FormJson(f: VendorFormData): (j: JsonObject)
    ensures forall k :: k in VendorRoute.REQUIRED_FIELDS ==> k in j && j[k].JStr?
    ensures "businessLicenseNumber" in j <==> f.businessLicenseNumber.Some?
  {
    map["email" := JStr(f.email), "password" := JStr(f.password), "confirmPassword" := JStr(f.confirmPassword),
        "firstName" := JStr(f.firstName), "lastName" := JStr(f.lastName), "phone" := JStr(f.phone),
        "businessName" := JStr(f.businessName), "marketId" := JStr(f.marketId), "vendorType" := JStr(f.vendorType),
        "acceptTerms" := JBool(f.acceptTerms)]
    + (if f.businessLicenseNumber.Some? then map["businessLicenseNumber" := JStr(f.businessLicenseNumber.value)]
       else map[])
  }

  /** The client's rules imply the server's: a form the schema accepts never
      meets the required-field error, provided the email check refuses "". */
  lemma AcceptedFormPassesServerCheck(isEmail: string -> bool, f: VendorFormData)
    requires !isEmail("")
    requires Accepts(isEmail, f)
    ensures VendorRoute.FirstMissing(FormJson(f), VendorRoute.REQUIRED_FIELDS).None?
  {
    var j := FormJson(f);
    assert f.email != "";
    forall i | 0 <= i < |VendorRoute.REQUIRED_FIELDS|
      ensures FieldTruthy(j, VendorRoute.REQUIRED_FIELDS[i])
    {
      var k := VendorRoute.REQUIRED_FIELDS[i];
      assert k in VendorRoute.REQUIRED_FIELDS;
      assert j[k] != JStr("");
    }
  }

  const GRINNING_FACE: string := "\U{1F600}"

  /** Four characters outside the Basic Multilingual Plane count as eight in JavaScript. */
  lemma AstralLength()
    ensures var p := GRINNING_FACE + GRINNING_FACE + GRINNING_FACE + GRINNING_FACE;
      |p| == 4 && Utf16Length(p) == 8
  {
    var e := GRINNING_FACE;
    assert Utf16Length(e) == 2;
    assert Utf16Length(e + e) == 4 by { assert (e + e)[1..] == e; }
    assert Utf16Length(e + e + e) == 6 by { assert (e + e + e)[1..] == e + e; }
    assert (e + e + e + e)[1..] == e + e + e;
  }

  /** Lengths are JavaScript's: a password of four such characters meets the
      eight-character rule. */
  lemma AstralPasswordLongEnough(isEmail: string -> bool, f: VendorFormData)
    requires f.password == GRINNING_FACE + GRINNING_FACE + GRINNING_FACE + GRINNING_FACE
    ensures |f.password| == 4
    ensures Issue("password", "Password must be at least 8 characters") !in Issues(isEmail, f)
  {
    AstralLength();
    assert Check(Utf16Length(f.password) >= 8, "password", "Password must be at least 8 characters") == [];
  }

  /** Credentials the registration form accepts also pass the login form's
      schema, whose password bound is the weaker one. */
  lemma RegisteredCredentialsPassLoginSchema(isEmail: string -> bool, f: VendorFormData)
    requires Accepts(isEmail, f)
    ensures LoginForm.LoginSchema(isEmail, f.email, f.password)
  {
  }

  /** The message a failed submit shows: for a refused submission, the
      body's message or 'Registration failed'; for an unreadable refusal or a
      network failure, the error raised (possibly empty). An ok response is a
      success whatever its body, since the body is not read. */
  function SubmitError(reply: Reply<()>): (error: Option<string>)
    ensures error.None? <==> reply.IsOk()
    ensures reply.Rejected? ==> error == Some(OrElse(reply.message, "Registration failed"))
    ensures (reply.Unreadable? && !reply.ok) || reply.NetworkError? ==> error == Some(reply.error)
  {
    if reply.IsOk() then None else Some(ThrownMessage(reply, "Registration failed", ""))
  }
}
