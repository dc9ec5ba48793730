/** The registration endpoint: the `User` zod schema and a handler that
    answers a valid body with a fixed 200 reply and anything else with 400
    and zod's issues. It does not look at the method. */
module Users {
  import opened JsValues
  import opened Zod

  /** A body the `User` schema accepted. */
  datatype NewUser = NewUser(
    email: string, password: string,
    firstName: Option<string>, lastName: Option<string>, phone: string)

  /** The schema's rules, field by field: `email` a string of email shape
      (zod's check is the parameter `isEmail`), `password` a string of
      exactly 8 characters, `firstName` and `lastName` absent or strings,
      `phone` a string. */
  predicate UserSchema(body: Json, isEmail: string -> bool) {
    && body.JObj?
    && "email" in body.fields && body.fields["email"].JStr? && isEmail(body.fields["email"].s)
    && "password" in body.fields && body.fields["password"].JStr? && |body.fields["password"].s| == 8
    && ("firstName" !in body.fields || body.fields["firstName"].JStr?)
    && ("lastName" !in body.fields || body.fields["lastName"].JStr?)
    && "phone" in body.fields && body.fields["phone"].JStr?
  }

  /** `User.parse(req.body)`: each field parsed by its zod type, the
      result built from the parsed fields, or a ZodError with zod's issues. */
  function ParseUser(body: Json, isEmail: string -> bool, zodIssues: Json -> Json): (r: Result<NewUser, Thrown>)
    ensures r.Success? <==> UserSchema(body, isEmail)
    ensures r.Success? ==>
      && body.fields["email"] == JStr(r.value.email)
      && body.fields["password"] == JStr(r.value.password)
      && body.fields["phone"] == JStr(r.value.phone)
      && r.value.firstName == (if "firstName" in body.fields then Some(body.fields["firstName"].s) else None)
      && r.value.lastName == (if "lastName" in body.fields then Some(body.fields["lastName"].s) else None)
    ensures r.Failure? ==> r.error == ZodError(zodIssues(body))
  {
    if !body.JObj? then Failure(ZodError(zodIssues(body)))
    else
      var email := StringField(body, "email");
      var password := StringField(body, "password");
      var firstName := OptionalStringField(body, "firstName");
      var lastName := OptionalStringField(body, "lastName");
      var phone := StringField(body, "phone");
      if && email.Some? && isEmail(email.value)
         && password.Some? && |password.value| == 8
         && firstName.Some? && lastName.Some? && phone.Some?
      then Success(NewUser(email.value, password.value, firstName.value, lastName.value, phone.value))
      else Failure(ZodError(zodIssues(body)))
  }

  function SuccessBody(): Json {
    JObj(map["name" := JStr("John Doe")])
  }

  /** The handler: 200 with `{name: "John Doe"}` for a body the schema
      accepts, 400 with `{errors: issues}` for any other. */
  function Handler(req: Request, isEmail: string -> bool, zodIssues: Json -> Json): (r: Response)
    ensures r.status == 200 <==> UserSchema(req.body, isEmail)
    ensures r.status == 200 ==> r.body == JObj(map["name" := JStr("John Doe")])
    ensures r.status != 200 ==> r == Response(400, JObj(map["errors" := zodIssues(req.body)]))
  {
    match ParseUser(req.body, isEmail, zodIssues)
    case Success(_) => Response(200, SuccessBody())
    case Failure(e) => Response(400, JObj(map["errors" := e.issues.value]))
  }

  // ---------------------------------------------------------------------
  // Properties of the schema and the handler

  /** Only a password of exactly 8 characters passes: in an otherwise valid
      body, the password decides by its length alone. */
  lemma PasswordLengthIsExactlyEight(fields: map<string, Json>, isEmail: string -> bool, pw: string)
    requires UserSchema(JObj(fields), isEmail)
    ensures UserSchema(JObj(fields["password" := JStr(pw)]), isEmail) <==> |pw| == 8
  {
  }

  /** Seven and nine characters are both refused. */
  lemma PasswordLengthExamples(fields: map<string, Json>, isEmail: string -> bool)
    ensures !UserSchema(JObj(fields["password" := JStr("abcdefg")]), isEmail)
    ensures !UserSchema(JObj(fields["password" := JStr("abcdefghi")]), isEmail)
  {
  }

  /** `firstName` and `lastName` may be left out of a valid body, but a
      `null` in either is refused. */
  lemma NamesAreOptional(fields: map<string, Json>, isEmail: string -> bool)
    requires UserSchema(JObj(fields), isEmail)
    ensures UserSchema(JObj(fields - {"firstName", "lastName"}), isEmail)
    ensures !UserSchema(JObj(fields["firstName" := JNull]), isEmail)
    ensures !UserSchema(JObj(fields["lastName" := JNull]), isEmail)
  {
    var rest := fields - {"firstName", "lastName"};
    assert rest["email"] == fields["email"];
    assert rest["password"] == fields["password"];
    assert rest["phone"] == fields["phone"];
  }

  /** `phone` is required: without it, or with a non-string, the body is
      refused. */
  lemma PhoneIsRequired(fields: map<string, Json>, isEmail: string -> bool, notString: Json)
    requires !notString.JStr?
    ensures !UserSchema(JObj(fields - {"phone"}), isEmail)
    ensures !UserSchema(JObj(fields["phone" := notString]), isEmail)
  {
  }

  /** `email` must be a string the email check accepts. */
  lemma EmailMustBeEmail(fields: map<string, Json>, isEmail: string -> bool, s: string)
    requires !isEmail(s)
    ensures !UserSchema(JObj(fields["email" := JStr(s)]), isEmail)
    ensures !UserSchema(JObj(fields - {"email"}), isEmail)
  {
  }

  /** The success reply does not depend on the request: any two valid
      requests, whatever their bodies and methods, get the same reply. */
  lemma SuccessReplyIsConstant(req1: Request, req2: Request, isEmail: string -> bool,
                               zodIssues: Json -> Json)
    requires UserSchema(req1.body, isEmail) && UserSchema(req2.body, isEmail)
    ensures Handler(req1, isEmail, zodIssues) == Handler(req2, isEmail, zodIssues)
  {
  }

  /** There is no method check: the method never changes the reply. */
  lemma MethodIsIgnored(req: Request, m: string, isEmail: string -> bool, zodIssues: Json -> Json)
    ensures Handler(req.(httpMethod := m), isEmail, zodIssues) == Handler(req, isEmail, zodIssues)
  {
  }
}
