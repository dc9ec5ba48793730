/** The login endpoint: validate the body, look the user up by email,
    compare the password with the stored bcrypt hash, sign a token, and map
    every failure through an ordered three-way classifier. */
module Login {
  import opened JsValues
  import opened Zod

  const AuthErrorMessage := "Email or password incorrect"
  const ValidationMessage := "Some fields in the form were not filled in correctly"
  const UnknownMessage := "Oh no, something unexpected!"
  const SuccessMessage := "Login success"
  const NoRouteMessage := "This route does not exist"

  /** A stored user; `password` holds the bcrypt hash. */
  datatype User = User(id: int, email: string, password: string)

  /** The body once `LoginRequestBody.parse` accepted it. */
  datatype Credentials = Credentials(email: string, password: string)

  /** The collaborators `login` calls: the issue list zod reports for a
      rejected body, `prisma.user.findUniqueOrThrow` by email,
      `bcrypt.compareSync(plaintext, hash)` and `jwt.sign(payload, secret)`
      (which throws, for one, when the secret is missing). */
  datatype Deps = Deps(
    zodIssues: Json -> Json,
    findUserByEmail: string -> Result<User, Thrown>,
    compareSync: (string, string) -> bool,
    sign: Json -> Result<string, Thrown>)

  /** `LoginRequestBody.parse(req.body)`: an object whose `email` and
      `password` are strings, or a thrown ZodError carrying zod's issues. */
  function ParseLoginBody(body: Json, zodIssues: Json -> Json): (r: Result<Credentials, Thrown>)
    ensures r.Success? <==> StringField(body, "email").Some? && StringField(body, "password").Some?
    ensures r.Success? ==>
      body.fields["email"] == JStr(r.value.email) && body.fields["password"] == JStr(r.value.password)
    ensures r.Failure? ==> IsRequestValidationError(r.error) && r.error.issues == Some(zodIssues(body))
  {
    match (StringField(body, "email"), StringField(body, "password"))
    case (Some(email), Some(password)) => Success(Credentials(email, password))
    case _ => Failure(ZodError(zodIssues(body)))
  }

  /** `comparePassWord(passwordHash, plaintextPassword)` hands its arguments
      to bcrypt in the other order. */
  function ComparePassWord(passwordHash: string, plaintextPassword: string,
                           compareSync: (string, string) -> bool): (ok: bool)
    ensures ok == compareSync(plaintextPassword, passwordHash)
  {
    compareSync(plaintextPassword, passwordHash)
  }

  /** `new AuthError(message)`: a plain object with only a `message`, so it
      has neither a `name` nor `issues`. */
  function AuthError(message: string := AuthErrorMessage): (e: Thrown)
    ensures IsAuthError(e) <==> message == AuthErrorMessage
    ensures !IsRequestValidationError(e) && !IsNotFoundError(e)
  {
    Thrown(None, Some(message), None)
  }

  /** The payload `signJWT` hands to `jwt.sign`: only the user's id, and
      no options are passed, so no expiry is ever set (the library adds
      its own `iat` claim, which is not modelled). */
  function JwtPayload(user: User): (p: Json)
    ensures p.JObj? && p.fields.Keys == {"id"} && "exp" !in p.fields
    ensures p.fields["id"] == JNum(user.id)
  {
    JObj(map["id" := JNum(user.id)])
  }

  /** `signJWT(user)`: `jwt.sign` applied to `{id: user.id}` alone. */
  function SignJWT(user: User, sign: Json -> Result<string, Thrown>): (r: Result<string, Thrown>)
    ensures r == sign(JObj(map["id" := JNum(user.id)]))
  {
    sign(JwtPayload(user))
  }

  /** The `try` block of `login`: the signed token, or the error thrown by
      the first step that failed. A token is only ever signed for a user
      whose stored hash matched the submitted password. */
  function LoginAttempt(body: Json, deps: Deps): (r: Result<string, Thrown>)
    ensures r.Success? ==>
      && ParseLoginBody(body, deps.zodIssues).Success?
      && var c := ParseLoginBody(body, deps.zodIssues).value;
      && deps.findUserByEmail(c.email).Success?
      && var u := deps.findUserByEmail(c.email).value;
      && deps.compareSync(c.password, u.password)
      && deps.sign(JwtPayload(u)) == Success(r.value)
    ensures ParseLoginBody(body, deps.zodIssues).Failure? ==> r == Failure(ParseLoginBody(body, deps.zodIssues).error)
    ensures ParseLoginBody(body, deps.zodIssues).Success? ==>
      var c := ParseLoginBody(body, deps.zodIssues).value;
      && (deps.findUserByEmail(c.email).Failure? ==> r == Failure(deps.findUserByEmail(c.email).error))
      && (deps.findUserByEmail(c.email).Success? ==>
            var u := deps.findUserByEmail(c.email).value;
            && (!deps.compareSync(c.password, u.password) ==> r == Failure(AuthError()))
            && (deps.compareSync(c.password, u.password) ==> r == deps.sign(JwtPayload(u))))
  {
    match ParseLoginBody(body, deps.zodIssues)
    case Failure(e) => Failure(e)
    case Success(credentials) =>
      match deps.findUserByEmail(credentials.email)
      case Failure(e) => Failure(e)
      case Success(user) =>
        if !ComparePassWord(user.password, credentials.password, deps.compareSync) then
          Failure(AuthError(AuthErrorMessage))
        else
          SignJWT(user, deps.sign)
  }

  predicate IsAuthError(e: Thrown) {
    e.message == Some(AuthErrorMessage)
  }

  /** `error.hasOwnProperty("issues")`. */
  predicate IsRequestValidationError(e: Thrown) {
    e.issues.Some?
  }

  predicate IsNotFoundError(e: Thrown) {
    e.name == Some("NotFoundError")
  }

  function HandleAuthError(): Response {
    Response(403, MessageBody(AuthErrorMessage))
  }

  function HandleUnknownError(): Response {
    Response(500, MessageBody(UnknownMessage))
  }

  /** 400 with zod's issues under `errors` (a key JSON leaves out when the
      value is undefined). */
  function HandleValidationError(e: Thrown): Response {
    var fields := map["message" := JStr(ValidationMessage)];
    Response(400, JObj(if e.issues.Some? then fields["errors" := e.issues.value] else fields))
  }

  /** The `catch` chain: validation first, then the two credential failures
      together, then everything else. Every error gets exactly one of the
      three replies, the credential reply never depends on which failure it
      was, and the 500 reply never carries anything from the error. */
  function RespondToError(e: Thrown): (r: Response)
    ensures r.status in {400, 403, 500}
    ensures r.status == 400 <==> IsRequestValidationError(e)
    ensures r.status == 400 ==>
      r.body == JObj(map["message" := JStr(ValidationMessage), "errors" := e.issues.value])
    ensures r.status == 403 <==> !IsRequestValidationError(e) && (IsNotFoundError(e) || IsAuthError(e))
    ensures r.status == 403 ==> r == Response(403, MessageBody(AuthErrorMessage))
    ensures r.status == 500 ==> r == Response(500, MessageBody(UnknownMessage))
  {
    if IsRequestValidationError(e) then HandleValidationError(e)
    else if IsNotFoundError(e) || IsAuthError(e) then HandleAuthError()
    else HandleUnknownError()
  }

  /** `login`: a token is answered 200 with the token, and every thrown
      error goes through the classifier; there is always a reply. */
  function LoginResponse(body: Json, deps: Deps): (r: Response)
    ensures LoginAttempt(body, deps).Success? ==>
      r == Response(200, JObj(map["message" := JStr(SuccessMessage),
                                  "token" := JStr(LoginAttempt(body, deps).value)]))
    ensures LoginAttempt(body, deps).Failure? ==> r == RespondToError(LoginAttempt(body, deps).error)
    ensures r.status in {200, 400, 403, 500}
  {
    match LoginAttempt(body, deps)
    case Success(token) =>
      Response(200, JObj(map["message" := JStr(SuccessMessage), "token" := JStr(token)]))
    case Failure(e) => RespondToError(e)
  }

  /** The route: POST logs in, every other method is answered 404. */
  function Handler(req: Request, deps: Deps): (r: Response)
    ensures req.httpMethod != "POST" ==> r == Response(404, MessageBody(NoRouteMessage))
    ensures req.httpMethod == "POST" ==> r == LoginResponse(req.body, deps)
  {
    if req.httpMethod == "POST" then LoginResponse(req.body, deps)
    else Response(404, MessageBody(NoRouteMessage))
  }

  // ---------------------------------------------------------------------
  // Properties of the handler

  /** An error with its own `issues` is a validation error even when its
      message is the credential message. */
  lemma ValidationComesFirst(issues: Json, name: Option<string>)
    ensures RespondToError(Thrown(name, Some(AuthErrorMessage), Some(issues))).status == 400
  {
  }

  /** A body the schema refuses is answered 400 with zod's issues, and no
      collaborator after the parse is reached. */
  lemma InvalidBodyRejected(body: Json, deps: Deps)
    requires StringField(body, "email").None? || StringField(body, "password").None?
    ensures LoginResponse(body, deps) ==
      Response(400, JObj(map["message" := JStr(ValidationMessage), "errors" := deps.zodIssues(body)]))
  {
  }

  /** Enumeration resistance: a login for an unknown email and a login with
      the wrong password for a known one get the same reply. */
  lemma CredentialFailuresIndistinguishable(body: Json, unknown: Deps, known: Deps,
                                            c: Credentials, notFound: Thrown, u: User)
    requires ParseLoginBody(body, unknown.zodIssues) == Success(c)
    requires unknown.findUserByEmail(c.email) == Failure(notFound)
    requires notFound.name == Some("NotFoundError") && notFound.issues.None?
    requires known.findUserByEmail(c.email) == Success(u)
    requires !known.compareSync(c.password, u.password)
    ensures LoginResponse(body, unknown) == LoginResponse(body, known)
    ensures LoginResponse(body, known) == Response(403, MessageBody(AuthErrorMessage))
  {
    assert ParseLoginBody(body, known.zodIssues) == Success(c);
  }

  /** A wrong password is answered before anything is signed: the reply is
      the same whatever `jwt.sign` would do. */
  lemma WrongPasswordNeverSigns(body: Json, deps: Deps, c: Credentials, u: User,
                                otherSign: Json -> Result<string, Thrown>)
    requires ParseLoginBody(body, deps.zodIssues) == Success(c)
    requires deps.findUserByEmail(c.email) == Success(u)
    requires !deps.compareSync(c.password, u.password)
    ensures LoginResponse(body, deps) == LoginResponse(body, deps.(sign := otherSign))
  {
  }

  /** With a matching password the reply is 200 with the token signed over
      `{id: user.id}`, provided signing does not throw. */
  lemma MatchingPasswordSucceeds(body: Json, deps: Deps, c: Credentials, u: User, token: string)
    requires ParseLoginBody(body, deps.zodIssues) == Success(c)
    requires deps.findUserByEmail(c.email) == Success(u)
    requires deps.compareSync(c.password, u.password)
    requires deps.sign(JwtPayload(u)) == Success(token)
    ensures LoginResponse(body, deps) ==
      Response(200, JObj(map["message" := JStr(SuccessMessage), "token" := JStr(token)]))
  {
  }

  /** A throw from `jwt.sign` (a missing secret, say) after a matching
      password reaches the classifier unchanged: an error with no issues,
      not named NotFoundError and without the credential message is
      answered 500, never 403. */
  lemma SignFailureAnswered(body: Json, deps: Deps, c: Credentials, u: User, e: Thrown)
    requires ParseLoginBody(body, deps.zodIssues) == Success(c)
    requires deps.findUserByEmail(c.email) == Success(u)
    requires deps.compareSync(c.password, u.password)
    requires deps.sign(JwtPayload(u)) == Failure(e)
    ensures LoginResponse(body, deps) == RespondToError(e)
    ensures !IsRequestValidationError(e) && !IsNotFoundError(e) && !IsAuthError(e) ==>
      LoginResponse(body, deps) == Response(500, MessageBody(UnknownMessage))
  {
  }

  /** A lookup throw other than Prisma's NotFoundError (a lost database
      connection, say) is answered 500. */
  lemma LookupFailureAnswered(body: Json, deps: Deps, c: Credentials, e: Thrown)
    requires ParseLoginBody(body, deps.zodIssues) == Success(c)
    requires deps.findUserByEmail(c.email) == Failure(e)
    requires !IsRequestValidationError(e) && !IsNotFoundError(e) && !IsAuthError(e)
    ensures LoginResponse(body, deps) == Response(500, MessageBody(UnknownMessage))
  {
  }

  /** Every reply of `login` is one of the four kinds, and a 200 carries a
      token signed for the user whose password matched. */
  lemma LoginReplies(body: Json, deps: Deps)
    ensures LoginResponse(body, deps).status in {200, 400, 403, 500}
    ensures LoginResponse(body, deps).status == 200 <==> LoginAttempt(body, deps).Success?
  {
  }

  /** What the three classifier predicates recognise: a ZodError is a
      validation error; Prisma's NotFoundError is a not-found error and not
      a validation error; the `AuthError` thrown on a wrong password is an
      auth error; an error whose `message` is undefined never is. */
  lemma ErrorPredicates(issues: Json, m: Option<string>, n: Option<string>, x: Option<Json>)
    ensures IsRequestValidationError(ZodError(issues))
    ensures var notFound := Thrown(Some("NotFoundError"), m, None);
      IsNotFoundError(notFound) && !IsRequestValidationError(notFound)
    ensures IsAuthError(AuthError())
    ensures !IsAuthError(Thrown(n, None, x))
  {
  }

  /** The three error replies: the credential reply is 403 with the shared
      message, the unknown reply is 500 with a fixed message, and the
      validation reply is 400 and carries `errors` exactly when the error
      has its own issues, holding those issues. */
  lemma ErrorReplies(e: Thrown)
    ensures HandleAuthError() == Response(403, MessageBody(AuthErrorMessage))
    ensures HandleUnknownError() == Response(500, MessageBody(UnknownMessage))
    ensures var r := HandleValidationError(e);
      && r.status == 400 && r.body.JObj?
      && r.body.fields["message"] == JStr(ValidationMessage)
      && ("errors" in r.body.fields <==> e.issues.Some?)
      && (e.issues.Some? ==> r.body.fields["errors"] == e.issues.value)
  {
  }
}
