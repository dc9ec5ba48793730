/** The protected "create post" endpoint: an Authorization-header guard,
    token verification, the author lookup, the insert, and an error
    dispatcher that answers three error kinds with 401 and stays silent on
    every other error. */
module Posts {
  import opened JsValues
  import opened JsSplit

  const NoCredentialsMessage := "This endpoint requires an authorization header"
  const MalformedMessage := "Your authorization header is malformed"
  const ExpiredMessage := "Your token has been expired, please log in again"
  const NotSupportedMessage := "This method is not supported"
  const PostCreatedMessage := "post created"

  /** What `jwt.verify(token, secret)` does with a token: return the decoded
      user id, or throw TokenExpiredError, or throw a JsonWebTokenError with
      some message (bad signature, malformed token, missing secret, ...). */
  datatype Verified = Valid(id: int) | Expired | Invalid(message: string)

  datatype User = User(id: int, email: string)

  /** The collaborators the handler calls: `jwt.verify`,
      `prisma.user.findUniqueOrThrow` by id and `prisma.post.create`. */
  datatype Deps = Deps(
    verify: string -> Verified,
    findUserById: int -> Result<User, Thrown>,
    createPost: map<string, Json> -> Result<Json, Thrown>)

  /** What the handler does to the response: writes one, or writes nothing
      (the error fell through `default: break`). */
  datatype Outcome = Sent(response: Response) | NoResponse

  function NoCredentialsHeaderError(): (e: Thrown)
    ensures IsNoCredentialsError(e) && !IsBadCredentialsError(e) && !IsTokenExpiredError(e)
  {
    NewError(NoCredentialsMessage)
  }

  function BadCredentialsError(): (e: Thrown)
    ensures IsBadCredentialsError(e) && !IsNoCredentialsError(e) && !IsTokenExpiredError(e)
  {
    NewError(MalformedMessage)
  }

  predicate IsBadCredentialsError(e: Thrown) {
    e.message == Some(MalformedMessage)
  }

  predicate IsNoCredentialsError(e: Thrown) {
    e.message == Some(NoCredentialsMessage)
  }

  predicate IsTokenExpiredError(e: Thrown) {
    e.name == Some("TokenExpiredError")
  }

  /** The error `jwt.verify` throws for a token it does not accept. */
  function VerifyError(v: Verified): Thrown
    requires !v.Valid?
  {
    match v
    case Expired => Thrown(Some("TokenExpiredError"), Some("jwt expired"), None)
    case Invalid(m) => Thrown(Some("JsonWebTokenError"), Some(m), None)
  }

  function HandleTokenExpiredError(): Response {
    Response(401, MessageBody(ExpiredMessage))
  }

  function HandleNoCredentialsError(): Response {
    Response(401, MessageBody(NoCredentialsMessage))
  }

  function HandleBadCredentialsError(): Response {
    Response(401, MessageBody(MalformedMessage))
  }

  /** The header has the shape the guard accepts: "Bearer", one space,
      then a character other than a space. */
  predicate BearerShaped(h: string) {
    |h| > 7 && h[..7] == "Bearer " && h[7] != ' '
  }

  /** The token the guard hands on: the characters after "Bearer " up to
      the next space or the end. */
  function BearerToken(h: string): string
    requires |h| >= 7
  {
    Word(h[7..], ' ')
  }

  /** Steps 1 and 1a of `createPost`: a falsy header (absent or empty) is
      refused with the no-credentials error; otherwise the header is split
      on " " and the first piece must be "Bearer" and the second piece
      present and non-empty, or the header is refused as malformed. Only
      the first two pieces are looked at. */
  function ExtractToken(header: Option<string>): (r: Result<string, Thrown>)
    ensures (header.None? || header == Some("")) <==> r == Failure(NoCredentialsHeaderError())
    ensures r.Success? <==> header.Some? && BearerShaped(header.value)
    ensures r.Success? ==>
      r.value == BearerToken(header.value) && r.value != [] && ' ' !in r.value
    ensures r.Failure? ==> r.error in {NoCredentialsHeaderError(), BadCredentialsError()}
  {
    if header.None? || header.value == "" then Failure(NoCredentialsHeaderError())
    else
      var h := header.value;
      var pieces := Split(h, ' ');
      var bearer := pieces[0];
      var token: Option<string> := if |pieces| >= 2 then Some(pieces[1]) else None;
      GuardAgreesWithShape(h);
      if bearer != "Bearer" || token.None? || token.value == "" then Failure(BadCredentialsError())
      else Success(token.value)
  }

  /** The split-based guard accepts exactly the headers of the closed shape
      and hands on the first word after "Bearer ". */
  lemma GuardAgreesWithShape(h: string)
    ensures var pieces := Split(h, ' ');
      (pieces[0] == "Bearer" && |pieces| >= 2 && pieces[1] != "") <==> BearerShaped(h)
    ensures var pieces := Split(h, ' ');
      BearerShaped(h) ==> pieces[1] == BearerToken(h) && pieces[1] != [] && ' ' !in pieces[1]
  {
    var pieces := Split(h, ' ');
    SplitFirstTwo(h, ' ');
    if BearerShaped(h) {
      ShapedHeaderPieces(h);
    } else if pieces[0] == "Bearer" && |pieces| >= 2 {
      SchemeThenSpace(h);
      if |h| > 7 {
        assert h[7..][0] == h[7];
      }
      WordEmpty(h[7..], ' ');
    }
  }

  /** In a well-shaped header the first piece is "Bearer" and the second
      is the token. */
  lemma ShapedHeaderPieces(h: string)
    requires BearerShaped(h)
    ensures Word(h, ' ') == "Bearer" && ' ' in h
    ensures h[|Word(h, ' ')| + 1..] == h[7..]
    ensures Word(h[7..], ' ') != []
  {
    assert h[..6] == h[..7][..6] == "Bearer";
    assert h[6] == h[..7][6] == ' ';
    assert h[6] in h;
    WordIs(h, ' ', "Bearer");
    assert h[7..][0] == h[7];
    WordEmpty(h[7..], ' ');
  }

  /** A header whose first piece is "Bearer" and that has a space starts
      with "Bearer ". */
  lemma SchemeThenSpace(h: string)
    requires Word(h, ' ') == "Bearer" && ' ' in h
    ensures |h| >= 7 && h[..7] == "Bearer "
    ensures h[|Word(h, ' ')| + 1..] == h[7..]
  {
    WordIs(h, ' ', "Bearer");
    assert h != "Bearer";
    assert h[..7] == h[..6] + [h[6]];
  }

  /** The data given to `prisma.post.create`: `{...req.body, authorId: user.id}`.
      Every field of the body is kept except `authorId`, which is the user's id
      whatever the body said. */
  function PostData(body: Json, userId: int): (data: map<string, Json>)
    ensures data.Keys == (if body.JObj? then body.fields.Keys else {}) + {"authorId"}
    ensures data["authorId"] == JNum(userId)
    ensures body.JObj? ==> forall k :: k in body.fields && k != "authorId" ==> data[k] == body.fields[k]
  {
    var spread: map<string, Json> := if body.JObj? then body.fields else map[];
    spread["authorId" := JNum(userId)]
  }

  function CreatedBody(post: Json): Json {
    JObj(map["message" := JStr(PostCreatedMessage), "post" := post])
  }

  /** The `try` block of `createPost`: the created post, or the error that
      was thrown. A header error stops it before `jwt.verify`; an expired
      token gives an error the expiry predicate recognises and neither
      header predicate does; a post is created only for a token that
      verified and a user the lookup found, with that user as author. */
  function Attempt(req: Request, deps: Deps): (r: Result<Json, Thrown>)
    ensures ExtractToken(req.authorization).Failure? ==>
      r == Failure(ExtractToken(req.authorization).error)
    ensures ExtractToken(req.authorization).Success? &&
            deps.verify(ExtractToken(req.authorization).value) == Expired ==>
      r.Failure? && IsTokenExpiredError(r.error) &&
      !IsNoCredentialsError(r.error) && !IsBadCredentialsError(r.error)
    ensures r.Success? ==>
      && ExtractToken(req.authorization).Success?
      && var decoded := deps.verify(ExtractToken(req.authorization).value);
      && decoded.Valid?
      && deps.findUserById(decoded.id).Success?
      && r == deps.createPost(PostData(req.body, deps.findUserById(decoded.id).value.id))
    ensures ExtractToken(req.authorization).Success? ==>
      var decoded := deps.verify(ExtractToken(req.authorization).value);
      && (!decoded.Valid? ==> r == Failure(VerifyError(decoded)))
      && (decoded.Valid? && deps.findUserById(decoded.id).Failure? ==>
            r == Failure(deps.findUserById(decoded.id).error))
      && (decoded.Valid? && deps.findUserById(decoded.id).Success? ==>
            r == deps.createPost(PostData(req.body, deps.findUserById(decoded.id).value.id)))
  {
    match ExtractToken(req.authorization)
    case Failure(e) => Failure(e)
    case Success(token) =>
      var decoded := deps.verify(token);
      if !decoded.Valid? then Failure(VerifyError(decoded))
      else
        match deps.findUserById(decoded.id)
        case Failure(e) => Failure(e)
        case Success(user) => deps.createPost(PostData(req.body, user.id))
  }

  /** The `catch` dispatcher, `switch (true)` over three predicates in a
      fixed order; an error none of them recognises gets no response. */
  function ClassifyError(e: Thrown): (r: Option<Response>)
    ensures r.Some? <==> IsNoCredentialsError(e) || IsBadCredentialsError(e) || IsTokenExpiredError(e)
    ensures r.Some? ==> r.value.status == 401
    ensures IsNoCredentialsError(e) ==> r == Some(Response(401, MessageBody(NoCredentialsMessage)))
    ensures IsBadCredentialsError(e) ==> r == Some(Response(401, MessageBody(MalformedMessage)))
    ensures IsTokenExpiredError(e) && !IsNoCredentialsError(e) && !IsBadCredentialsError(e) ==>
      r == Some(Response(401, MessageBody(ExpiredMessage)))
  {
    if IsNoCredentialsError(e) then Some(HandleNoCredentialsError())
    else if IsBadCredentialsError(e) then Some(HandleBadCredentialsError())
    else if IsTokenExpiredError(e) then Some(HandleTokenExpiredError())
    else None
  }

  /** `createPost`: a created post is answered 201 with the post; a thrown
      error is answered exactly when the dispatcher recognises it, with the
      dispatcher's reply, and otherwise nothing is written. */
  function CreatePost(req: Request, deps: Deps): (r: Outcome)
    ensures Attempt(req, deps).Success? ==>
      r == Sent(Response(201, CreatedBody(Attempt(req, deps).value)))
    ensures Attempt(req, deps).Failure? ==>
      (r.NoResponse? <==> ClassifyError(Attempt(req, deps).error).None?) &&
      (r.Sent? ==> ClassifyError(Attempt(req, deps).error) == Some(r.response))
    ensures r.Sent? ==> r.response.status in {201, 401}
  {
    match Attempt(req, deps)
    case Success(post) => Sent(Response(201, CreatedBody(post)))
    case Failure(e) =>
      match ClassifyError(e)
      case Some(resp) => Sent(resp)
      case None => NoResponse
  }

  /** The route: POST creates a post, every other method is refused. */
  function Handler(req: Request, deps: Deps): (r: Outcome)
    ensures req.httpMethod != "POST" ==> r == Sent(Response(406, MessageBody(NotSupportedMessage)))
    ensures req.httpMethod == "POST" ==> r == CreatePost(req, deps)
  {
    if req.httpMethod == "POST" then CreatePost(req, deps)
    else Sent(Response(406, MessageBody(NotSupportedMessage)))
  }

  // ---------------------------------------------------------------------
  // Properties of the handler

  /** No header, or an empty one, is answered with the no-credentials 401,
      whatever the collaborators would do: none of them is reached. */
  lemma MissingHeaderRejected(req: Request, deps: Deps)
    requires req.authorization.None? || req.authorization == Some("")
    ensures CreatePost(req, deps) == Sent(Response(401, MessageBody(NoCredentialsMessage)))
  {
  }

  /** A present header without the "Bearer <token>" shape is answered with
      the malformed-header 401 for every collaborator, so `jwt.verify` is
      never reached. */
  lemma MalformedHeaderSkipsVerify(req: Request, deps: Deps)
    requires req.authorization.Some? && req.authorization.value != ""
    requires !BearerShaped(req.authorization.value)
    ensures CreatePost(req, deps) == Sent(Response(401, MessageBody(MalformedMessage)))
  {
  }

  /** Headers refused as malformed: a scheme other than "Bearer", no
      token piece, an empty token piece, and a double space. */
  lemma MalformedExamples()
    ensures ExtractToken(Some("Token abc")) == Failure(BadCredentialsError())
    ensures ExtractToken(Some("Bearer")) == Failure(BadCredentialsError())
    ensures ExtractToken(Some("Bearer ")) == Failure(BadCredentialsError())
    ensures ExtractToken(Some("Bearer  x")) == Failure(BadCredentialsError())
  {
    assert "Token abc"[..7][0] == 'T';
    assert "Bearer  x"[7] == ' ';
  }

  /** Only the first two pieces are inspected: in "Bearer a b" the token is
      "a" and the third piece is ignored. */
  lemma ExtraPiecesIgnored()
    ensures ExtractToken(Some("Bearer a b")) == Success("a")
  {
    var h := "Bearer a b";
    assert h[..7] == "Bearer ";
    assert h[7..] == "a b";
    assert Word("a b", ' ') == "a" by {
      WordIs("a b", ' ', "a");
    }
  }

  /** Only the token reaches the collaborators: two requests whose headers
      carry the same first word after "Bearer " (with anything after it)
      get the same outcome. */
  lemma OnlyTokenMatters(req1: Request, req2: Request, deps: Deps)
    requires req1.body == req2.body
    requires req1.authorization.Some? && BearerShaped(req1.authorization.value)
    requires req2.authorization.Some? && BearerShaped(req2.authorization.value)
    requires BearerToken(req1.authorization.value) == BearerToken(req2.authorization.value)
    ensures CreatePost(req1, deps) == CreatePost(req2, deps)
  {
  }

  /** A well-shaped header whose token `jwt.verify` reports as expired is
      answered with the expired-token 401. */
  lemma ExpiredTokenRejected(req: Request, deps: Deps)
    requires req.authorization.Some? && BearerShaped(req.authorization.value)
    requires deps.verify(BearerToken(req.authorization.value)) == Expired
    ensures CreatePost(req, deps) == Sent(Response(401, MessageBody(ExpiredMessage)))
  {
  }

  /** A token `jwt.verify` rejects for any reason but expiry gets no
      response at all, unless the library's message happens to equal one of
      the two header messages: the dispatcher matches strings, not kinds. */
  lemma InvalidTokenUnanswered(req: Request, deps: Deps, m: string)
    requires req.authorization.Some? && BearerShaped(req.authorization.value)
    requires deps.verify(BearerToken(req.authorization.value)) == Invalid(m)
    ensures CreatePost(req, deps) == NoResponse <==> m != NoCredentialsMessage && m != MalformedMessage
  {
  }

  /** A valid token for a user the lookup cannot find (Prisma's
      NotFoundError) gets no response: the deleted-user case is not handled. */
  lemma DeletedUserUnanswered(req: Request, deps: Deps, id: int)
    requires req.authorization.Some? && BearerShaped(req.authorization.value)
    requires deps.verify(BearerToken(req.authorization.value)) == Valid(id)
    requires deps.findUserById(id) == Failure(Thrown(Some("NotFoundError"), Some("No User found"), None))
    ensures CreatePost(req, deps) == NoResponse
  {
  }

  /** A store failure, from the user lookup or from `prisma.post.create`,
      is passed to the dispatcher unchanged; unless it carries one of the
      three recognised names or messages, nothing is written. */
  lemma StoreFailuresUnanswered(req: Request, deps: Deps, id: int, e: Thrown)
    requires req.authorization.Some? && BearerShaped(req.authorization.value)
    requires deps.verify(BearerToken(req.authorization.value)) == Valid(id)
    requires deps.findUserById(id).Failure? ==> deps.findUserById(id).error == e
    requires deps.findUserById(id).Success? ==>
      deps.createPost(PostData(req.body, deps.findUserById(id).value.id)) == Failure(e)
    ensures CreatePost(req, deps) == NoResponse <==>
      !IsNoCredentialsError(e) && !IsBadCredentialsError(e) && !IsTokenExpiredError(e)
  {
  }

  /** The dispatcher's order: a message match wins over the expired name,
      and the no-credentials message over everything. */
  lemma DispatchOrder(m: string)
    ensures ClassifyError(Thrown(Some("TokenExpiredError"), Some(NoCredentialsMessage), None))
      == Some(Response(401, MessageBody(NoCredentialsMessage)))
    ensures ClassifyError(Thrown(Some("TokenExpiredError"), Some(MalformedMessage), None))
      == Some(Response(401, MessageBody(MalformedMessage)))
    ensures m != NoCredentialsMessage && m != MalformedMessage ==>
      ClassifyError(Thrown(Some("TokenExpiredError"), Some(m), None))
        == Some(Response(401, MessageBody(ExpiredMessage)))
  {
  }

  /** On success the reply is 201 with the created post, and the post was
      created from the request body with `authorId` set to the id of the
      user the token names, whatever `authorId` the body carried. */
  lemma CreatedPostBelongsToTokenUser(req: Request, deps: Deps, id: int, user: User)
    requires req.authorization.Some? && BearerShaped(req.authorization.value)
    requires deps.verify(BearerToken(req.authorization.value)) == Valid(id)
    requires deps.findUserById(id) == Success(user)
    requires deps.createPost(PostData(req.body, user.id)).Success?
    ensures CreatePost(req, deps) ==
      Sent(Response(201, CreatedBody(deps.createPost(PostData(req.body, user.id)).value)))
    ensures PostData(req.body, user.id)["authorId"] == JNum(user.id)
  {
  }

  /** Every outcome of `createPost` is a 201 or one of the three 401
      replies, or no reply. */
  lemma OutcomesOfCreatePost(req: Request, deps: Deps)
    ensures var o := CreatePost(req, deps);
      o.NoResponse? || o.response.status == 201 ||
      o.response in {HandleNoCredentialsError(), HandleBadCredentialsError(), HandleTokenExpiredError()}
  {
  }

  /** The three error predicates read only `message` and `name`: errors
      that agree on those are recognised alike. No error is recognised by
      both header predicates, and the error `jwt.verify` throws for an
      expired token is recognised by the expiry predicate alone. */
  lemma ErrorPredicates(e1: Thrown, e2: Thrown)
    requires e1.name == e2.name && e1.message == e2.message
    ensures IsNoCredentialsError(e1) == IsNoCredentialsError(e2)
    ensures IsBadCredentialsError(e1) == IsBadCredentialsError(e2)
    ensures IsTokenExpiredError(e1) == IsTokenExpiredError(e2)
    ensures !(IsNoCredentialsError(e1) && IsBadCredentialsError(e1))
    ensures var x := VerifyError(Expired);
      IsTokenExpiredError(x) && !IsNoCredentialsError(x) && !IsBadCredentialsError(x)
  {
  }

  /** The three error replies are all 401, each carries its own message,
      and no two are alike, so a client can tell the three kinds apart. */
  lemma HeaderErrorReplies()
    ensures HandleNoCredentialsError() == Response(401, MessageBody(NoCredentialsMessage))
    ensures HandleBadCredentialsError() == Response(401, MessageBody(MalformedMessage))
    ensures HandleTokenExpiredError() == Response(401, MessageBody(ExpiredMessage))
    ensures HandleNoCredentialsError() != HandleBadCredentialsError()
    ensures HandleNoCredentialsError() != HandleTokenExpiredError()
    ensures HandleBadCredentialsError() != HandleTokenExpiredError()
  {
    assert MessageBody(NoCredentialsMessage).fields["message"] != MessageBody(MalformedMessage).fields["message"];
    assert MessageBody(NoCredentialsMessage).fields["message"] != MessageBody(ExpiredMessage).fields["message"];
    assert MessageBody(MalformedMessage).fields["message"] != MessageBody(ExpiredMessage).fields["message"];
  }

  /** Any method but POST is refused with 406 whatever the request and the
      collaborators, so `createPost` is not run. */
  lemma OtherMethodsRefused(req: Request, deps: Deps)
    requires req.httpMethod != "POST"
    ensures Handler(req, deps) == Sent(Response(406, MessageBody(NotSupportedMessage)))
  {
  }
}
