# Authentication handlers of a small Next.js backend, in Dafny

The backend has three API routes, and this project models the decision logic of each:

- **`POST /api/posts`** creates a post. It is protected by an Authorization-header guard. The guard needs a header of the form `Bearer <token>`, hands the token to `jwt.verify`, looks up the token's user and creates the post with that user as its author. Its `catch` block is a dispatcher. It answers three error kinds (no header, malformed header, expired token) with 401. It writes **no response at all** for any other error.
- **`POST /api/auth/login`** checks the body's shape, looks the user up by email, compares the password with the stored bcrypt hash and signs a JWT over `{id}`. Every failure goes through an ordered classifier:
  - a validation error gets 400;
  - an unknown user and a wrong password get the same 403;
  - anything else gets 500.
- **`/api/users`** checks the body against a registration schema. A valid body gets 200 with the fixed body `{name: "John Doe"}`. Any other body gets 400 with zod's issues. The method is never checked.

Each handler is a pure Dafny function from the request and its collaborators to a reply. The collaborators are passed in as function-valued parameters:

- `jwt.verify` and `jwt.sign`;
- the Prisma user lookups and the post insert;
- `bcrypt.compareSync`;
- zod's email check and its issue list.

Nothing in the handlers changes state in place or loops, so the model has no classes and no methods.

Modules:

- `JsValues`: JSON values, thrown error objects, requests and responses.
- `JsSplit`: JavaScript's `String.prototype.split` with a one-character separator. It comes with its inverse `Join` and a proof that the split is the only piece list that joins back. The header guard is built on it.
- `Zod`: the field types the schemas use.
- `Posts`, `Login`, `Users`: the three handlers and their properties.

The code has these gaps, and the model keeps them:

- The header is split on **every** space, not on the first one. So `"Bearer  x"` (two spaces) is malformed, and in `"Bearer a b"` the token is `"a"`.
- Tokens are signed without an expiry.
- A valid token for a deleted user gets no response, not 401.
- The posts handler has no 500 catch-all. An unrecognised error gets no response.
- Registration stores nothing. It cannot see duplicate emails, and its success reply is the constant `{name: "John Doe"}`.

## Model

| member | source | states |
|---|---|---|
| JsSplit.Split | pages/api/posts/index.js:50 | `header.split(" ")` gives at least one piece. No piece contains the separator, and joining the pieces with it gives the header back. |
| JsSplit.SplitUnique | pages/api/posts/index.js:50 | A piece list is the split of `s` exactly when it has at least one piece, no piece contains the separator and it joins back to `s`. So the split is fixed by its inverse. |
| JsSplit.SplitFirstTwo | pages/api/posts/index.js:50 | The first piece is the longest prefix without a separator. There is a second piece exactly when the string has a separator, and it is the word after the first separator. |
| Posts.NoCredentialsHeaderError | pages/api/posts/index.js:6-8 | The error is recognised by the no-credentials predicate, and by neither of the other two. |
| Posts.BadCredentialsError | pages/api/posts/index.js:10-12 | The error is recognised by the malformed-header predicate, and by neither of the other two. |
| Posts.ExtractToken | pages/api/posts/index.js:48-51 | An absent or empty header gives the no-credentials error. Any other header passes exactly when it is `"Bearer "` followed by a non-space, and the token is the word after `"Bearer "`. Every refusal is one of the two header errors. |
| Posts.GuardAgreesWithShape | pages/api/posts/index.js:50-51 | The split-based check (first piece `"Bearer"`, second piece present and non-empty) accepts exactly the headers of the closed `Bearer <word>` shape. It passes on that word. |
| Posts.MalformedExamples | pages/api/posts/index.js:50-51 | `"Token abc"`, `"Bearer"`, `"Bearer "` and `"Bearer  x"` are each refused as malformed. |
| Posts.ExtraPiecesIgnored | pages/api/posts/index.js:50 | `"Bearer a b"` passes with token `"a"`, because only the first two pieces are read. |
| Posts.MissingHeaderRejected | pages/api/posts/index.js:48 | With no header, or an empty one, the reply is 401 "This endpoint requires an authorization header" for every collaborator. |
| Posts.MalformedHeaderSkipsVerify | pages/api/posts/index.js:51-54 | A present header without the Bearer shape gets 401 "Your authorization header is malformed" whatever `jwt.verify` would do, so verification is never reached. |
| Posts.OnlyTokenMatters | pages/api/posts/index.js:50-54 | Two well-shaped headers with the same token get the same outcome, whatever follows the token. |
| Posts.ExpiredTokenRejected | pages/api/posts/index.js:85-86 | A token `jwt.verify` reports as expired gets 401 "Your token has been expired, please log in again". |
| Posts.InvalidTokenUnanswered | pages/api/posts/index.js:78-90 | A token rejected for any reason other than expiry gets no response. The exception is a library message equal to one of the two header messages, because the dispatcher matches strings. |
| Posts.DeletedUserUnanswered | pages/api/posts/index.js:60-66 | If the user lookup throws Prisma's NotFoundError for a valid token's id, no response is written. |
| Posts.IsBadCredentialsError | pages/api/posts/index.js:14-16 | Recognises an error by its message alone. Specified by `Posts.ErrorPredicates` and by the contract of `Posts.BadCredentialsError`. |
| Posts.IsNoCredentialsError | pages/api/posts/index.js:18-20 | Recognises an error by its message alone. Specified by `Posts.ErrorPredicates` and by the contract of `Posts.NoCredentialsHeaderError`. |
| Posts.IsTokenExpiredError | pages/api/posts/index.js:22-24 | Recognises an error by its name alone. Specified by `Posts.ErrorPredicates`. |
| Posts.ErrorPredicates | pages/api/posts/index.js:14-24 | The three predicates read only `message` and `name`, so errors that agree on those are recognised alike. No error is recognised by both header predicates. `jwt.verify`'s expired-token error is recognised by the expiry predicate alone. |
| Posts.HandleTokenExpiredError | pages/api/posts/index.js:26-30 | The reply is 401 with the expired-token message. Specified by `Posts.HeaderErrorReplies`. |
| Posts.HandleNoCredentialsError | pages/api/posts/index.js:32-36 | The reply is 401 with the no-header message. Specified by `Posts.HeaderErrorReplies`. |
| Posts.HandleBadCredentialsError | pages/api/posts/index.js:38-42 | The reply is 401 with the malformed-header message. Specified by `Posts.HeaderErrorReplies`. |
| Posts.HeaderErrorReplies | pages/api/posts/index.js:26-42 | The three error replies are all 401, each carries its own message, and no two are alike. |
| Posts.Attempt | pages/api/posts/index.js:45-75 | A header error ends the `try` block before `jwt.verify`. An expired token gives an error only the expiry predicate recognises. Any other rejection by `jwt.verify` is the library's error, unchanged. A lookup throw is passed on unchanged. Once the user is found, the result is exactly what `prisma.post.create` returns for the body with that user as author, its throw included. A post is created only on that path. |
| Posts.StoreFailuresUnanswered | pages/api/posts/index.js:60-90 | A throw from the user lookup or from `prisma.post.create` reaches the dispatcher unchanged. Unless it carries one of the three recognised names or messages, no response is written. |
| Posts.CreatePost | pages/api/posts/index.js:44-92 | A created post gets 201 with the post. A thrown error gets a reply exactly when the dispatcher recognises it, and then the dispatcher's reply. Otherwise nothing is written. Every reply is 201 or 401. |
| Posts.ClassifyError | pages/api/posts/index.js:78-90 | The dispatcher answers exactly the errors one of its three predicates recognises, always with 401, and the first matching predicate wins. Every other error gets no reply. |
| Posts.DispatchOrder | pages/api/posts/index.js:78-87 | An error named TokenExpiredError whose message is a header message gets that header's reply, so the message checks come first. Any other message with that name gets the expired-token reply. |
| Posts.PostData | pages/api/posts/index.js:70-72 | The data given to `post.create` keeps every body field except `authorId`, which is always the user's id. |
| Posts.CreatedPostBelongsToTokenUser | pages/api/posts/index.js:70-75 | On success the reply is 201 `{message: "post created", post}`. The post was created with `authorId` equal to the id of the user the token names. |
| Posts.OutcomesOfCreatePost | pages/api/posts/index.js:44-91 | `createPost` ends in a 201, one of the three 401 replies, or no reply. |
| Posts.Handler | pages/api/posts/index.js:94-101 | POST runs `createPost`. Any other method gets 406 "This method is not supported". |
| Posts.OtherMethodsRefused | pages/api/posts/index.js:99-100 | A method other than POST gets the 406 reply whatever the request and the collaborators, so `createPost` is not run. |
| Login.ParseLoginBody | pages/api/auth/login.js:8-11 | The body passes exactly when `email` and `password` are strings, and the credentials are those strings. Otherwise the thrown error has its own `issues`, equal to zod's list. |
| Login.AuthError | pages/api/auth/login.js:17-19 | The plain error object has no name and no issues. It is recognised as an auth error exactly when its message is the credential message. |
| Login.JwtPayload | pages/api/auth/login.js:48-50 | `signJWT` hands `jwt.sign` only `{id: user.id}` and no options, so no expiry is ever set. The library's own `iat` claim is not modelled. |
| Login.SignJWT | pages/api/auth/login.js:48-50 | The result is what `jwt.sign` returns for the payload `{id: user.id}` alone. |
| Login.LoginAttempt | pages/api/auth/login.js:21-36 | A token comes out only if the body parsed, the email lookup found a user, bcrypt accepted the password against that user's hash, and `jwt.sign` over that user's payload returned this token. Each failing step's error is the result, unchanged: the parse's ZodError, the lookup's throw, `AuthError` for a wrong password, and `jwt.sign`'s throw. |
| Login.SignFailureAnswered | pages/api/auth/login.js:35-45 | A `jwt.sign` throw after a matching password gets the classifier's reply for that error. An error with no issues, not named NotFoundError and without the credential message gets 500, never 403. |
| Login.LookupFailureAnswered | pages/api/auth/login.js:24-45 | A lookup throw that is not Prisma's NotFoundError, and that the other two checks do not recognise, gets 500. |
| Login.ComparePassWord | pages/api/auth/login.js:13-15 | bcrypt's verdict is asked with the plaintext first and the hash second, the reverse of `comparePassWord`'s own parameter order. |
| Login.LoginResponse | pages/api/auth/login.js:21-46 | A token gets 200 `{message: "Login success", token}`. Every thrown error gets the classifier's reply. There is always a reply, with status 200, 400, 403 or 500. |
| Login.HandleAuthError | pages/api/auth/login.js:52-54 | The reply is 403 "Email or password incorrect". Specified by `Login.ErrorReplies`. |
| Login.IsAuthError | pages/api/auth/login.js:66-68 | Recognises an error by its message. Specified by `Login.ErrorPredicates` and by the contract of `Login.AuthError`. |
| Login.IsRequestValidationError | pages/api/auth/login.js:70-72 | Recognises an error by an own `issues` property. Specified by `Login.ErrorPredicates`. |
| Login.IsNotFoundError | pages/api/auth/login.js:74-76 | Recognises an error by its name. Specified by `Login.ErrorPredicates`. |
| Login.ErrorPredicates | pages/api/auth/login.js:66-76 | A ZodError is a validation error. Prisma's NotFoundError is a not-found error and not a validation error. The `AuthError` thrown on a wrong password is an auth error. An error whose message is undefined never is. |
| Login.HandleUnknownError | pages/api/auth/login.js:78-81 | The reply is 500 with a fixed message. Specified by `Login.ErrorReplies`. |
| Login.HandleValidationError | pages/api/auth/login.js:83-88 | The reply is 400 with zod's issues under `errors`. Specified by `Login.ErrorReplies`. |
| Login.ErrorReplies | pages/api/auth/login.js:52-88 | The credential reply is 403 with the shared message. The unknown reply is 500 with a fixed message. The validation reply is 400, and it carries `errors` exactly when the error has its own issues, holding those issues. |
| Login.RespondToError | pages/api/auth/login.js:37-45 | Every error gets exactly one of 400, 403 or 500. A validation error (own `issues`) gets 400 with those issues, whatever its message. NotFoundError or the credential message gets the identical 403. Everything else gets a 500 that carries nothing from the error. |
| Login.ValidationComesFirst | pages/api/auth/login.js:38-39 | An error with issues whose message is also the credential message gets 400. |
| Login.InvalidBodyRejected | pages/api/auth/login.js:23 | A body without string `email` and `password` gets 400 with zod's issues, whatever the later collaborators would do. |
| Login.CredentialFailuresIndistinguishable | pages/api/auth/login.js:24-41 | An unknown email (NotFoundError) and a wrong password for a known email get the same reply: 403 "Email or password incorrect". |
| Login.WrongPasswordNeverSigns | pages/api/auth/login.js:33-35 | With a wrong password the reply does not depend on `jwt.sign`, so no token is signed. |
| Login.MatchingPasswordSucceeds | pages/api/auth/login.js:28-36 | If the password matches and signing succeeds, the reply is 200 `{message: "Login success", token}` with the token signed over `{id: user.id}`. |
| Login.LoginReplies | pages/api/auth/login.js:21-46 | `login` always replies, with 200, 400, 403 or 500, and it replies 200 exactly when the attempt produced a token. |
| Login.Handler | pages/api/auth/login.js:56-63 | POST runs `login`. Any other method gets 404 "This route does not exist". |
| Users.UserSchema | pages/api/users.js:3-9 | The registration rule set, field by field. Its rules are proved one by one by the `Users` lemmas below, and `Users.ParseUser` and `Users.Handler` are stated against it. |
| Users.ParseUser | pages/api/users.js:3-9 | `User.parse` succeeds exactly when the schema's rules hold. Its result is built from the body's fields, with absent names as None. A failure is a ZodError carrying zod's issues. |
| Users.Handler | pages/api/users.js:11-18 | The reply is 200 exactly when the schema's rules hold, and then the body is `{name: "John Doe"}`. Otherwise the reply is 400 `{errors: issues}`. |
| Users.PasswordLengthIsExactlyEight | pages/api/users.js:5 | In an otherwise valid body, a password passes exactly when it has 8 characters. |
| Users.PasswordLengthExamples | pages/api/users.js:5 | Passwords of 7 and of 9 characters are both refused. |
| Users.NamesAreOptional | pages/api/users.js:6-7 | Removing `firstName` and `lastName` keeps a valid body valid. A `null` in either makes it invalid. |
| Users.PhoneIsRequired | pages/api/users.js:8 | A body without `phone`, or with a non-string `phone`, is refused. |
| Users.EmailMustBeEmail | pages/api/users.js:4 | A body without `email`, or whose `email` the email check refuses, is refused. |
| Users.SuccessReplyIsConstant | pages/api/users.js:13-14 | Any two valid requests get the same reply, whatever their bodies and methods. |
| Users.MethodIsIgnored | pages/api/users.js:11-18 | Changing the method never changes the reply. |

## Left out

- The cryptography of `jsonwebtoken`. `verify` is a parameter returning a user id, "expired" or "invalid with a message". `sign` is a parameter from payload to token or thrown error. Signing secrets, algorithms and the encoding of tokens are not modelled.
- The model names every non-expiry `jwt.verify` error JsonWebTokenError. The library's NotBeforeError has its own name, which the dispatcher treats the same, since it only tests for the name TokenExpiredError.
- The decoded token payload is reduced to its `id`. A payload without `id`, which would make Prisma throw, is not modelled separately.
- Prisma. The user lookups and `post.create` are parameters returning a record or a thrown error.
- bcrypt. `compareSync` is a boolean-valued parameter. Its own throws, for a non-string hash for one, are not modelled. Timing behaviour cannot be expressed.
- Zod internals. The email regular expression is the parameter `isEmail`, and the issue list is an opaque JSON value given by a parameter. A ZodError's `message` is left undefined, because no handler reads it before the `issues` check.
- Users.PasswordLengthIsExactlyEight: lengths are counted in Dafny characters (Unicode scalar values). JavaScript counts UTF-16 code units, so a password with characters outside the Basic Multilingual Plane is measured differently.
- Posts.PostData: a non-object body spreads as `{}`. JavaScript would also copy the index keys of a string or array body.
- `console.log` calls, including the no-op `if (!user) console.log(user)` in `createPost`, Next.js routing and body parsing. The `res` object is left out: a handler returns the reply it would write.
- JSON numbers are integers, because no handler reads a fractional number.
