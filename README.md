# TaskForge backend core in Dafny

TaskForge is a small Express/Mongoose task manager. This project models its backend decision
logic over two in-memory collections, a user collection (`UserModel.UserStore`) and a task
collection (`TaskModel.TaskStore`), and proves what the handlers promise:

- request authorisation (`authorize`): the token comes from the cookie first, then from a
  `Bearer` header, and the checks form a four-outcome chain;
- the Google and GitHub verify callbacks: they match on the provider id, else link by e-mail,
  else create a password-less user;
- the local authentication flow (`signUp`, `signIn`, `signOut`, `getProfile`,
  `socialAuthCallback`), including the session cookie flags and the removal of the password
  from responses;
- the task handlers and the task router. Every query is keyed on the pair (task id, caller),
  so a request never reads, changes or deletes another user's task, and a miss changes nothing;
- the error middleware, whose sequential `if`s fix the precedence ValidationError over
  duplicate key over CastError;
- the user schema: the setters (trim, lowercase), the validators (name length, the e-mail
  pattern `^\S+@\S+\.\S+$`, password length), the unique e-mail index, the sparse unique
  provider-id indexes and the `select: false` projection. The task schema: required owner and
  title, `completed` defaulting to false, and timestamps.

Modules:

- `Wrappers`: Option and Result.
- `Text`: `trim`, ASCII `toLowerCase`, `length` in UTF-16 code units, `split`/`join` and the e-mail regular expression.
- `Crypto`: bcrypt and JWT as small concrete functions whose laws are proved.
- `Errors`: the error shapes.
- `UserModel`, `TaskModel`: the schemas and the stores.
- `Http`: the request and response objects.
- `ErrorMiddleware`, `AuthMiddleware`, `Passport`, `AuthController`, `TaskController`,
  `TaskRoutes`: one module per source file.

Handlers with effects are methods over the stores and over a `Response` object. They record
the status, the JSON body, the cookies, a redirect and the calls to `next`. On every path, a
handler's postcondition states the change to the store and the value of each response field
the handler may write, except where a line under "## Left out" names a weaker contract. The task
router states the tenant-isolation property rather than repeating each handler's outcome. Where
the outcome has an independent reference
(`ErrorMiddleware.Reply`, `AuthController.SignUpResult`, `Passport.Resolved`,
`TaskRoutes.OnlyOwnTasksTouched`), the method is proved against it and further lemmas are
proved about the reference.

Where the code and its intended behaviour differ, the model follows the code:

- The schema's `minLength: 6` on `password` is checked against the stored bcrypt hash, not
  the plaintext. A hash is always longer than six characters, so `signUp` accepts a password
  of any length (`AuthController.PasswordLengthCheckSeesHash`).
- `signIn` on a password-less account calls `bcrypt.compare` with no hash. That call rejects,
  so the request ends as a 500 from the error middleware, not as a 401.
- `socialAuthCallback` redirects to `FRONTEND_URL` when it is set and non-empty, and to
  `http://localhost:5173` otherwise.
- Creating an OAuth user whose profile has no e-mail fails schema validation.

## Model

| member | source | states |
|---|---|---|
| Text.TrimStartSpec | backend/src/models/user.model.ts:7 | trimming the start drops a prefix made only of whitespace and stops at a non-whitespace character |
| Text.TrimEndSpec | backend/src/models/user.model.ts:7 | trimming the end drops a suffix made only of whitespace and stops at a non-whitespace character |
| Text.TrimIsTrimmed | backend/src/models/user.model.ts:7 | the `trim` setter leaves no whitespace at either end |
| Text.TrimIsSlice | backend/src/models/user.model.ts:7 | trimming keeps a contiguous middle part of the string and removes only whitespace around it |
| Text.TrimIdempotent | backend/src/models/user.model.ts:7 | trimming twice gives the same result as trimming once |
| Text.TrimOfTrimmed | backend/src/models/user.model.ts:15 | a string that is already trimmed is unchanged by `trim` |
| Text.LowerKeepsTrimmed | backend/src/models/user.model.ts:15-16 | lower-casing a trimmed string keeps it trimmed |
| Text.LowerIdempotent | backend/src/models/user.model.ts:16 | lower-casing twice gives the same result as lower-casing once |
| Text.NoSpaceAt | backend/src/models/user.model.ts:18 | the recursive "no whitespace" test holds exactly when no character is whitespace (`\S`) |
| Text.JsLengthBounds | backend/src/models/user.model.ts:8-9 | JavaScript's `length` lies between the number of characters and twice that, and equals it exactly when no character lies outside the Basic Multilingual Plane |
| Text.IndexOfIsFirst | backend/src/models/user.model.ts:18 | the search finds the first occurrence from a position, or reports that there is none |
| Text.LastIndexOfIsLast | backend/src/models/user.model.ts:18 | the search finds the last occurrence before a position, or reports that there is none |
| Text.IsEmailMatchesPattern | backend/src/models/user.model.ts:17-20 | the executable e-mail test accepts exactly the strings that match `^\S+@\S+\.\S+$`: no whitespace, and an `@` and a later `.` that split the string into three non-empty parts |
| Text.Split | backend/src/middlewares/auth.middleware.ts:15 | `split(' ')` always yields at least one field |
| Text.JoinSplit | backend/src/middlewares/auth.middleware.ts:15 | joining the fields of a split with the separator gives back the original string |
| Text.SplitNoSep | backend/src/middlewares/auth.middleware.ts:15 | a string without the separator splits into itself alone |
| Text.SplitAtFirst | backend/src/middlewares/auth.middleware.ts:15 | the first separator ends the first field |
| Crypto.CompareHash | backend/src/controllers/auth.controller.ts:82 | `compare` accepts a password against its own hash and rejects every other password (bcrypt's 72-byte truncation aside, see Left out) |
| Crypto.HashIsNotPlaintext | backend/src/controllers/auth.controller.ts:26-27 | the stored hash differs from the password and is at least 7 characters long |
| Crypto.DecimalText | backend/src/controllers/auth.controller.ts:36 | the printed id is non-empty and made of digits only |
| Crypto.DigitsValueOfDecimal | backend/src/middlewares/auth.middleware.ts:20-22 | reading back a printed id gives the same id |
| Crypto.ParseDecimalText | backend/src/middlewares/auth.middleware.ts:20-22 | parsing a printed id gives that id |
| Crypto.Sign | backend/src/controllers/auth.controller.ts:36-38 | every issued token is non-empty |
| Crypto.VerifySign | backend/src/middlewares/auth.middleware.ts:20 | verifying a token issued for an id gives back that id while the token is unexpired, and fails once it has expired |
| Crypto.VerifyOnlyIssued | backend/src/middlewares/auth.middleware.ts:20 | a token verifies only if it is exactly the token issued for the id it yields and has not expired |
| Crypto.SignInjective | backend/src/controllers/auth.controller.ts:36-38 | different user ids never share a token |
| UserModel.WithProviderId | backend/src/config/passport.ts:26 | linking sets the chosen provider id and keeps the id, name, e-mail, password and the other provider's id |
| UserModel.DefaultView | backend/src/models/user.model.ts:26-38 | a default read leaves out password, googleId and githubId and keeps the other fields |
| UserModel.NormalizeEmailIdempotent | backend/src/models/user.model.ts:15-16 | the trim-and-lowercase setter is idempotent, so a stored e-mail is already in normal form |
| UserModel.AstralNameLength | backend/src/models/user.model.ts:8-9 | the name bounds count UTF-16 code units: two characters outside the Basic Multilingual Plane pass the minimum, and 26 of them exceed the maximum |
| UserModel.FieldErrorsEmptyIff | backend/src/models/user.model.ts:4-27 | validation reports no message exactly when the name is present with a JavaScript length (UTF-16 code units) of 3 to 50, the e-mail is present and matches the pattern, and any password has a JavaScript length of at least 6; it reports at most one message per path |
| UserModel.InsertKeepsWellFormed | backend/src/models/user.model.ts:11-39 | inserting a valid document that clashes with no unique index, under the fresh id, keeps the collection invariant (stored under its own id, valid, unique e-mail, sparse unique provider ids) |
| UserModel.InsertKeepsStoredValid | backend/src/models/user.model.ts:3-40 | inserting a valid document under the fresh id keeps every document valid and stored under its own id |
| UserModel.InsertKeepsUniqueEmails | backend/src/models/user.model.ts:14 | an insert whose e-mail no document holds keeps e-mails unique |
| UserModel.InsertKeepsProviderUnique | backend/src/models/user.model.ts:28-39 | an insert whose provider ids no document holds keeps each provider id unique among the users that have one |
| UserModel.SetProviderKeepsWellFormed | backend/src/config/passport.ts:26-27 | setting a provider id that no other user holds keeps the collection invariant |
| UserModel.SetProviderKeepsStoredValid | backend/src/config/passport.ts:26-27 | setting a provider id keeps every document valid |
| UserModel.SetProviderKeepsUniqueEmails | backend/src/config/passport.ts:26-27 | setting a provider id keeps e-mails unique |
| UserModel.SetProviderKeepsOwnUnique | backend/src/models/user.model.ts:28-33 | setting a provider id that no other user holds keeps that index unique |
| UserModel.SetProviderKeepsOtherUnique | backend/src/models/user.model.ts:34-39 | setting one provider's id leaves the other provider's index unique |
| UserModel.EmailKey | backend/src/controllers/auth.controller.ts:73 | `findOne({ email })` finds a key exactly when some user holds the normalised e-mail, and that user holds it |
| UserModel.EmailKeyUnique | backend/src/models/user.model.ts:14 | under the unique e-mail index, the user holding the normalised e-mail is the one the lookup finds |
| UserModel.UserStore.constructor | backend/src/models/user.model.ts:42 | an empty collection satisfies the invariant |
| UserModel.UserStore.FindById | backend/src/middlewares/auth.middleware.ts:22 | finds a user exactly when the id is stored, and returns that document |
| UserModel.UserStore.FindOneByEmail | backend/src/controllers/auth.controller.ts:73 | finds a user exactly when one holds the trimmed, lower-cased e-mail, and returns the user the lookup names |
| UserModel.UserStore.FindOneByProvider | backend/src/config/passport.ts:17 | finds a user exactly when one holds that provider id, and returns it |
| UserModel.UserStore.Create | backend/src/models/user.model.ts:3-40 | applies the setters, then validation (ValidationError with the messages in schema order), then the unique indexes (E11000), then inserts under a fresh id; a failure leaves the collection unchanged; the invariant is kept |
| UserModel.UserStore.SetProviderId | backend/src/config/passport.ts:26-27 | `save` of a new provider id fails with E11000 when another user holds it, and otherwise writes only that path; the invariant is kept |
| TaskModel.TaskFieldErrors | backend/src/models/task.model.ts:18-21 | a new task validates exactly when its title is present and non-empty |
| TaskModel.InsertNewestFirst | backend/src/models/task.model.ts:29 | inserting into a newest-first list keeps it strictly ordered and adds exactly that task |
| TaskModel.TaskStore.constructor | backend/src/models/task.model.ts:31 | an empty collection satisfies the invariant |
| TaskModel.TaskStore.Create | backend/src/models/task.model.ts:12-29 | a missing or empty title gives ValidationError "Title is required" and no change; otherwise exactly one new task, under a fresh id, with the given owner, title and description, `completed` false and both timestamps equal to now |
| TaskModel.TaskStore.FindOne | backend/src/controllers/task.controller.ts:41 | finds a task only when both the id and the owner match |
| TaskModel.TaskStore.FindByOwner | backend/src/controllers/task.controller.ts:25 | returns every task of the owner exactly once, none of anyone else's, with `createdAt` non-increasing |
| TaskModel.TaskStore.FindOneAndUpdate | backend/src/controllers/task.controller.ts:63-67 | only the task matching (id, owner) changes; it keeps its id, owner and `createdAt`, gets `updatedAt` = now and is returned; on a miss nothing changes |
| TaskModel.TaskStore.FindOneAndDelete | backend/src/controllers/task.controller.ts:88 | removes exactly the task matching (id, owner) and returns it; on a miss nothing changes |
| Http.TokenCookieOptions | backend/src/controllers/auth.controller.ts:43-48 | the session cookie is httpOnly with a maxAge of 86 400 000 ms; it is secure iff NODE_ENV is production; its sameSite is none in production and lax otherwise |
| Http.ClearCookieOptions | backend/src/controllers/auth.controller.ts:119-123 | clearing uses the same flags as setting, without a lifetime |
| Http.Request.constructor | backend/src/middlewares/auth.middleware.ts:12-14 | a request carries its cookie token, its Authorization header and `req.user` |
| Http.Response.constructor | backend/src/controllers/auth.controller.ts:53 | a fresh response has sent nothing and called `next` zero times |
| Http.Response.Json | backend/src/controllers/auth.controller.ts:53 | `res.status(s).json(b)` records that status and body |
| Http.Response.Cookie | backend/src/controllers/auth.controller.ts:43 | `res.cookie` sets that cookie and leaves the others |
| Http.Response.ClearCookie | backend/src/controllers/auth.controller.ts:119 | `res.clearCookie` clears that cookie and leaves the others |
| Http.Response.Redirect | backend/src/controllers/auth.controller.ts:164 | `res.redirect` answers 302 with that location |
| Http.Response.Next | backend/src/controllers/task.controller.ts:19 | `next(error)` is recorded as one more call carrying that error |
| ErrorMiddleware.ResolveError | backend/src/middlewares/error.middleware.ts:5-36 | the sequential overrides compute exactly the reference reply: the last matching shape wins; a missing or zero status becomes 500 and an empty message becomes "Server Error" |
| ErrorMiddleware.HandleError | backend/src/middlewares/error.middleware.ts:33-36 | answers the reference status with a `success: false` body carrying the reference message |
| ErrorMiddleware.ReplyShapes | backend/src/middlewares/error.middleware.ts:12-36 | CastError gives 404 "Resource not found with id of <value>"; code 11000 gives 400 "Duplicate field value entered"; ValidationError gives 400 "Invalid input data. " followed by the messages joined with ". "; precedence is ValidationError, then 11000, then CastError; otherwise the error's own status or 500 and its own message or "Server Error" |
| ErrorMiddleware.ControllerErrorReachesClient | backend/src/middlewares/error.middleware.ts:33-36 | an error a controller raises with a status code reaches the client with that status and message |
| ErrorMiddleware.LibraryErrorIsServerError | backend/src/middlewares/error.middleware.ts:33 | an error without a status code is answered with 500 |
| ErrorMiddleware.ValidationFailureReply | backend/src/middlewares/error.middleware.ts:26-31 | a Mongoose validation failure is answered with 400 and the field messages |
| AuthMiddleware.ExtractToken | backend/src/middlewares/auth.middleware.ts:12-16 | a non-empty cookie token is used even when a header is present; otherwise a token can only come from a header starting with "Bearer", as its second space-separated field |
| AuthMiddleware.BearerHeaderYieldsToken | backend/src/middlewares/auth.middleware.ts:14-15 | without a cookie, "Bearer <token>" yields exactly the token when the token contains no space (for "Bearer a b" the second field, "a", is used) |
| AuthMiddleware.OtherHeaderIgnored | backend/src/middlewares/auth.middleware.ts:14 | a header that does not start with "Bearer" is never consulted |
| AuthMiddleware.BareBearerHasNoToken | backend/src/middlewares/auth.middleware.ts:15-18 | the header "Bearer" alone carries no token |
| AuthMiddleware.Authorize | backend/src/middlewares/auth.middleware.ts:8-31 | no token gives 401 "No token provided, authorization denied"; a token that fails verification gives 401 "Authorization failed"; an unknown user gives 401 "User not found, authorization denied"; none of these calls `next` or binds a user; otherwise `req.user` is the stored user without the password and `next` is called exactly once |
| AuthMiddleware.IssuedTokenAuthorises | backend/src/controllers/auth.controller.ts:36-48 | the issued session cookie is the token `authorize` uses, whatever the header says, and it names its user until it expires |
| Passport.FirstEmail | backend/src/config/passport.ts:21 | the e-mail used is the first entry of `profile.emails`, and it is absent when there is none |
| Passport.GitHubName | backend/src/config/passport.ts:69 | the new GitHub user's name is `displayName` when it is non-empty, else `username` |
| Passport.ResolveProfile | backend/src/config/passport.ts:15-43 | a known provider id returns that user (without the `select: false` paths) and writes nothing; else a known e-mail gets the provider id attached and that user is returned with it, and no user is created; else a new password-less user with the provider id is created exactly when the schema accepts the set name and e-mail, and otherwise a validation error is returned and nothing changes; a profile without an e-mail fails validation; the invariant is kept |
| Passport.GoogleVerify | backend/src/config/passport.ts:14-44 | the Google callback resolves the profile on `googleId` with `displayName` as the name |
| Passport.GitHubVerify | backend/src/config/passport.ts:53-79 | the GitHub callback resolves the profile on `githubId` with `displayName`, else `username`, as the name |
| Passport.SecondLoginSameUser | backend/src/config/passport.ts:17-40 | a second login with the same provider id returns the same user and writes nothing |
| Passport.FirstLoginCreatesOneUser | backend/src/config/passport.ts:33-37 | a first login whose name and e-mail the schema accepts adds exactly one user, which carries the provider id |
| Passport.AddsAtMostOneUser | backend/src/config/passport.ts:21-37 | a callback adds at most one user, and none when the e-mail is already known |
| AuthController.SignUpStoresHash | backend/src/controllers/auth.controller.ts:26-34 | a successful sign-up stores a hash that the password matches and never the password itself, with the trimmed name and the normalised e-mail |
| AuthController.SecondSignUpRefused | backend/src/controllers/auth.controller.ts:17-23 | after a successful sign-up, any sign-up whose e-mail normalises to the same address is refused with 400 "Email is already in use" |
| AuthController.SignUp | backend/src/controllers/auth.controller.ts:10-66 | a known e-mail gives 400 "Email is already in use"; a validation failure is forwarded; on either failure the collection is unchanged and no cookie is set; otherwise exactly one user with the hashed password is stored under a fresh id, the session cookie carries its token, and the 201 body has the user without its password plus the token |
| AuthController.SignIn | backend/src/controllers/auth.controller.ts:68-115 | an unknown e-mail gives 404 "User not found"; a password-less account gives a library error (500); a wrong password gives 401 "Invalid password"; none of these sets a cookie; otherwise the 200 body has the user without password or provider ids plus the token, and the cookie is set; nothing is written |
| AuthController.SignOut | backend/src/controllers/auth.controller.ts:117-132 | always clears the `token` cookie with the session flags and answers 200 "User signed out successfully" |
| AuthController.GetProfile | backend/src/controllers/auth.controller.ts:134-145 | answers 200 with the user `authorize` bound |
| AuthController.RedirectTarget | backend/src/controllers/auth.controller.ts:163 | `FRONTEND_URL` when it is set and non-empty, else `http://localhost:5173` |
| AuthController.SocialAuthCallback | backend/src/controllers/auth.controller.ts:148-168 | sets the session cookie with the resolved user's token and redirects to the frontend; with no user, the error goes to `next` |
| AuthController.PasswordLengthCheckSeesHash | backend/src/models/user.model.ts:25 | the length check passes on every stored hash, though it would reject a plaintext shorter than 6 UTF-16 code units |
| AuthController.SignUpThenSignIn | backend/src/controllers/auth.controller.ts:10-115 | signing up and then signing in with the same credentials gives 201 and then 200 for the same user with the same token |
| TaskController.CreateTask | backend/src/controllers/task.controller.ts:4-21 | adds exactly one task owned by the caller with the given title and description and answers 201 with it; a missing title is forwarded as a validation error and nothing changes |
| TaskController.GetTasks | backend/src/controllers/task.controller.ts:23-35 | answers 200 with exactly the caller's tasks, each once, newest first, and `count` equal to the list length |
| TaskController.GetTask | backend/src/controllers/task.controller.ts:37-56 | answers the task only when both the id and the owner match; an unknown id or another user's task gives 404 "Task not found"; a malformed id gives a CastError |
| TaskController.UpdateTask | backend/src/controllers/task.controller.ts:58-82 | only the caller's task with that id changes, and the updated document is answered; an unknown id or another user's task gives 404 and leaves the collection unchanged |
| TaskController.DeleteTask | backend/src/controllers/task.controller.ts:84-103 | removes exactly the caller's task with that id and answers 200 "Task deleted successfully"; a miss gives 404 and leaves the collection unchanged |
| TaskRoutes.IssuedTokenNamesCaller | backend/src/routes/task.routes.ts:13 | a stored user's session token makes that user the caller until it expires |
| TaskRoutes.Dispatch | backend/src/routes/task.routes.ts:15-22 | whichever handler the route selects touches only the caller's tasks (another user's task is never changed or removed, and every new or changed task belongs to the caller), and any task it answers with belongs to the caller |
| TaskRoutes.OnlyOwnTasksTouchedTrans | backend/src/controllers/task.controller.ts:9-88 | two successive changes that each touch only one caller's tasks together touch only that caller's tasks, so a run of that caller's requests leaves every other user's tasks alone |
| TaskRoutes.OtherOwnersUnaffected | backend/src/controllers/task.controller.ts:9-88 | when only one caller's tasks are touched, every other user has exactly the same tasks, with the same contents, before and after |
| TaskRoutes.HandleTaskRequest | backend/src/routes/task.routes.ts:13-22 | an unauthenticated request gets a 401, reaches no handler and changes nothing; an authenticated one touches only tasks the caller owns (another user's task is never changed or removed, and every new or changed task belongs to the caller), and any task it answers with belongs to the caller |

## Left out

- The frontend, the database connection (`backend/src/database/mongodb.ts`), `backend/index.ts` and the auth routes wiring: these are UI, I/O and wiring. From the routes, only the task router's `authorize` in front of every handler is modelled.
- The passport OAuth handshake and `passport.authenticate`: network I/O. The verify callbacks are modelled.
- bcrypt: `Crypto.Hash` is a concrete stand-in (`"$2b$10$" + password`). Salt randomness and the cost factor are not modelled; only the laws the handlers rely on are proved.
- JWT: `Crypto.Sign` is a concrete stand-in with no signature, secret or wall clock. Expiry is a set of tokens that `Verify` rejects, passed in by the caller.
- Crypto.Sign: `jwt.sign` adds an `iat` (issued-at) claim taken from the clock, so two tokens for the same user issued at different seconds differ; the model issues one token per user id.
- AuthController.SignUpThenSignIn: its promise that sign-in returns the same token as sign-up follows from the clock-free `Crypto.Sign`; with the `iat` claim, a sign-in in a later second gets a different token for the same user. The same-user promise does not depend on this.
- Crypto.VerifyOnlyIssued: no secret or signature is modelled, so a token changed into another id's issued spelling ("jwt.12" into "jwt.13") verifies as that id; the real `jwt.verify` rejects any token whose bytes were altered.
- Crypto.CompareHash: bcrypt uses only the first 72 bytes of the UTF-8 encoded password, so two passwords sharing a 72-byte prefix match the same hash; the model compares the whole password and rejects the second.
- `signUp`'s transaction is modelled as one atomic step; concurrent requests are not modelled.
- Ids are natural numbers taken from a per-collection counter. ObjectId casting of a path id is decimal parsing; anything else gives a CastError.
- The stores hold document values. Mongoose document identity and aliasing are not modelled.
- Request bodies whose fields are missing or not strings are not modelled: `signUp` and `signIn` take strings.
- `Text.Lower` lower-cases ASCII letters only; JavaScript's full Unicode case mapping is not modelled.
- User timestamps are not modelled: no user operation reads them.
- `console.error` logging in the error middleware, and that middleware's own `catch`, are not modelled, since the model cannot throw there.
- AuthMiddleware.Authorize: the 401 "Authorization failed" body also carries the caught error object; the model records only the message.
- TaskModel.TaskStore.FindOneAndUpdate: the contract does not state the new title, description and completed values. It also does not model the update validators that `runValidators: true` turns on. How Mongoose treats `undefined` fields in the update object is not part of this model. The body applies a patch in which an absent field keeps its value.
- TaskController.UpdateTask: weaker for the same reason; an update that the update validators would reject (for example an empty title) is not modelled as an error.
- TaskModel.TaskStore.FindByOwner: ties in `createdAt` are broken by id internally; the contract promises only `createdAt` non-increasing, as the sort does.
- UserModel.UserStore.SetProviderId: `save` re-validates the whole document; the model relies on the stored documents being valid already, so the only failure it models is the duplicate key.
