/**
 * The local authentication handlers (`signUp`, `signIn`, `signOut`, `getProfile`) and the
 * handler that ends both OAuth flows (`socialAuthCallback`).
 */
module AuthController {
  import opened Wrappers
  import opened Text
  import opened Crypto
  import opened Errors
  import opened UserModel
  import opened Http

  const EmailInUse := "Email is already in use"
  const RegisteredMessage := "User registered successfully"
  const UserNotFound := "User not found"
  const InvalidPassword := "Invalid password"
  const SignedInMessage := "User signed in successfully"
  const SignedOutMessage := "User signed out successfully"
  /** What `bcrypt.compare` rejects with when the stored hash is undefined. */
  const MissingHashMessage := "data and hash arguments required"
  /** What reading `_id` of an undefined `req.user` throws. */
  const NoUserMessage := "Cannot read properties of undefined (reading '_id')"
  const DefaultFrontendUrl := "http://localhost:5173"

  /** What `signUp` does to the collection: the error it forwards, or the user it stores. */
  ghost function SignUpResult(users: map<nat, User>, nextId: nat, name: string, email: string, password: string)
    : Result<User, ErrorValue>
  {
    var errs := FieldErrors(SetName(Some(name)), SetEmail(Some(email)), Some(Hash(password)));
    if HasEmail(users, email) then Err(AppError(400, EmailInUse))
    else if errs != [] then Err(ValidationFailure("User", errs))
    else Ok(User(nextId, Trim(name), NormalizeEmail(email), Some(Hash(password)), None, None))
  }

  /** A successful sign-up stores a hash that the password matches, never the password itself,
      with the set (trimmed, lower-cased) name and e-mail. */
  lemma SignUpStoresHash(users: map<nat, User>, nextId: nat, name: string, email: string, password: string)
    ensures var r := SignUpResult(users, nextId, name, email, password);
      r.Ok? ==>
        && r.value.password.Some? && Compare(password, r.value.password.value)
        && r.value.password.value != password
        && r.value.name == Trim(name) && r.value.email == NormalizeEmail(email)
  {
    CompareHash(password, password);
    HashIsNotPlaintext(password);
  }

  /** Once a sign-up succeeds, any later sign-up whose e-mail normalises to the same address is
      refused with 400, whatever its name and password. */
  lemma SecondSignUpRefused(users: map<nat, User>, nextId: nat, name: string, email: string, password: string,
                            name2: string, email2: string, password2: string)
    requires NormalizeEmail(email2) == NormalizeEmail(email)
    ensures var r := SignUpResult(users, nextId, name, email, password);
      r.Ok? ==>
        SignUpResult(users[r.value.id := r.value], nextId + 1, name2, email2, password2) == Err(AppError(400, EmailInUse))
  {
    var r := SignUpResult(users, nextId, name, email, password);
    if r.Ok? {
      var m := users[r.value.id := r.value];
      assert r.value.id in m && m[r.value.id].email == NormalizeEmail(email2);
    }
  }

  /** `signUp`: inside one transaction, reject a known e-mail, else store the user with the
      HASH of the password; on success set the session cookie and answer 201 with the user
      (password removed) and the token. Any failure aborts: the collection is unchanged. */
  method SignUp(store: UserStore, res: Response, nodeEnv: string, name: string, email: string, password: string)
    requires store.Valid()
    modifies store, res`statusCode, res`body, res`cookies, res`nextCalls, res`forwarded
    ensures store.Valid()
    ensures var r := SignUpResult(old(store.users), old(store.nextId), name, email, password);
      if r.Err? then
        && store.users == old(store.users)
        && res.nextCalls == old(res.nextCalls) + 1 && res.forwarded == Some(r.error)
        && res.cookies == old(res.cookies) && res.body == old(res.body)
        && res.statusCode == old(res.statusCode)
      else
        && r.value.id !in old(store.users)
        && store.users == old(store.users)[r.value.id := r.value]
        && res.statusCode == 201
        && res.body == Some(Session(RegisteredMessage, r.value.(password := None), Sign(r.value.id)))
        && res.cookies == old(res.cookies)[TokenCookie := Set(Sign(r.value.id), TokenCookieOptions(nodeEnv))]
        && res.nextCalls == old(res.nextCalls) && res.forwarded == old(res.forwarded)
  {
    var existing := store.FindOneByEmail(email);
    if existing.Some? {
      res.Next(Some(AppError(400, EmailInUse)));
      return;
    }
    assert !Clashes(store.users, NormalizeEmail(email), None, None);
    var hashed := Hash(password);
    var created := store.Create(Some(name), Some(email), Some(hashed), None, None);
    if created.Err? {
      // session.abortTransaction(): Create left the collection unchanged.
      res.Next(Some(created.error));
      return;
    }
    var token := Sign(created.value.id);
    res.Cookie(TokenCookie, token, TokenCookieOptions(nodeEnv));
    var userResponse := created.value.(password := None);  // delete userResponse.password
    res.Json(201, Session(RegisteredMessage, userResponse, token));
  }

  /** `signIn`: 404 for an unknown e-mail, 401 for a wrong password, a library error (500) for
      an account without a password; otherwise the session cookie and 200 with the user
      (password removed) and the token. Nothing is written to the collection. */
  method SignIn(store: UserStore, res: Response, nodeEnv: string, email: string, password: string)
    requires store.Valid()
    modifies res`statusCode, res`body, res`cookies, res`nextCalls, res`forwarded
    ensures var key := EmailKey(store.users, email);
      if key.None? then
        && res.nextCalls == old(res.nextCalls) + 1 && res.forwarded == Some(AppError(404, UserNotFound))
        && res.cookies == old(res.cookies) && res.body == old(res.body)
        && res.statusCode == old(res.statusCode)
      else
        var u := store.users[key.value];
        if u.password.None? then
          && res.nextCalls == old(res.nextCalls) + 1 && res.forwarded == Some(PlainError(MissingHashMessage))
          && res.cookies == old(res.cookies) && res.body == old(res.body)
          && res.statusCode == old(res.statusCode)
        else if !Compare(password, u.password.value) then
          && res.nextCalls == old(res.nextCalls) + 1 && res.forwarded == Some(AppError(401, InvalidPassword))
          && res.cookies == old(res.cookies) && res.body == old(res.body)
          && res.statusCode == old(res.statusCode)
        else
          && res.statusCode == 200
          && res.body == Some(Session(SignedInMessage, DefaultView(u), Sign(key.value)))
          && res.cookies == old(res.cookies)[TokenCookie := Set(Sign(key.value), TokenCookieOptions(nodeEnv))]
          && res.nextCalls == old(res.nextCalls) && res.forwarded == old(res.forwarded)
  {
    var found := store.FindOneByEmail(email);  // .select('+password')
    if found.None? {
      res.Next(Some(AppError(404, UserNotFound)));
      return;
    }
    var user := found.value;
    if user.password.None? {
      res.Next(Some(PlainError(MissingHashMessage)));
      return;
    }
    if !Compare(password, user.password.value) {
      res.Next(Some(AppError(401, InvalidPassword)));
      return;
    }
    var token := Sign(user.id);
    res.Cookie(TokenCookie, token, TokenCookieOptions(nodeEnv));
    // The projection left out googleId and githubId; the handler deletes the password.
    var userResponse := DefaultView(user);
    res.Json(200, Session(SignedInMessage, userResponse, token));
  }

  /** `signOut`: clears the session cookie with the same flags and answers 200, whatever the
      request carried. */
  method SignOut(res: Response, nodeEnv: string)
    modifies res`statusCode, res`body, res`cookies
    ensures res.cookies == old(res.cookies)[TokenCookie := Cleared(ClearCookieOptions(nodeEnv))]
    ensures res.statusCode == 200 && res.body == Some(Notice(SignedOutMessage))
  {
    res.ClearCookie(TokenCookie, ClearCookieOptions(nodeEnv));
    res.Json(200, Notice(SignedOutMessage));
  }

  /** `getProfile`: answers 200 with the user `authorize` bound to the request. */
  method GetProfile(req: Request, res: Response)
    modifies res`statusCode, res`body
    ensures res.statusCode == 200 && res.body == Some(Profile(req.user))
  {
    res.Json(200, Profile(req.user));
  }

  /** `process.env.FRONTEND_URL || 'http://localhost:5173'`. */
  function RedirectTarget(frontendUrl: Option<string>): (url: string)
    ensures frontendUrl.Some? && frontendUrl.value != "" ==> url == frontendUrl.value
    ensures !(frontendUrl.Some? && frontendUrl.value != "") ==> url == DefaultFrontendUrl
  {
    if frontendUrl.Some? && frontendUrl.value != "" then frontendUrl.value else DefaultFrontendUrl
  }

  /** `socialAuthCallback`: issues a token for the user passport resolved, sets the session
      cookie and redirects to the frontend; no JSON body. */
  method SocialAuthCallback(req: Request, res: Response, nodeEnv: string, frontendUrl: Option<string>)
    modifies res`statusCode, res`cookies, res`location, res`nextCalls, res`forwarded
    ensures req.user.Some? ==>
              && res.cookies == old(res.cookies)[TokenCookie := Set(Sign(req.user.value.id), TokenCookieOptions(nodeEnv))]
              && res.statusCode == 302 && res.location == Some(RedirectTarget(frontendUrl))
              && res.nextCalls == old(res.nextCalls) && res.forwarded == old(res.forwarded)
    ensures req.user.None? ==>
              && res.nextCalls == old(res.nextCalls) + 1 && res.forwarded == Some(PlainError(NoUserMessage))
              && res.cookies == old(res.cookies) && res.location == old(res.location)
              && res.statusCode == old(res.statusCode)
  {
    if req.user.None? {
      res.Next(Some(PlainError(NoUserMessage)));
      return;
    }
    var token := Sign(req.user.value.id);
    res.Cookie(TokenCookie, token, TokenCookieOptions(nodeEnv));
    res.Redirect(RedirectTarget(frontendUrl));
  }

  /** The schema's `minLength: 6` sees the stored hash, never the plaintext, so it cannot
      reject any password given to signUp. */
  lemma PasswordLengthCheckSeesHash(password: string)
    ensures PasswordErrors(Some(Hash(password))) == []
    ensures JsLength(password) < 6 ==> PasswordErrors(Some(password)) != []
  {
    HashIsNotPlaintext(password);
    JsLengthBounds(Hash(password));
  }

  /** Signing up and then signing in with the same credentials succeeds for the same user. */
  method SignUpThenSignIn(store: UserStore, nodeEnv: string, name: string, email: string, password: string)
    returns (signUp: Response, signIn: Response)
    requires store.Valid()
    requires !HasEmail(store.users, email)
    requires FieldErrors(SetName(Some(name)), SetEmail(Some(email)), Some(Hash(password))) == []
    modifies store
    ensures fresh(signUp) && fresh(signIn)
    ensures signUp.statusCode == 201 && signIn.statusCode == 200
    ensures signUp.body.Some? && signUp.body.value.Session? && signIn.body.Some? && signIn.body.value.Session?
    ensures signUp.body.value.user.id == signIn.body.value.user.id
    ensures signUp.body.value.token == signIn.body.value.token
  {
    signUp := new Response();
    SignUp(store, signUp, nodeEnv, name, email, password);
    ghost var id := signUp.body.value.user.id;
    assert id in store.users && store.users[id].email == NormalizeEmail(email);
    signIn := new Response();
    SignIn(store, signIn, nodeEnv, email, password);
    assert store.users[id].password == Some(Hash(password));
  }
}
