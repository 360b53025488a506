/**
 * `authorize`: picks the session token (cookie first, then a `Bearer` header), verifies it,
 * loads the user it names without the password, and either binds that user to the request
 * and calls `next()` exactly once, or answers 401 without calling `next`.
 */
module AuthMiddleware {
  import opened Wrappers
  import opened Text
  import opened Crypto
  import opened UserModel
  import opened Http

  const NoTokenMessage := "No token provided, authorization denied"
  const AuthFailedMessage := "Authorization failed"
  const UserNotFoundMessage := "User not found, authorization denied"

  /** `header.split(' ')[1]`, which is undefined when the header has no space. */
  function BearerToken(header: string): Option<string> {
    var fields := Split(header, ' ');
    if |fields| > 1 then Some(fields[1]) else None
  }

  /** The token `authorize` uses: a non-empty `token` cookie, else the second space-separated
      field of an Authorization header that starts with "Bearer". */
  function ExtractToken(cookieToken: Option<string>, authorization: Option<string>): (r: Option<string>)
    ensures cookieToken.Some? && cookieToken.value != "" ==> r == cookieToken
    ensures !(cookieToken.Some? && cookieToken.value != "") && r.Some? ==>
              authorization.Some? && StartsWith(authorization.value, "Bearer") &&
              r == BearerToken(authorization.value)
  {
    if cookieToken.Some? && cookieToken.value != "" then cookieToken
    else if authorization.Some? && StartsWith(authorization.value, "Bearer") then BearerToken(authorization.value)
    else None
  }

  /** A well-formed `Bearer <token>` header yields exactly the token when there is no cookie. */
  lemma BearerHeaderYieldsToken(cookieToken: Option<string>, token: string)
    requires cookieToken.None? || cookieToken == Some("")
    requires forall k :: 0 <= k < |token| ==> token[k] != ' '
    ensures ExtractToken(cookieToken, Some("Bearer " + token)) == Some(token)
  {
    var h := "Bearer " + token;
    assert h == "Bearer" + [' '] + token;
    SplitAtFirst("Bearer", token, ' ');
    SplitNoSep(token, ' ');
    assert h[..6] == "Bearer";
  }

  /** A header that does not start with "Bearer" is never consulted. */
  lemma OtherHeaderIgnored(cookieToken: Option<string>, header: string)
    requires cookieToken.None? || cookieToken == Some("")
    requires !StartsWith(header, "Bearer")
    ensures ExtractToken(cookieToken, Some(header)) == None
  {
  }

  /** A header that is just "Bearer" carries no token. */
  lemma BareBearerHasNoToken()
    ensures ExtractToken(None, Some("Bearer")) == None
  {
    SplitNoSep("Bearer", ' ');
  }

  /** `authorize(req, res, next)`. Token expiry is the set of tokens `jwt.verify` rejects as expired. */
  method Authorize(users: UserStore, req: Request, res: Response, expired: set<string>)
    requires users.Valid()
    modifies req`user, res`statusCode, res`body, res`nextCalls, res`forwarded
    ensures var token := ExtractToken(req.cookieToken, req.authorization);
      if token.None? || token.value == "" then
        && res.statusCode == 401 && res.body == Some(Failure(NoTokenMessage))
        && res.nextCalls == old(res.nextCalls) && res.forwarded == old(res.forwarded) && req.user == old(req.user)
      else if Verify(token.value, expired).None? then
        && res.statusCode == 401 && res.body == Some(Failure(AuthFailedMessage))
        && res.nextCalls == old(res.nextCalls) && res.forwarded == old(res.forwarded) && req.user == old(req.user)
      else if Verify(token.value, expired).value !in users.users then
        && res.statusCode == 401 && res.body == Some(Failure(UserNotFoundMessage))
        && res.nextCalls == old(res.nextCalls) && res.forwarded == old(res.forwarded) && req.user == old(req.user)
      else
        && req.user == Some(DefaultView(users.users[Verify(token.value, expired).value]))
        && res.nextCalls == old(res.nextCalls) + 1 && res.forwarded.None?
        && res.statusCode == old(res.statusCode) && res.body == old(res.body)
  {
    var token := ExtractToken(req.cookieToken, req.authorization);
    if token.None? || token.value == "" {
      res.Json(401, Failure(NoTokenMessage));
      return;
    }
    var decoded := Verify(token.value, expired);
    if decoded.None? {
      // jwt.verify throws; the catch block answers.
      res.Json(401, Failure(AuthFailedMessage));
      return;
    }
    var user := users.FindById(decoded.value);
    if user.None? {
      res.Json(401, Failure(UserNotFoundMessage));
      return;
    }
    req.user := Some(DefaultView(user.value));
    res.Next(None);
  }

  /** The session cookie `signIn` and `signUp` set names its user to `authorize` until the token
      expires, whatever Authorization header comes with it. */
  lemma IssuedTokenAuthorises(id: nat, header: Option<string>, expired: set<string>)
    ensures ExtractToken(Some(Sign(id)), header) == Some(Sign(id))
    ensures Sign(id) !in expired ==> Verify(Sign(id), expired) == Some(id)
  {
    VerifySign(id, expired);
  }
}
