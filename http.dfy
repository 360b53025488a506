/**
 * The parts of an Express request and response the handlers use: the incoming token sources,
 * `req.user`, the status and JSON body sent, the cookies set or cleared, a redirect, and the
 * calls made to `next` (with or without an error).
 */
module Http {
  import opened Wrappers
  import opened Errors
  import opened UserModel
  import opened TaskModel

  datatype SameSite = Lax | NoneSameSite

  datatype CookieOptions = CookieOptions(httpOnly: bool, secure: bool, sameSite: SameSite, maxAge: Option<int>)

  /** What the response asks the browser to do with one cookie. */
  datatype CookieDirective = Set(value: string, options: CookieOptions) | Cleared(options: CookieOptions)

  const TokenCookie := "token"
  const Production := "production"
  /** 24 * 60 * 60 * 1000: one day in milliseconds. */
  const OneDayMs := 86_400_000

  /** The options of the session cookie, which depend on NODE_ENV only. */
  function TokenCookieOptions(nodeEnv: string): (o: CookieOptions)
    ensures o.httpOnly && o.maxAge == Some(OneDayMs)
    ensures o.secure <==> nodeEnv == Production
    ensures o.sameSite == (if nodeEnv == Production then NoneSameSite else Lax)
  {
    CookieOptions(true, nodeEnv == Production, if nodeEnv == Production then NoneSameSite else Lax, Some(OneDayMs))
  }

  /** The options `signOut` passes to `clearCookie`: the same flags, no lifetime. */
  function ClearCookieOptions(nodeEnv: string): (o: CookieOptions)
    ensures o == TokenCookieOptions(nodeEnv).(maxAge := None)
  {
    CookieOptions(true, nodeEnv == Production, if nodeEnv == Production then NoneSameSite else Lax, None)
  }

  /** The JSON bodies the backend sends. Only Failure has `success: false`. */
  datatype Body =
    | Failure(message: string)                             // { success: false, message }
    | Notice(message: string)                              // { success: true, message }
    | Session(message: string, user: User, token: string)  // { success: true, message, data: { user, token } }
    | Profile(data: Option<User>)                          // { success: true, data: req.user }
    | TaskData(task: Task)                                 // { success: true, data: task }
    | TaskList(count: nat, tasks: seq<Task>)               // { success: true, count, data: tasks }

  class Request {
    /** `req.cookies.token`; None when there is no cookie (or no cookie parser). */
    const cookieToken: Option<string>
    /** `req.headers.authorization`. */
    const authorization: Option<string>
    /** `req.user`, set by the authorisation middleware or by passport. */
    var user: Option<User>

    constructor (cookieToken: Option<string>, authorization: Option<string>, user: Option<User>)
      ensures this.cookieToken == cookieToken && this.authorization == authorization && this.user == user
    {
      this.cookieToken := cookieToken;
      this.authorization := authorization;
      this.user := user;
    }
  }

  class Response {
    var statusCode: int
    var body: Option<Body>
    var cookies: map<string, CookieDirective>
    var location: Option<string>
    /** How many times `next` was called, and the error passed on the last call, if any. */
    var nextCalls: nat
    var forwarded: Option<ErrorValue>

    constructor ()
      ensures statusCode == 200 && body.None? && cookies == map[] && location.None?
      ensures nextCalls == 0 && forwarded.None?
    {
      statusCode := 200;
      body := None;
      cookies := map[];
      location := None;
      nextCalls := 0;
      forwarded := None;
    }

    /** `res.status(status).json(b)`. */
    method Json(status: int, b: Body)
      modifies this`statusCode, this`body
      ensures statusCode == status && body == Some(b)
    {
      statusCode := status;
      body := Some(b);
    }

    /** `res.cookie(name, value, options)`. */
    method Cookie(name: string, value: string, options: CookieOptions)
      modifies this`cookies
      ensures cookies == old(cookies)[name := Set(value, options)]
    {
      cookies := cookies[name := Set(value, options)];
    }

    /** `res.clearCookie(name, options)`. */
    method ClearCookie(name: string, options: CookieOptions)
      modifies this`cookies
      ensures cookies == old(cookies)[name := Cleared(options)]
    {
      cookies := cookies[name := Cleared(options)];
    }

    /** `res.redirect(url)`: a 302 to `url`. */
    method Redirect(url: string)
      modifies this`statusCode, this`location
      ensures statusCode == 302 && location == Some(url)
    {
      statusCode := 302;
      location := Some(url);
    }

    /** `next()` or `next(error)`. */
    method Next(error: Option<ErrorValue>)
      modifies this`nextCalls, this`forwarded
      ensures nextCalls == old(nextCalls) + 1 && forwarded == error
    {
      nextCalls := nextCalls + 1;
      forwarded := error;
    }
  }
}
