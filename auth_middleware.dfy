/** The request guard `verifyJWT` in front of the server's protected routes:
    it picks an access token from the request, checks it, re-reads the user
    by the id the token carries, and either attaches that user to the request
    and passes the request on, or ends it with status 401. */
module AuthMiddleware {
  import opened Wrappers
  import opened Strings
  import opened Http
  import opened Users

  const BearerPrefix := "Bearer "

  const MsgAuthRequired := "Authentication required. Please login."
  const MsgExpired := "Token has expired. Please login again."
  const MsgInvalid := "Invalid token. Please login again."
  const MsgUserNotFound := "User not found. Please login again."
  const MsgAuthFailed := "Authentication failed. Please login again."

  /** What `jwt.verify(token, ACCESS_TOKEN_SECRET)` does with a token: it
      returns the decoded payload's `id`, or throws a `TokenExpiredError`, or
      throws any other error. */
  datatype TokenCheck = Decoded(id: UserId) | Expired | Invalid

  /** The user attached to the request: the columns the lookup selects.
      It has no password, refresh-token or provider-id column. */
  datatype SessionUser = SessionUser(
    id: UserId,
    email: string,
    username: Option<string>,
    avatar: Option<string>,
    provider: string,
    phoneNo: Option<string>,
    role: string,
    createdAt: string,
    updatedAt: string)

  /** `{ success: false, message }` */
  datatype ErrorBody = ErrorBody(success: bool, message: string)

  /** How the guard ends a request: it admits it (sets `req.user`, calls
      `next()`), answers it itself (`res.status(...).json(...)`), or throws. */
  datatype Verdict =
    | Admit(user: SessionUser)
    | Respond(status: int, body: ErrorBody)
    | Raise(error: ApiError)

  /** The `select` projection of the user lookup. */
  function Select(u: UserRecord): (s: SessionUser)
    ensures s.id == u.id && s.email == u.email && s.username == u.username
    ensures s.avatar == u.avatar && s.provider == u.provider && s.phoneNo == u.phoneNo
    ensures s.role == u.role && s.createdAt == u.createdAt && s.updatedAt == u.updatedAt
  {
    SessionUser(u.id, u.email, u.username, u.avatar, u.provider, u.phoneNo, u.role, u.createdAt, u.updatedAt)
  }

  /** `req.cookies?.accessToken || req.header("Authorization")?.replace("Bearer ", "")` */
  function ExtractToken(cookie: Option<string>, authorization: Option<string>): (t: Option<string>)
    ensures Truthy(cookie) ==> t == cookie
    ensures !Truthy(cookie) && authorization.None? ==> t == None
    ensures !Truthy(cookie) && authorization.Some? ==> t == Some(ReplaceFirst(authorization.value, BearerPrefix, ""))
  {
    if Truthy(cookie) then cookie
    else match authorization
      case None => None
      case Some(h) => Some(ReplaceFirst(h, BearerPrefix, ""))
  }

  /** The outer `catch`: whatever was thrown becomes a 401 carrying the
      thrown message, or the fallback text when that message is empty. */
  function Rethrow(message: string): (e: ApiError)
    ensures e.statusCode == 401
    ensures e.message != ""
    ensures message != "" ==> e.message == message
    ensures message == "" ==> e.message == MsgAuthFailed
  {
    ApiError(401, if message != "" then message else MsgAuthFailed)
  }

  /** The whole decision of `verifyJWT`. `verify` is the token check and
      `fault` is the error, if any, the user lookup throws. */
  function Guard(cookie: Option<string>, authorization: Option<string>, verify: string -> TokenCheck,
                 users: map<UserId, UserRecord>, fault: Option<string>): (v: Verdict)
    ensures v.Respond? ==> v.status == 401 && !v.body.success
    ensures !Truthy(ExtractToken(cookie, authorization)) ==> v == Respond(401, ErrorBody(false, MsgAuthRequired))
    ensures v.Raise? ==> v.error.statusCode == 401
    ensures var t := ExtractToken(cookie, authorization);
      v.Admit? <==> Truthy(t) && verify(t.value).Decoded? && fault.None? && verify(t.value).id in users
    ensures v.Admit? ==>
      var t := ExtractToken(cookie, authorization);
      v.user == Select(users[verify(t.value).id])
  {
    var token := ExtractToken(cookie, authorization);
    if !Truthy(token) then Respond(401, ErrorBody(false, MsgAuthRequired))
    else match verify(token.value)
      case Expired => Respond(401, ErrorBody(false, MsgExpired))
      case Invalid => Raise(Rethrow(MsgInvalid))
      case Decoded(id) =>
        if fault.Some? then Raise(Rethrow(fault.value))
        else if id !in users then Raise(Rethrow(MsgUserNotFound))
        else Admit(Select(users[id]))
  }

  /** A truthy `accessToken` cookie decides the token: the Authorization
      header is not consulted at all. */
  lemma CookieTakesPrecedence(cookie: Option<string>, h1: Option<string>, h2: Option<string>,
                              verify: string -> TokenCheck, users: map<UserId, UserRecord>, fault: Option<string>)
    requires Truthy(cookie)
    ensures Guard(cookie, h1, verify, users, fault) == Guard(cookie, h2, verify, users, fault)
  {
  }

  /** An empty or absent cookie falls back to the header. */
  lemma EmptyCookieFallsBackToHeader(h: Option<string>)
    ensures ExtractToken(Some(""), h) == ExtractToken(None, h)
  {
  }

  /** `Bearer <t>` yields `<t>`; only that first `Bearer ` is removed, so
      `Bearer Bearer x` yields `Bearer x`. */
  lemma BearerHeaderYieldsRest(t: string)
    ensures ExtractToken(None, Some(BearerPrefix + t)) == Some(t)
  {
    var h := BearerPrefix + t;
    assert h[0..|BearerPrefix|] == BearerPrefix;
    assert FirstOccurrence(h, BearerPrefix, 0) == Some(0);
    assert h[..0] + "" + h[|BearerPrefix|..] == t;
  }

  /** A header with no `Bearer ` anywhere in it is used verbatim. */
  lemma HeaderWithoutBearerIsVerbatim(h: string)
    requires forall j :: !OccursAt(h, BearerPrefix, j)
    ensures ExtractToken(None, Some(h)) == Some(h)
  {
  }

  /** `Bearer ` followed by nothing strips to the empty string, which counts as
      no token at all: 401 "Authentication required", nothing attached. */
  lemma BareBearerIsMissingToken(verify: string -> TokenCheck, users: map<UserId, UserRecord>, fault: Option<string>)
    ensures Guard(None, Some(BearerPrefix), verify, users, fault) == Respond(401, ErrorBody(false, MsgAuthRequired))
  {
  }

  /** Whichever way the token arrives, an expired token and any other
      rejected token get different messages, and only the expired one is
      answered directly. */
  lemma ExpiredIsToldApartFromInvalid(cookie: Option<string>, authorization: Option<string>,
                                      verify: string -> TokenCheck, users: map<UserId, UserRecord>, fault: Option<string>)
    ensures var t := ExtractToken(cookie, authorization);
      Truthy(t) && verify(t.value).Expired? ==>
      Guard(cookie, authorization, verify, users, fault) == Respond(401, ErrorBody(false, MsgExpired))
    ensures var t := ExtractToken(cookie, authorization);
      Truthy(t) && verify(t.value).Invalid? ==>
      Guard(cookie, authorization, verify, users, fault) == Raise(ApiError(401, MsgInvalid))
    ensures MsgExpired != MsgInvalid
  {
  }

  /** A token for an id with no row is refused with "User not found"; a
      lookup that throws is refused with the thrown message, or the fallback
      text when that message is empty. */
  lemma LookupFailuresAre401(cookie: Option<string>, authorization: Option<string>,
                             verify: string -> TokenCheck, users: map<UserId, UserRecord>, fault: Option<string>)
    requires var t := ExtractToken(cookie, authorization);
      Truthy(t) && verify(t.value).Decoded?
    ensures var t := ExtractToken(cookie, authorization);
      fault.None? && verify(t.value).id !in users ==>
      Guard(cookie, authorization, verify, users, fault) == Raise(ApiError(401, MsgUserNotFound))
    ensures fault == Some("") ==> Guard(cookie, authorization, verify, users, fault) == Raise(ApiError(401, MsgAuthFailed))
    ensures fault.Some? && fault.value != "" ==>
      Guard(cookie, authorization, verify, users, fault) == Raise(ApiError(401, fault.value))
  {
  }

  /** The user is re-resolved by the decoded id alone: two tables that agree
      on that one row give the same verdict, whatever else they hold. */
  lemma OnlyTheDecodedRowMatters(cookie: Option<string>, authorization: Option<string>, verify: string -> TokenCheck,
                                 u1: map<UserId, UserRecord>, u2: map<UserId, UserRecord>, fault: Option<string>)
    requires var t := ExtractToken(cookie, authorization);
      Truthy(t) && verify(t.value).Decoded? ==>
      var id := verify(t.value).id;
      (id in u1 <==> id in u2) && (id in u1 ==> u1[id] == u2[id])
    ensures Guard(cookie, authorization, verify, u1, fault) == Guard(cookie, authorization, verify, u2, fault)
  {
  }

  /** The parts of an Express request the guard reads and writes. */
  class Request {
    var cookieAccessToken: Option<string>
    var authorization: Option<string>
    var user: Option<SessionUser>

    constructor (cookie: Option<string>, authorization: Option<string>)
      ensures cookieAccessToken == cookie && this.authorization == authorization && user == None
    {
      cookieAccessToken := cookie;
      this.authorization := authorization;
      user := None;
    }
  }

  /** How control leaves the middleware. */
  datatype Outcome = CalledNext | Responded | Threw(error: ApiError)

  /** `verifyJWT(req, res, next)`. */
  method VerifyJwt(req: Request, res: Response<ErrorBody>, verify: string -> TokenCheck,
                   store: UserStore, fault: Option<string>) returns (outcome: Outcome)
    modifies req, res
    ensures req.cookieAccessToken == old(req.cookieAccessToken)
    ensures req.authorization == old(req.authorization)
    ensures match Guard(old(req.cookieAccessToken), old(req.authorization), verify, store.users, fault)
      case Admit(u) =>
        outcome == CalledNext && req.user == Some(u)
        && res.status == old(res.status) && res.body == old(res.body) && res.cookies == old(res.cookies)
      case Respond(code, b) =>
        outcome == Responded && req.user == old(req.user)
        && res.status == code && res.body == Some(b) && res.cookies == old(res.cookies)
      case Raise(e) =>
        outcome == Threw(e) && req.user == old(req.user)
        && res.status == old(res.status) && res.body == old(res.body) && res.cookies == old(res.cookies)
  {
    var token := ExtractToken(req.cookieAccessToken, req.authorization);
    if !Truthy(token) {
      res.Status(401);
      res.Json(ErrorBody(false, MsgAuthRequired));
      return Responded;
    }
    var decoded := verify(token.value);
    if decoded.Expired? {
      res.Status(401);
      res.Json(ErrorBody(false, MsgExpired));
      return Responded;
    }
    if decoded.Invalid? {
      return Threw(Rethrow(MsgInvalid));
    }
    if fault.Some? {
      return Threw(Rethrow(fault.value));
    }
    var user := store.FindById(decoded.id);
    if user.None? {
      return Threw(Rethrow(MsgUserNotFound));
    }
    req.user := Some(Select(user.value));
    return CalledNext;
  }
}
