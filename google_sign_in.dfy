/** `googleSignIn`: the server's find-or-create account linker for Google
    identities. It verifies the ID token, finds the user bound to the Google
    subject or creates one (refusing an email that another account holds),
    stores a freshly issued refresh token on that user and answers with the
    user, both tokens in the body, and both tokens as cookies. */
module GoogleSignIn {
  import opened Wrappers
  import opened Http
  import opened Users

  const MsgEmailTaken := "Email already registered with another account"
  const MsgSignedIn := "Google sign-in successful"
  const AccessCookie := "accessToken"
  const RefreshCookie := "refreshToken"
  const Production := "production"

  /** The fields of a verified Google ID token that the handler uses. */
  datatype GooglePayload = GooglePayload(sub: string, email: string, name: Option<string>, picture: Option<string>)

  /** The outcome of `googleClient.verifyIdToken`: the payload, or the error it throws. */
  datatype Ticket = Verified(payload: GooglePayload) | Rejected(reason: string)

  /** What `generateTokens(user.id)` resolves to. */
  datatype TokenPair = TokenPair(accessToken: string, refreshToken: string)

  /** A user row without `password` and `refreshToken`. */
  datatype PublicUser = PublicUser(
    id: UserId,
    email: string,
    username: Option<string>,
    avatar: Option<string>,
    provider: string,
    providerId: Option<string>,
    phoneNo: Option<string>,
    role: string,
    createdAt: string,
    updatedAt: string)

  datatype SignInData = SignInData(user: PublicUser, accessToken: string, refreshToken: string)

  /** `new ApiResponse(statusCode, data, message)` */
  datatype ApiResponse = ApiResponse(statusCode: int, data: SignInData, message: string)

  /** Why the handler throws: the ID token was not accepted, or an `ApiError`. */
  datatype SignInError = TicketRejected(reason: string) | Refused(error: ApiError)

  /** The result of one sign-in and the table after it. */
  datatype Step = Step(outcome: Result<SignInData, SignInError>, db: Db)

  /** `const { password, refreshToken: _, ...userResponse } = user` */
  function Strip(u: UserRecord): (p: PublicUser)
    ensures p.id == u.id && p.email == u.email && p.username == u.username && p.avatar == u.avatar
    ensures p.provider == u.provider && p.providerId == u.providerId && p.phoneNo == u.phoneNo
    ensures p.role == u.role && p.createdAt == u.createdAt && p.updatedAt == u.updatedAt
  {
    PublicUser(u.id, u.email, u.username, u.avatar, u.provider, u.providerId, u.phoneNo, u.role, u.createdAt, u.updatedAt)
  }

  /** The columns of the user created for a first Google sign-in; `hashed`
      is the bcrypt hash of a random password. */
  function GoogleUser(p: GooglePayload, hashed: string): (u: NewUser)
    ensures u.email == p.email && u.username == p.name && u.avatar == p.picture
    ensures u.provider == GoogleProvider && u.providerId == Some(p.sub)
    ensures u.password == Some(hashed)
  {
    NewUser(p.email, GoogleProvider, Some(p.sub), p.name, p.picture, Some(hashed))
  }

  /** The options both cookies are set with. */
  function CookieOptionsFor(nodeEnv: Option<string>): (o: CookieOptions)
    ensures o.httpOnly && o.sameSite == "strict"
    ensures o.secure <==> nodeEnv == Some(Production)
  {
    CookieOptions(true, nodeEnv == Some(Production), "strict")
  }

  /** The two cookies a successful sign-in sets, in the order it sets them. */
  function SessionCookies(data: SignInData, nodeEnv: Option<string>): (cs: seq<Cookie>)
    ensures |cs| == 2
    ensures cs[0].name == AccessCookie && cs[0].value == data.accessToken
    ensures cs[1].name == RefreshCookie && cs[1].value == data.refreshToken
    ensures forall i :: 0 <= i < 2 ==> cs[i].options == CookieOptionsFor(nodeEnv)
  {
    var o := CookieOptionsFor(nodeEnv);
    [Cookie(AccessCookie, data.accessToken, o), Cookie(RefreshCookie, data.refreshToken, o)]
  }

  /** The sign-in decision and its effect on the table. `generate` stands for
      `generateTokens`, `hashed` for the hash of the random password, `d` for
      the columns the database fills in. */
  function SignIn(db: Db, ticket: Ticket, hashed: string, generate: UserId -> TokenPair, d: Defaults): (r: Step)
    requires Valid(db)
    ensures ticket.Rejected? ==> r == Step(Failure(TicketRejected(ticket.reason)), db)
    ensures r.outcome.Failure? ==> r.db == db
    ensures r.outcome.Success? ==>
      var data := r.outcome.value;
      var id := data.user.id;
      && ticket.Verified?
      && id in r.db.users
      && r.db.users[id].provider == GoogleProvider
      && r.db.users[id].providerId == Some(ticket.payload.sub)
      && r.db.users[id].refreshToken == Some(data.refreshToken)
      && data.accessToken == generate(id).accessToken
      && data.refreshToken == generate(id).refreshToken
      && Strip(r.db.users[id]) == data.user
      && (forall j :: j != id ==> (j in r.db.users <==> j in db.users))
      && (forall j :: j != id && j in db.users ==> r.db.users[j] == db.users[j])
  {
    match ticket
    case Rejected(reason) => Step(Failure(TicketRejected(reason)), db)
    case Verified(p) =>
      var found := Lookup(db, ByProvider(GoogleProvider, p.sub));
      if found.None? && Lookup(db, ByEmail(p.email)).Some? then
        Step(Failure(Refused(ApiError(409, MsgEmailTaken))), db)
      else
        var user := if found.Some? then db.users[found.value] else Build(db.nextId, GoogleUser(p, hashed), d);
        var table := if found.Some? then db.users else db.users[user.id := user];
        var nextId := if found.Some? then db.nextId else db.nextId + 1;
        var tokens := generate(user.id);
        Step(Success(SignInData(Strip(user), tokens.accessToken, tokens.refreshToken)),
             Db(WithRefreshToken(table, user.id, tokens.refreshToken), nextId))
  }

  predicate SameGoogleSubject(u: UserRecord, v: UserRecord) {
    u.provider == GoogleProvider && v.provider == GoogleProvider && u.providerId.Some? && u.providerId == v.providerId
  }

  /** No two Google rows share a subject. */
  predicate UniqueGoogleSubjects(users: map<UserId, UserRecord>) {
    forall a, b :: a in users && b in users && SameGoogleSubject(users[a], users[b]) ==> a == b
  }

  /** A sign-in keeps the table's invariant: ids in place and below the next
      id, and no two rows with one email. */
  lemma SignInPreservesValid(db: Db, ticket: Ticket, hashed: string, generate: UserId -> TokenPair, d: Defaults)
    requires Valid(db)
    ensures Valid(SignIn(db, ticket, hashed, generate, d).db)
  {
  }

  /** A sign-in keeps Google subjects unique: it only creates a Google row when
      no row carries that subject. */
  lemma SignInKeepsSubjectsUnique(db: Db, ticket: Ticket, hashed: string, generate: UserId -> TokenPair, d: Defaults)
    requires Valid(db) && UniqueGoogleSubjects(db.users)
    ensures UniqueGoogleSubjects(SignIn(db, ticket, hashed, generate, d).db.users)
  {
  }

  /** First sign-in of a subject whose email no row holds: exactly one row is
      added, under the next id, a Google row carrying the payload's subject,
      email, name and picture, the hashed random password and the issued
      refresh token. */
  lemma FirstSignInCreatesOneUser(db: Db, p: GooglePayload, hashed: string, generate: UserId -> TokenPair, d: Defaults)
    requires Valid(db)
    requires forall id :: id in db.users ==> !Matches(db.users[id], ByProvider(GoogleProvider, p.sub))
    requires forall id :: id in db.users ==> db.users[id].email != p.email
    ensures var r := SignIn(db, Verified(p), hashed, generate, d);
      var id := db.nextId;
      && r.outcome.Success?
      && r.outcome.value.user.id == id
      && r.db.nextId == db.nextId + 1
      && r.db.users == db.users[id := Build(id, GoogleUser(p, hashed), d).(refreshToken := Some(generate(id).refreshToken))]
      && |r.db.users| == |db.users| + 1
  {
  }

  /** A subject not yet bound whose email another row holds, whether a local
      row or a Google row with another subject, is refused with 409 and the
      table is left as it was. */
  lemma TakenEmailIsRefused(db: Db, p: GooglePayload, owner: UserId, hashed: string, generate: UserId -> TokenPair, d: Defaults)
    requires Valid(db)
    requires forall id :: id in db.users ==> !Matches(db.users[id], ByProvider(GoogleProvider, p.sub))
    requires owner in db.users && db.users[owner].email == p.email
    ensures SignIn(db, Verified(p), hashed, generate, d) == Step(Failure(Refused(ApiError(409, MsgEmailTaken))), db)
  {
  }

  /** A subject already bound to a row signs in as that row: no row is added,
      and the only change is that row's refresh token. */
  lemma BoundSubjectReusesRow(db: Db, p: GooglePayload, id: UserId, hashed: string, generate: UserId -> TokenPair, d: Defaults)
    requires Valid(db) && UniqueGoogleSubjects(db.users)
    requires id in db.users && Matches(db.users[id], ByProvider(GoogleProvider, p.sub))
    ensures var r := SignIn(db, Verified(p), hashed, generate, d);
      && r.outcome.Success?
      && r.outcome.value.user.id == id
      && r.db == Db(WithRefreshToken(db.users, id, generate(id).refreshToken), db.nextId)
  {
  }

  /** Signing in again with the same subject, whatever the rest of the new
      payload says, resolves to the same row and adds none. */
  lemma ReSignInIsIdempotent(db: Db, p: GooglePayload, p': GooglePayload, hashed: string, hashed': string,
                             generate: UserId -> TokenPair, generate': UserId -> TokenPair, d: Defaults, d': Defaults)
    requires Valid(db)
    requires p'.sub == p.sub
    requires SignIn(db, Verified(p), hashed, generate, d).outcome.Success?
    ensures var r1 := SignIn(db, Verified(p), hashed, generate, d);
      var r2 := SignIn(r1.db, Verified(p'), hashed', generate', d');
      && r2.outcome.Success?
      && r2.outcome.value.user.id == r1.outcome.value.user.id
      && r2.db.nextId == r1.db.nextId
      && r2.db.users.Keys == r1.db.users.Keys
  {
  }

  /** The handler itself, over the database client and the response. It
      returns the error it throws, if any. */
  method HandleGoogleSignIn(store: UserStore, res: Response<ApiResponse>, ticket: Ticket, hashed: string,
                            generate: UserId -> TokenPair, d: Defaults, nodeEnv: Option<string>)
    returns (thrown: Option<SignInError>)
    requires Valid(store.Snapshot())
    modifies store, res
    ensures var r := SignIn(old(store.Snapshot()), ticket, hashed, generate, d);
      && store.Snapshot() == r.db
      && match r.outcome
         case Failure(e) =>
           thrown == Some(e)
           && res.status == old(res.status) && res.cookies == old(res.cookies) && res.body == old(res.body)
         case Success(data) =>
           thrown == None && res.status == 200
           && res.cookies == old(res.cookies) + SessionCookies(data, nodeEnv)
           && res.body == Some(ApiResponse(200, data, MsgSignedIn))
  {
    if ticket.Rejected? {
      return Some(TicketRejected(ticket.reason));
    }
    var p := ticket.payload;
    var user := store.FindFirst(ByProvider(GoogleProvider, p.sub));
    if user.None? {
      var existing := store.FindFirst(ByEmail(p.email));
      if existing.Some? {
        return Some(Refused(ApiError(409, MsgEmailTaken)));
      }
      var created := store.Create(GoogleUser(p, hashed), d);
      user := Some(created);
    }
    var tokens := generate(user.value.id);
    var updated := store.UpdateRefreshToken(user.value.id, tokens.refreshToken);
    var data := SignInData(Strip(user.value), tokens.accessToken, tokens.refreshToken);
    var options := CookieOptionsFor(nodeEnv);
    res.Status(200);
    res.SetCookie(AccessCookie, tokens.accessToken, options);
    res.SetCookie(RefreshCookie, tokens.refreshToken, options);
    res.Json(ApiResponse(200, data, MsgSignedIn));
    return None;
  }
}
