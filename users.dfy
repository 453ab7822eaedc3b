/** The user table of the server's database, seen through the two queries
    and two writes the authentication code issues against it. */
module Users {
  import opened Wrappers

  type UserId = nat

  const GoogleProvider := "google"

  /** One row of the user table. */
  datatype UserRecord = UserRecord(
    id: UserId,
    email: string,
    username: Option<string>,
    avatar: Option<string>,
    provider: string,
    providerId: Option<string>,
    password: Option<string>,
    refreshToken: Option<string>,
    phoneNo: Option<string>,
    role: string,
    createdAt: string,
    updatedAt: string)

  /** The columns a `create` call supplies. */
  datatype NewUser = NewUser(
    email: string,
    provider: string,
    providerId: Option<string>,
    username: Option<string>,
    avatar: Option<string>,
    password: Option<string>)

  /** The columns the database fills in itself on `create`. */
  datatype Defaults = Defaults(role: string, createdAt: string, updatedAt: string)

  /** The whole table plus the id the next `create` assigns. */
  datatype Db = Db(users: map<UserId, UserRecord>, nextId: nat)

  /** The `where` filters the code uses. */
  datatype Query = ByProvider(provider: string, providerId: string) | ByEmail(email: string)

  predicate Matches(u: UserRecord, q: Query) {
    match q
    case ByProvider(p, pid) => u.provider == p && u.providerId == Some(pid)
    case ByEmail(e) => u.email == e
  }

  predicate UniqueEmails(users: map<UserId, UserRecord>) {
    forall a, b :: a in users && b in users && users[a].email == users[b].email ==> a == b
  }

  /** The table's own invariant: every row sits under its own id, ids are
      below the next id to hand out, and the email column is unique. */
  predicate Valid(db: Db) {
    && (forall id :: id in db.users ==> id < db.nextId && db.users[id].id == id)
    && UniqueEmails(db.users)
  }

  /** The row a `create` inserts under `id`. */
  function Build(id: UserId, data: NewUser, d: Defaults): (u: UserRecord)
    ensures u.id == id && u.email == data.email && u.provider == data.provider
    ensures u.providerId == data.providerId && u.password == data.password
    ensures u.username == data.username && u.avatar == data.avatar
    ensures u.refreshToken == None && u.phoneNo == None
    ensures u.role == d.role && u.createdAt == d.createdAt && u.updatedAt == d.updatedAt
  {
    UserRecord(id, data.email, data.username, data.avatar, data.provider, data.providerId,
               data.password, None, None, d.role, d.createdAt, d.updatedAt)
  }

  /** The first id in `[from, to)` whose row matches `q`. */
  function FirstFrom(users: map<UserId, UserRecord>, q: Query, from: nat, to: nat): (r: Option<UserId>)
    decreases to - from
    ensures r.Some? ==> from <= r.value < to && r.value in users && Matches(users[r.value], q)
    ensures r.Some? ==> forall j :: from <= j < r.value && j in users ==> !Matches(users[j], q)
    ensures r.None? ==> forall j :: from <= j < to && j in users ==> !Matches(users[j], q)
  {
    if from >= to then None
    else if from in users && Matches(users[from], q) then Some(from)
    else FirstFrom(users, q, from + 1, to)
  }

  /** `findFirst({ where: q })`: the matching row with the smallest id. */
  function Lookup(db: Db, q: Query): Option<UserId> {
    FirstFrom(db.users, q, 0, db.nextId)
  }

  /** The scan stops at the first match: a matching row with no matching
      row before it in the range is the one found. */
  lemma FirstFromFinds(users: map<UserId, UserRecord>, q: Query, from: nat, to: nat, id: UserId)
    requires from <= id < to && id in users && Matches(users[id], q)
    requires forall j :: from <= j < id && j in users ==> !Matches(users[j], q)
    ensures FirstFrom(users, q, from, to) == Some(id)
  {
  }

  /** On a valid table, a lookup misses exactly when no row matches. */
  lemma LookupMissesIffNoMatch(db: Db, q: Query)
    requires Valid(db)
    ensures Lookup(db, q).None? <==> forall id :: id in db.users ==> !Matches(db.users[id], q)
  {
  }

  /** Since emails are unique, looking up by email finds the one row with
      that email, whatever its provider (`findUnique({ where: { email } })`). */
  lemma LookupByEmailIsUnique(db: Db, id: UserId)
    requires Valid(db) && id in db.users
    ensures Lookup(db, ByEmail(db.users[id].email)) == Some(id)
  {
  }

  /** The table after the refresh-token column of row `id` is overwritten. */
  function WithRefreshToken(users: map<UserId, UserRecord>, id: UserId, token: string): map<UserId, UserRecord>
    requires id in users
  {
    users[id := users[id].(refreshToken := Some(token))]
  }

  /** The database client, holding the table it updates in place. */
  class UserStore {
    var users: map<UserId, UserRecord>
    var nextId: nat

    constructor (db: Db)
      ensures users == db.users && nextId == db.nextId
    {
      users := db.users;
      nextId := db.nextId;
    }

    function Snapshot(): Db
      reads this
    {
      Db(users, nextId)
    }

    /** `user.findUnique({ where: { id } })` */
    function FindById(id: UserId): (r: Option<UserRecord>)
      reads this
      ensures r.Some? <==> id in users
      ensures r.Some? ==> r.value == users[id]
    {
      if id in users then Some(users[id]) else None
    }

    /** `user.findFirst({ where: q })` and, for an email, `findUnique`. */
    function FindFirst(q: Query): (r: Option<UserRecord>)
      reads this
      ensures r.Some? ==> Lookup(Snapshot(), q).Some? && r.value == users[Lookup(Snapshot(), q).value]
      ensures r.None? ==> Lookup(Snapshot(), q).None?
    {
      match Lookup(Snapshot(), q)
      case None => None
      case Some(id) => Some(users[id])
    }

    /** `user.create({ data })`: a new row under the next id. */
    method Create(data: NewUser, d: Defaults) returns (u: UserRecord)
      modifies this
      ensures u == Build(old(nextId), data, d)
      ensures users == old(users)[u.id := u] && nextId == old(nextId) + 1
    {
      u := Build(nextId, data, d);
      users := users[nextId := u];
      nextId := nextId + 1;
    }

    /** `user.update({ where: { id }, data: { refreshToken } })`; reports
        whether the row existed (the client throws when it does not). */
    method UpdateRefreshToken(id: UserId, token: string) returns (found: bool)
      modifies this
      ensures found == (id in old(users)) && nextId == old(nextId)
      ensures found ==> users == WithRefreshToken(old(users), id, token)
      ensures !found ==> users == old(users)
    {
      found := id in users;
      if found {
        users := WithRefreshToken(users, id, token);
      }
    }
  }
}
