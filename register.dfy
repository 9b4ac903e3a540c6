/**
 * `POST /api/register`: validate the body, refuse a known email, insert the
 * user into the database `getDb` picked, derive the tenant name, register it
 * in `instances`, and insert a same-`_id` copy of the user, with the writes
 * going where the handler sends them (the last two to the connection's
 * default database) and errors mapped to 409 or 500 without rollback.
 */
module Register {
  import opened Wrappers
  import opened TenantNames
  import opened Documents
  import opened Sessions
  import opened Resolver
  import opened Mongo
  import opened Provisioning

  /** The JSON body; a non-boolean `termsAccepted` is taken by its truthiness. */
  datatype RegisterBody = RegisterBody(
    name: Option<string>,
    email: Option<string>,
    password: Option<string>,
    termsAccepted: bool,
    newsletterSubscription: Option<bool>,
    phoneNumber: Option<string>)

  /** The response; `Created` carries the returned `user` object. */
  datatype Outcome = Created(id: string, name: string, email: string, role: string) | BadRequest | Conflict | ServerError
  {
    function Status(): int {
      match this
      case Created(_, _, _, _) => 201
      case BadRequest => 400
      case Conflict => 409
      case ServerError => 500
    }
  }

  /** `name && email && password && termsAccepted`. */
  predicate Complete(b: RegisterBody) {
    Truthy(b.name) && Truthy(b.email) && Truthy(b.password) && b.termsAccepted
  }

  /** The user document the handler builds: role "user", a null image and the bcrypt hash, never the password itself. */
  function NewUser(id: ObjectId, b: RegisterBody, hash: (string, nat) -> string): UserDoc
    requires Complete(b)
  {
    UserDoc(id, b.name.value, b.email.value, hash(b.password.value, BcryptCost), b.phoneNumber, "user",
            b.termsAccepted, b.newsletterSubscription, None)
  }

  /** The catch block: code 11000 answers 409, anything else 500. */
  function CatchOutcome(e: Exception): (o: Outcome)
    ensures o.Status() == 409 <==> e.Code() == Some(11000)
    ensures o.Status() != 409 ==> o.Status() == 500
  {
    if e.Code() == Some(11000) then Conflict else ServerError
  }

  /** The request reaches the writes: getDb returned, the body is complete and the email is unknown to `UserModel`. */
  predicate ReachesWrites(s: Store, admin: Result<string, Exception>, defaultDb: string, body: Option<RegisterBody>) {
    && admin.Success? && body.Some? && Complete(body.value)
    && FirstWithEmail(Db(s, defaultDb).users, body.value.email.value).None?
  }

  /** The user the handler inserts: its `_id` is the second ObjectId drawn (the first is overwritten). */
  function UserFor(s: Store, body: Option<RegisterBody>, hash: (string, nat) -> string): UserDoc
    requires body.Some? && Complete(body.value)
  {
    NewUser(FreshId(s.nextOid + 1), body.value, hash)
  }

  /** The state after a 201 as the handler writes it. */
  ghost predicate RegisteredAsWritten(s: Store, t: Store, adminDb: string, defaultDb: string,
                                prefix: Option<string>, u: UserDoc, o: Outcome)
  {
    && adminDb != defaultDb
    && Db(t, adminDb) == Db(s, adminDb).(users := Db(s, adminDb).users + [u])
    && Db(t, defaultDb) == Db(s, defaultDb).(instances := Db(s, defaultDb).instances + [EntryFor(prefix, u.id)],
                                             users := Db(s, defaultDb).users + [u])
    && (forall other :: other != adminDb && other != defaultDb ==> Db(t, other) == Db(s, other))
    && Listing(t) == Listing(s) + {adminDb, defaultDb}
    && o == Created(ObjectIdString(u.id), u.name, u.email, u.role)
  }

  /**
   * The handler after `getDb` (whose result is `admin`).  `hasDb` says whether
   * `mongoose.connection.db` is set; `sessionHasId` whether `session.user.id`
   * can be read and is set (hashing an absent id throws like reading it
   * through a missing user); `defaultDb` is the connection's own database.
   */
  function Register(s: Store, admin: Result<string, Exception>, hasDb: bool, defaultDb: string,
                    instancePrefix: Option<string>, sessionHasId: bool,
                    body: Option<RegisterBody>, hash: (string, nat) -> string): (r: (Outcome, Store))
    ensures admin.Failure? || body.None? ==> r == (ServerError, s)
    ensures r.0 == BadRequest <==> admin.Success? && body.Some? && !Complete(body.value)
    ensures r.0 == BadRequest ==> r.1 == s
    ensures (admin.Success? && body.Some? && Complete(body.value)
             && FirstWithEmail(Db(s, defaultDb).users, body.value.email.value).Some?) ==> r == (Conflict, s)
    ensures !ReachesWrites(s, admin, defaultDb, body) ==> r.1 == s
    ensures r.0.Created? ==> ReachesWrites(s, admin, defaultDb, body) && hasDb && sessionHasId
                             && RegisteredAsWritten(s, r.1, admin.value, defaultDb, instancePrefix, UserFor(s, body, hash), r.0)
    ensures ReachesWrites(s, admin, defaultDb, body) ==> r.1.nextOid == s.nextOid + 2
    ensures r.0.Created? ==>
              var u := UserFor(s, body, hash);
              && r.0.role == "user" && u.role == "user" && u.image.None?
              && u.password == hash(body.value.password.value, BcryptCost)
  {
    if admin.Failure? then (ServerError, s)
    else if body.None? then (ServerError, s)  // req.json() rejects
    else if !Complete(body.value) then (BadRequest, s)
    else if FirstWithEmail(Db(s, defaultDb).users, body.value.email.value).Some? then (Conflict, s)
    else
      var r := Writes(Draw(s, 2), admin.value, hasDb, defaultDb, instancePrefix, sessionHasId, UserFor(s, body, hash));
      assert r.0.Created? ==> RegisteredAsWritten(s, r.1, admin.value, defaultDb, instancePrefix, UserFor(s, body, hash), r.0) by {
        assert Listing(Draw(s, 2)) == Listing(s);
        assert forall name :: Db(Draw(s, 2), name) == Db(s, name);
      }
      r
  }

  /** From `insertOne` into getDb's database onwards; `s` already holds the two drawn ids. */
  function Writes(s: Store, adminDb: string, hasDb: bool, defaultDb: string, instancePrefix: Option<string>,
                  sessionHasId: bool, user: UserDoc): (r: (Outcome, Store))
    ensures r.1.nextOid == s.nextOid
    ensures r.0.Created? ==> hasDb && sessionHasId
                             && RegisteredAsWritten(s, r.1, adminDb, defaultDb, instancePrefix, user, r.0)
  {
    match InsertUser(s, adminDb, user)
    case Failure(e) => (CatchOutcome(e), s)
    case Success(s2) =>
      var r := AfterAdminInsert(s2, hasDb, defaultDb, instancePrefix, sessionHasId, user);
      assert HasUserId(Db(s2, adminDb).users, user.id) by {
        assert Db(s2, adminDb).users[|Db(s, adminDb).users|] == user;
      }
      r
  }

  /** From the tenant name onwards: register it in `instances`, read `session.user.id`, insert the copy. */
  function AfterAdminInsert(s: Store, hasDb: bool, defaultDb: string, instancePrefix: Option<string>,
                            sessionHasId: bool, user: UserDoc): (r: (Outcome, Store))
    ensures r.1.nextOid == s.nextOid
    ensures r.0.Created? ==>
              && hasDb && sessionHasId && !HasUserId(Db(s, defaultDb).users, user.id)
              && Db(r.1, defaultDb) == Db(s, defaultDb).(instances := Db(s, defaultDb).instances + [EntryFor(instancePrefix, user.id)],
                                                        users := Db(s, defaultDb).users + [user])
              && (forall other :: other != defaultDb ==> Db(r.1, other) == Db(s, other))
              && Listing(r.1) == Listing(s) + {defaultDb}
              && r.0 == Created(ObjectIdString(user.id), user.name, user.email, user.role)
  {
    var userId := ObjectIdString(user.id);
    if !hasDb then (ServerError, s)
    else
      var s3 := AppendInstance(s, defaultDb, Instance(userId, TenantDbName(instancePrefix, userId)));
      if !sessionHasId then (ServerError, s3)  // session.user.id on a missing session, or fnv1a32(undefined)
      else
        ObjectIdRoundTrip(user.id);
        match ParseObjectId(userId)
        case None => (ServerError, s3)
        case Some(oid) =>
          match InsertUser(s3, defaultDb, user.(id := oid))
          case Failure(e) => (CatchOutcome(e), s3)
          case Success(s4) => (Created(userId, user.name, user.email, user.role), s4)
  }

  /**
   * Nothing is rolled back: once the user is in getDb's database, and once
   * `connection.db` let the registry entry be written, they stay, whatever
   * the handler answers.
   */
  lemma WritesAreNotUndone(s: Store, admin: Result<string, Exception>, hasDb: bool, defaultDb: string,
                           instancePrefix: Option<string>, sessionHasId: bool,
                           body: Option<RegisterBody>, hash: (string, nat) -> string)
    requires ReachesWrites(s, admin, defaultDb, body)
    requires !HasUserId(Db(s, admin.value).users, UserFor(s, body, hash).id)
    ensures var r := Register(s, admin, hasDb, defaultDb, instancePrefix, sessionHasId, body, hash);
            var u := UserFor(s, body, hash);
            && u in Db(r.1, admin.value).users
            && (hasDb ==> EntryFor(instancePrefix, u.id) in Db(r.1, defaultDb).instances)
  {
    var u := UserFor(s, body, hash);
    var s1 := Draw(s, 2);
    assert Db(s1, admin.value) == Db(s, admin.value);
    var s2 := InsertUser(s1, admin.value, u).value;
    assert Db(s2, admin.value).users[|Db(s, admin.value).users|] == u;
    var r := AfterAdminInsert(s2, hasDb, defaultDb, instancePrefix, sessionHasId, u);
    AfterAdminInsertOnlyAppends(s2, hasDb, defaultDb, instancePrefix, sessionHasId, u);
    if admin.value == defaultDb {
      assert Db(r.1, admin.value).users[|Db(s, admin.value).users|] == u;
    }
    if hasDb {
      var k := |Db(s2, defaultDb).instances|;
      assert Db(r.1, defaultDb).instances[k] == EntryFor(instancePrefix, u.id);
    }
  }

  /** After the admin insert the handler only appends: other databases stay, users only grow, and the registry entry stays. */
  lemma AfterAdminInsertOnlyAppends(s: Store, hasDb: bool, defaultDb: string, instancePrefix: Option<string>,
                                    sessionHasId: bool, user: UserDoc)
    ensures var r := AfterAdminInsert(s, hasDb, defaultDb, instancePrefix, sessionHasId, user);
            && (forall other :: other != defaultDb ==> Db(r.1, other) == Db(s, other))
            && Db(s, defaultDb).users <= Db(r.1, defaultDb).users
            && (hasDb ==> Db(r.1, defaultDb).instances == Db(s, defaultDb).instances + [EntryFor(instancePrefix, user.id)])
  {
  }

  /** The route handler. */
  method Post(c: Cluster, session: Session?, body: Option<RegisterBody>, hash: (string, nat) -> string)
    returns (outcome: Outcome)
    modifies c`readyState, c`hasDb, c`store
    ensures old(c.readyState) == Disconnected ==> c.readyState == Connected && c.hasDb
    ensures old(c.readyState) != Disconnected ==> c.readyState == old(c.readyState) && c.hasDb == old(c.hasDb)
    ensures (outcome, c.store) ==
            Register(old(c.store),
                     ResolveDbName(AuthenticatedUserId(session), if c.hasDb then Some(Listing(old(c.store))) else None,
                                   c.env.adminDbName, c.env.dbPrefix),
                     c.hasDb, c.defaultDb, c.env.instanceDbPrefix, HasUserIdSet(session), body, hash)
  {
    var admin := c.GetDb(session);
    outcome := Respond(c, admin, session, body, hash);
  }

  /** The handler once `getDb` has answered `admin`: validation, the email check and the writes. */
  method Respond(c: Cluster, admin: Result<string, Exception>, session: Session?, body: Option<RegisterBody>,
                 hash: (string, nat) -> string) returns (outcome: Outcome)
    modifies c`store
    ensures (outcome, c.store) ==
            Register(old(c.store), admin, c.hasDb, c.defaultDb, c.env.instanceDbPrefix, HasUserIdSet(session), body, hash)
  {
    ghost var s0 := c.store;
    ghost var expected := Register(s0, admin, c.hasDb, c.defaultDb, c.env.instanceDbPrefix, HasUserIdSet(session), body, hash);
    if admin.Failure? {
      assert expected == (ServerError, s0);
      return ServerError;
    }
    if body.None? {
      assert expected == (ServerError, s0);
      return ServerError;
    }
    var b := body.value;
    if !Complete(b) {
      assert expected == (BadRequest, s0);
      return BadRequest;
    }
    var existing := c.FindOneUser(c.defaultDb, b.email.value);
    if existing.Some? {
      assert expected == (Conflict, s0);
      return Conflict;
    }
    var hashed := hash(b.password.value, BcryptCost);
    var discarded := c.NewObjectId();
    var id := c.NewObjectId();
    var user := UserDoc(id, b.name.value, b.email.value, hashed, b.phoneNumber, "user",
                        b.termsAccepted, b.newsletterSubscription, None);
    assert user == UserFor(s0, body, hash) && c.store == Draw(s0, 2);
    assert expected == Writes(c.store, admin.value, c.hasDb, c.defaultDb, c.env.instanceDbPrefix, HasUserIdSet(session), user);
    outcome := InsertAndLink(c, admin.value, session, user);
  }

  /** The writes of the handler, from `insertOne` into getDb's database. */
  method InsertAndLink(c: Cluster, adminDb: string, session: Session?, user: UserDoc) returns (outcome: Outcome)
    modifies c`store
    ensures (outcome, c.store) ==
            Writes(old(c.store), adminDb, c.hasDb, c.defaultDb, c.env.instanceDbPrefix, HasUserIdSet(session), user)
  {
    var thrown := c.InsertOneUser(adminDb, user);
    if thrown.Some? {
      return CatchOutcome(thrown.value);
    }
    outcome := LinkTenant(c, session, user);
  }

  /** The handler after the first insert: `createInstance`, `session.user.id`, and the copy of the user. */
  method LinkTenant(c: Cluster, session: Session?, user: UserDoc) returns (outcome: Outcome)
    modifies c`store
    ensures (outcome, c.store) ==
            AfterAdminInsert(old(c.store), c.hasDb, c.defaultDb, c.env.instanceDbPrefix, HasUserIdSet(session), user)
  {
    var userId := ObjectIdString(user.id);
    var dbName := TenantDbName(c.env.instanceDbPrefix, userId);
    if !c.hasDb {
      return ServerError;
    }
    CreateInstance(c, c.defaultDb, userId, dbName);
    if !HasUserIdSet(session) {
      return ServerError;
    }
    // createCollection('users') on getDb's database, which the first insert created: no change
    var oid := ParseObjectId(userId);
    if oid.None? {
      return ServerError;
    }
    var thrown := c.InsertOneUser(c.defaultDb, user.(id := oid.value));
    if thrown.Some? {
      return CatchOutcome(thrown.value);
    }
    return Created(userId, user.name, user.email, user.role);
  }

  /**
   * A visitor who is not signed in gets a 500, yet the user is already in
   * getDb's database and the registry entry already in the default database:
   * `session.user.id` is read after both writes and nothing is undone.
   */
  lemma UnauthenticatedRegistrationFails(s: Store, admin: Result<string, Exception>, defaultDb: string,
                                         prefix: Option<string>, body: Option<RegisterBody>,
                                         hash: (string, nat) -> string)
    requires ReachesWrites(s, admin, defaultDb, body)
    requires !HasUserId(Db(s, admin.value).users, UserFor(s, body, hash).id)
    ensures var r := Register(s, admin, true, defaultDb, prefix, false, body, hash);
            var u := UserFor(s, body, hash);
            && r.0.Status() == 500
            && u in Db(r.1, admin.value).users
            && EntryFor(prefix, u.id) in Db(r.1, defaultDb).instances
  {
    var u := UserFor(s, body, hash);
    var s2 := InsertUser(Draw(s, 2), admin.value, u).value;
    assert Db(s2, admin.value).users[|Db(s, admin.value).users|] == u;
    var s3 := AppendInstance(s2, defaultDb, EntryFor(prefix, u.id));
    assert Db(s3, defaultDb).instances[|Db(s2, defaultDb).instances|] == EntryFor(prefix, u.id);
  }

  /**
   * When getDb's database is the connection's default one, the copy reuses the
   * `_id` just inserted there: the handler answers 409 although it created the user.
   */
  lemma SameDatabaseRegistrationConflicts(s: Store, admin: Result<string, Exception>, defaultDb: string,
                                          prefix: Option<string>, body: Option<RegisterBody>,
                                          hash: (string, nat) -> string)
    requires ReachesWrites(s, admin, defaultDb, body) && admin.value == defaultDb
    requires !HasUserId(Db(s, admin.value).users, UserFor(s, body, hash).id)
    ensures var r := Register(s, admin, true, defaultDb, prefix, true, body, hash);
            && r.0.Status() == 409
            && UserFor(s, body, hash) in Db(r.1, admin.value).users
  {
    var u := UserFor(s, body, hash);
    var s2 := InsertUser(Draw(s, 2), admin.value, u).value;
    assert Db(s2, admin.value).users[|Db(s, admin.value).users|] == u;
    var s3 := AppendInstance(s2, defaultDb, EntryFor(prefix, u.id));
    ObjectIdRoundTrip(u.id);
    assert HasUserId(Db(s3, defaultDb).users, u.id);
  }

  /**
   * A 201 never creates the tenant database: the copy went to the default
   * database, so a session carrying the new id is served exactly what an
   * anonymous visitor is served.
   */
  lemma RegisteredUserNotRouted(s: Store, admin: Result<string, Exception>, hasDb: bool, defaultDb: string,
                                prefix: Option<string>, sessionHasId: bool, body: Option<RegisterBody>,
                                hash: (string, nat) -> string, adminDbName: Option<string>)
    requires admin.Success?
    requires Register(s, admin, hasDb, defaultDb, prefix, sessionHasId, body, hash).0.Created?
    requires var name := TenantDbName(prefix, Register(s, admin, hasDb, defaultDb, prefix, sessionHasId, body, hash).0.id);
             name !in Listing(s) && name != admin.value && name != defaultDb
    ensures var r := Register(s, admin, hasDb, defaultDb, prefix, sessionHasId, body, hash);
            && TenantDbName(prefix, r.0.id) !in Listing(r.1)
            && ResolveDbName(Some(r.0.id), Some(Listing(r.1)), adminDbName, prefix)
               == ResolveDbName(None, Some(Listing(r.1)), adminDbName, prefix)
  {
  }

  /**
   * The email check reads the default database (`UserModel`) while the user
   * goes into getDb's database.  When the two differ, a registration that
   * fails after the admin insert (here: a visitor who is not signed in)
   * leaves its user in getDb's database, yet the same request passes the
   * 409 check again with an id not yet taken there, so
   * `UnauthenticatedRunAppendsUser` adds a second user with that email.
   */
  lemma RepeatedEmailPassesCheck(s: Store, admin: Result<string, Exception>, defaultDb: string,
                                 prefix: Option<string>, body: Option<RegisterBody>,
                                 hash: (string, nat) -> string)
    requires ReachesWrites(s, admin, defaultDb, body) && admin.value != defaultDb
    requires s.nextOid + 4 <= ObjectIdLimit
    requires !HasUserId(Db(s, admin.value).users, FreshId(s.nextOid + 1))
    requires !HasUserId(Db(s, admin.value).users, FreshId(s.nextOid + 3))
    ensures var r := Register(s, admin, true, defaultDb, prefix, false, body, hash);
            var u := UserFor(s, body, hash);
            && r.0.Status() == 500
            && Db(r.1, admin.value).users == Db(s, admin.value).users + [u]
            && u.email == body.value.email.value
            && ReachesWrites(r.1, admin, defaultDb, body)
            && !HasUserId(Db(r.1, admin.value).users, UserFor(r.1, body, hash).id)
  {
    UnauthenticatedRunAppendsUser(s, admin, defaultDb, prefix, body, hash);
    NextRequestPassesCheck(s, Register(s, admin, true, defaultDb, prefix, false, body, hash).1, admin, defaultDb, body, hash);
  }

  /** A store that differs from `s` only by the user appended to getDb's database and two drawn ids lets the same request through again. */
  lemma NextRequestPassesCheck(s: Store, t: Store, admin: Result<string, Exception>, defaultDb: string,
                               body: Option<RegisterBody>, hash: (string, nat) -> string)
    requires ReachesWrites(s, admin, defaultDb, body)
    requires s.nextOid + 4 <= ObjectIdLimit
    requires !HasUserId(Db(s, admin.value).users, FreshId(s.nextOid + 3))
    requires t.nextOid == s.nextOid + 2 && Db(t, defaultDb).users == Db(s, defaultDb).users
    requires Db(t, admin.value).users == Db(s, admin.value).users + [UserFor(s, body, hash)]
    ensures ReachesWrites(t, admin, defaultDb, body)
    ensures !HasUserId(Db(t, admin.value).users, UserFor(t, body, hash).id)
  {
    FreshIdsApart(s.nextOid);
    assert UserFor(t, body, hash).id == FreshId(s.nextOid + 3);
  }

  /** The ids of two consecutive registrations differ until the generator wraps. */
  lemma FreshIdsApart(n: nat)
    requires n + 4 <= ObjectIdLimit
    ensures FreshId(n + 1) != FreshId(n + 3)
  {
    assert FreshId(n + 1) == n + 1 && FreshId(n + 3) == n + 3;
  }

  /** One registration by a visitor who is not signed in, with getDb's database not the default one. */
  lemma UnauthenticatedRunAppendsUser(s: Store, admin: Result<string, Exception>, defaultDb: string,
                                      prefix: Option<string>, body: Option<RegisterBody>,
                                      hash: (string, nat) -> string)
    requires ReachesWrites(s, admin, defaultDb, body) && admin.value != defaultDb
    requires !HasUserId(Db(s, admin.value).users, UserFor(s, body, hash).id)
    ensures var r := Register(s, admin, true, defaultDb, prefix, false, body, hash);
            && r.0 == ServerError && r.1.nextOid == s.nextOid + 2
            && Db(r.1, admin.value).users == Db(s, admin.value).users + [UserFor(s, body, hash)]
            && Db(r.1, defaultDb).users == Db(s, defaultDb).users
  {
    var u := UserFor(s, body, hash);
    var s2 := InsertUser(Draw(s, 2), admin.value, u).value;
    AfterAdminInsertOnlyAppends(s2, true, defaultDb, prefix, false, u);
  }

  /**
   * The corrected handler checks the email where it inserts the user: once a
   * registration got its user in, however it ended, the same email is refused
   * with 409 and nothing changes.
   */
  lemma IntendedRejectsRepeatedEmail(s: Store, admin: Result<string, Exception>, prefix: Option<string>,
                                     body: Option<RegisterBody>, hash: (string, nat) -> string)
    requires admin.Success? && body.Some? && Complete(body.value)
    requires FirstWithEmail(Db(s, admin.value).users, body.value.email.value).None?
    requires !HasUserId(Db(s, admin.value).users, UserFor(s, body, hash).id)
    ensures var r1 := RegisterIntended(s, admin, prefix, body, hash);
            RegisterIntended(r1.1, admin, prefix, body, hash) == (Conflict, r1.1)
  {
    var u := UserFor(s, body, hash);
    var r1 := RegisterIntended(s, admin, prefix, body, hash);
    var users := Db(s, admin.value).users;
    assert Db(Draw(s, 2), admin.value) == Db(s, admin.value);
    assert Db(r1.1, admin.value).users == users + [u];
    assert Db(r1.1, admin.value).users[|users|].email == body.value.email.value;
  }

  /**
   * The registration the handler evidently intends: validation, the email
   * check and every write in getDb's database, then the provisioning
   * sequence, which puts the copy in the tenant database and reads no session.
   */
  function RegisterIntended(s: Store, admin: Result<string, Exception>, prefix: Option<string>,
                            body: Option<RegisterBody>, hash: (string, nat) -> string): (r: (Outcome, Store))
    ensures admin.Failure? || body.None? ==> r == (ServerError, s)
    ensures r.0 == BadRequest <==> admin.Success? && body.Some? && !Complete(body.value)
    // the email is checked against the database the user goes into
    ensures (admin.Success? && body.Some? && Complete(body.value)
             && FirstWithEmail(Db(s, admin.value).users, body.value.email.value).Some?) ==> r == (Conflict, s)
    ensures r.0.Created? ==>
              && admin.Success? && body.Some? && Complete(body.value)
              && var u := UserFor(s, body, hash);
                 var e := EntryFor(prefix, u.id);
                 && r.0 == Created(e.userId, u.name, u.email, "user")
                 && e in Db(r.1, admin.value).instances
                 && HasUserId(Db(r.1, admin.value).users, u.id)
                 && HasUserId(Db(r.1, e.dbName).users, u.id)
                 && e.dbName in Listing(r.1)
  {
    if admin.Failure? || body.None? then (ServerError, s)
    else if !Complete(body.value) then (BadRequest, s)
    else if FirstWithEmail(Db(s, admin.value).users, body.value.email.value).Some? then (Conflict, s)
    else
      var u := UserFor(s, body, hash);
      var run := Provision(Draw(s, 2), admin.value, prefix, u);
      match run.thrown
      case Some(e) => (CatchOutcome(e), run.store)
      case None =>
        ProvisionRoundTrip(Draw(s, 2), admin.value, prefix, u);
        (Created(ObjectIdString(u.id), u.name, u.email, u.role), run.store)
  }

  /**
   * The intended registration needs no session: a complete body with an
   * unknown email and a fresh id always yields 201, after which a session
   * carrying the new id is served the tenant database.
   */
  lemma IntendedRegistrationSucceeds(s: Store, admin: Result<string, Exception>, prefix: Option<string>,
                                     body: Option<RegisterBody>, hash: (string, nat) -> string,
                                     adminDbName: Option<string>)
    requires admin.Success? && body.Some? && Complete(body.value)
    requires FirstWithEmail(Db(s, admin.value).users, body.value.email.value).None?
    requires var u := UserFor(s, body, hash);
             && !HasUserId(Db(s, admin.value).users, u.id)
             && EntryFor(prefix, u.id).dbName != admin.value
             && !HasUserId(Db(s, EntryFor(prefix, u.id).dbName).users, u.id)
    ensures var r := RegisterIntended(s, admin, prefix, body, hash);
            && r.0.Status() == 201
            && ResolveDbName(Some(r.0.id), Some(Listing(r.1)), adminDbName, prefix)
               == Success(EntryFor(prefix, UserFor(s, body, hash).id).dbName)
  {
    var u := UserFor(s, body, hash);
    ResolveAfterProvision(Draw(s, 2), admin.value, prefix, u, adminDbName);
  }
}
