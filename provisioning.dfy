/**
 * The provisioning sequence for one user, in the order the setup script runs
 * it: insert the user into the admin database's `users`, derive the tenant
 * name from the inserted id, register `{userId, dbName}` in the admin
 * database's `instances`, and insert a copy of the user with the same `_id`
 * into the tenant database's `users`.  A failing step stops the rest and
 * nothing already written is undone.
 */
module Provisioning {
  import opened Wrappers
  import opened TenantNames
  import opened Documents
  import opened Resolver
  import opened Mongo

  /** The registry entry for a user id. */
  function EntryFor(prefix: Option<string>, id: ObjectId): Instance {
    Instance(ObjectIdString(id), TenantDbName(prefix, ObjectIdString(id)))
  }

  function Provision(s: Store, adminDb: string, prefix: Option<string>, user: UserDoc): (r: Run)
    // only an `_id` clash can stop it
    ensures r.thrown.Some? ==> r.thrown == Some(DuplicateKey)
    ensures r.store.nextOid == s.nextOid
    ensures HasUserId(Db(s, adminDb).users, user.id) ==> r == Run(s, Some(DuplicateKey))
    // a clash in the tenant database leaves the admin user and the registry entry in place
    // (the admin database gains exactly the user and the registry entry)
    ensures !HasUserId(Db(s, adminDb).users, user.id) ==>
              Db(r.store, adminDb) == Db(s, adminDb).(users := Db(s, adminDb).users + [user],
                                                      instances := Db(s, adminDb).instances + [EntryFor(prefix, user.id)])
    // after the tenant-side clash only the admin database has changed
    ensures r.thrown.Some? ==> forall other :: other != adminDb ==> Db(r.store, other) == Db(s, other)
    ensures r.thrown.Some? && !HasUserId(Db(s, adminDb).users, user.id) ==> Listing(r.store) == Listing(s) + {adminDb}
    // on success: one user in the admin database, one registry entry, one copy in the tenant database
    ensures r.thrown.None? ==>
              var dbName := EntryFor(prefix, user.id).dbName;
              && dbName != adminDb
              && Db(r.store, dbName) == Db(s, dbName).(users := Db(s, dbName).users + [user])
              && Listing(r.store) == Listing(s) + {adminDb, dbName}
              && (forall other :: other != adminDb && other != dbName ==> Db(r.store, other) == Db(s, other))
    // with a fresh id and a tenant name distinct from the admin database, it succeeds
    ensures (!HasUserId(Db(s, adminDb).users, user.id) && EntryFor(prefix, user.id).dbName != adminDb
             && !HasUserId(Db(s, EntryFor(prefix, user.id).dbName).users, user.id)) ==> r.thrown.None?
  {
    match InsertUser(s, adminDb, user)
    case Failure(e) => Run(s, Some(e))
    case Success(s1) =>
      var userId := ObjectIdString(user.id);
      var dbName := TenantDbName(prefix, userId);
      var s2 := AppendInstance(s1, adminDb, Instance(userId, dbName));
      ObjectIdRoundTrip(user.id);
      match ParseObjectId(userId)
      case None => Run(s2, Some(InvalidObjectId))
      case Some(oid) =>
        assert HasUserId(Db(s2, adminDb).users, oid) by {
          assert Db(s2, adminDb).users[|Db(s, adminDb).users|].id == oid;
        }
        match InsertUser(s2, dbName, user.(id := oid))
        case Failure(e) => Run(s2, Some(e))
        case Success(s3) => Run(s3, None)
  }

  /**
   * After provisioning, the user's id is the `_id` of a user in the admin
   * database and of a user in the tenant database, and the registry maps the
   * id to that database.
   */
  lemma ProvisionRoundTrip(s: Store, adminDb: string, prefix: Option<string>, user: UserDoc)
    requires Provision(s, adminDb, prefix, user).thrown.None?
    ensures var t := Provision(s, adminDb, prefix, user).store;
            var e := EntryFor(prefix, user.id);
            && e in Db(t, adminDb).instances
            && ParseObjectId(e.userId) == Some(user.id)
            && HasUserId(Db(t, adminDb).users, user.id)
            && HasUserId(Db(t, e.dbName).users, user.id)
  {
    var t := Provision(s, adminDb, prefix, user).store;
    var e := EntryFor(prefix, user.id);
    ObjectIdRoundTrip(user.id);
    assert Db(t, adminDb).users[|Db(s, adminDb).users|] == user;
    assert Db(t, e.dbName).users[|Db(s, e.dbName).users|] == user;
  }

  /**
   * When the resolver and the provisioner use the same prefix, a session
   * carrying the provisioned id resolves to the tenant database.
   */
  lemma ResolveAfterProvision(s: Store, adminDb: string, prefix: Option<string>, user: UserDoc,
                              adminDbName: Option<string>)
    requires Provision(s, adminDb, prefix, user).thrown.None?
    ensures var t := Provision(s, adminDb, prefix, user).store;
            ResolveDbName(Some(ObjectIdString(user.id)), Some(Listing(t)), adminDbName, prefix)
              == Success(EntryFor(prefix, user.id).dbName)
  {
  }

  /** `createInstance(adminDb, userId, dbName)`: one `{userId, dbName}` entry appended to `instances`, nothing else touched. */
  method CreateInstance(c: Cluster, adminDb: string, userId: string, dbName: string)
    modifies c`store
    ensures c.store == AppendInstance(old(c.store), adminDb, Instance(userId, dbName))
  {
    c.InsertOneInstance(adminDb, Instance(userId, dbName));
  }
}
