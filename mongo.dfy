/**
 * The process-wide mongoose connection and the MongoDB cluster behind it:
 * the connection's readyState, whether `mongoose.connection.db` is set, and
 * the data of every database.  `getDb` lives here.
 */
module Mongo {
  import opened Wrappers
  import opened TenantNames
  import opened Documents
  import opened Sessions
  import opened Resolver

  /** mongoose's `connection.readyState`: 0, 1, 2 and 3. */
  datatype ReadyState = Disconnected | Connected | Connecting | Disconnecting

  class Cluster {
    var readyState: ReadyState
    var hasDb: bool
    var store: Store
    const env: Env
    /** The database the connection string names: `mongoose.connection.db` and every mongoose model use it. */
    const defaultDb: string

    /** The module that creates the connection refuses to load when MONGODB_URI is unset or empty. */
    constructor (env: Env, defaultDb: string, initial: Store)
      requires Truthy(env.mongodbUri)
      ensures readyState == Disconnected && !hasDb && store == initial
      ensures this.env == env && this.defaultDb == defaultDb
    {
      readyState, hasDb, store := Disconnected, false, initial;
      this.env, this.defaultDb := env, defaultDb;
    }

    /** What getDb can see: the listing, or None while `mongoose.connection.db` is unset. */
    function Visible(): Option<set<string>>
      reads this
    {
      if hasDb then Some(Listing(store)) else None
    }

    /**
     * `getDb()`: connects only when disconnected, then picks the tenant database
     * of the session's user if it is listed, else the admin database.
     */
    method GetDb(session: Session?) returns (r: Result<string, Exception>)
      modifies this`readyState, this`hasDb
      ensures old(readyState) == Disconnected ==> readyState == Connected && hasDb
      ensures old(readyState) != Disconnected ==> readyState == old(readyState) && hasDb == old(hasDb)
      ensures r == ResolveDbName(AuthenticatedUserId(session), Visible(), env.adminDbName, env.dbPrefix)
    {
      if readyState == Disconnected {
        // mongoose.connect(uri); the promise resolves on 'connected'
        readyState, hasDb := Connected, true;
      }
      var dbName := env.adminDbName;
      var userId := AuthenticatedUserId(session);
      if userId.Some? {
        if hasDb {
          var target := TenantDbName(env.dbPrefix, userId.value);
          if target in Listing(store) {
            dbName := Some(target);
          }
        }
      }
      if Truthy(dbName) {
        r := Success(dbName.value);
      } else {
        r := Failure(DbNameUndefined);
      }
    }

    /** `new ObjectId()`. */
    method NewObjectId() returns (id: ObjectId)
      modifies this`store
      ensures id == FreshId(old(store).nextOid) && store == Draw(old(store), 1)
    {
      id := FreshId(store.nextOid);
      store := Draw(store, 1);
    }

    /** `db.collection('users').insertOne(u)`. */
    method InsertOneUser(db: string, u: UserDoc) returns (thrown: Option<Exception>)
      modifies this`store
      ensures InsertUser(old(store), db, u).Success? ==> thrown.None? && store == InsertUser(old(store), db, u).value
      ensures InsertUser(old(store), db, u).Failure? ==> thrown == Some(DuplicateKey) && store == old(store)
    {
      var r := InsertUser(store, db, u);
      if r.Success? {
        store, thrown := r.value, None;
      } else {
        thrown := Some(r.error);
      }
    }

    /** `db.collection('instances').insertOne(entry)`. */
    method InsertOneInstance(db: string, entry: Instance)
      modifies this`store
      ensures store == AppendInstance(old(store), db, entry)
    {
      store := AppendInstance(store, db, entry);
    }

    /** `db.collection('users').findOne({ email })`. */
    method FindOneUser(db: string, email: string) returns (u: Option<UserDoc>)
      ensures FirstWithEmail(Db(store, db).users, email).None? ==> u.None?
      ensures FirstWithEmail(Db(store, db).users, email).Some? ==>
                u == Some(Db(store, db).users[FirstWithEmail(Db(store, db).users, email).value])
    {
      var users := Db(store, db).users;
      var k := FirstWithEmail(users, email);
      u := if k.Some? then Some(users[k.value]) else None;
    }
  }
}
