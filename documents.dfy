/**
 * The documents the system stores, the databases holding them, and the
 * driver-level operations on them (insertOne, insertMany, findOne).  A
 * database that does not exist reads as empty; inserting into it creates it.
 */
module Documents {
  import opened Wrappers
  import opened Radix

  // ---------------------------------------------------------------- ObjectId

  /** 2^96: an ObjectId is 12 bytes. */
  const ObjectIdLimit: nat := 0x1_0000_0000_0000_0000_0000_0000

  type ObjectId = n: nat | n < ObjectIdLimit

  /** `id.toString()`: 24 lower-case hexadecimal digits. */
  function ObjectIdString(id: ObjectId): (s: string)
    ensures |s| == 24 && AllDigits(s, 16)
  {
    HexLength(id, 24);
    Pow16Values();
    FromBaseZeros(24 - |Hex(id)|, Hex(id), 16);
    PadStart(Hex(id), 24)
  }

  /** `new ObjectId(s)` for a string: defined for 24 hexadecimal digits, a throw otherwise. */
  function ParseObjectId(s: string): (r: Option<ObjectId>)
    ensures r.Some? <==> |s| == 24 && AllDigits(s, 16)
  {
    if |s| == 24 && AllDigits(s, 16) then
      FromHexBound(s);
      Pow16Values();
      Some(FromBase(s, 16))
    else
      None
  }

  /** `new ObjectId(id.toString())` is `id` again. */
  lemma ObjectIdRoundTrip(id: ObjectId)
    ensures ParseObjectId(ObjectIdString(id)) == Some(id)
  {
    HexLength(id, 24);
    Pow16Values();
    FromBaseZeros(24 - |Hex(id)|, Hex(id), 16);
    ParseToBase(id, 16);
  }

  /** Distinct ObjectIds render to distinct strings. */
  lemma ObjectIdStringInjective(a: ObjectId, b: ObjectId)
    ensures ObjectIdString(a) == ObjectIdString(b) <==> a == b
  {
    ObjectIdRoundTrip(a);
    ObjectIdRoundTrip(b);
  }

  /** The ObjectId the generator hands out at counter value n. */
  function FreshId(n: nat): ObjectId {
    n % ObjectIdLimit
  }

  // --------------------------------------------------------------- documents

  /** The bcrypt cost factor every password hash uses. */
  const BcryptCost: nat := 12

  /** A document of a `users` collection. `image == None` is a stored null. */
  datatype UserDoc = UserDoc(
    id: ObjectId,
    name: string,
    email: string,
    password: string,
    phoneNumber: Option<string>,
    role: string,
    termsAccepted: bool,
    newsletterSubscription: Option<bool>,
    image: Option<string>)

  /** A document of the `instances` collection: the tenant registry entry. */
  datatype Instance = Instance(userId: string, dbName: string)

  /** The provider tokens copied into a linked account. */
  datatype AccountTokens = AccountTokens(
    refreshToken: Option<string>,
    accessToken: Option<string>,
    expiresAt: Option<int>,
    tokenType: Option<string>,
    scope: Option<string>,
    idToken: Option<string>,
    sessionState: Option<string>)

  /** A document of the `accounts` collection: an OAuth account linked to a user. */
  datatype AccountDoc = AccountDoc(
    userId: ObjectId,
    kind: string,
    provider: string,
    providerAccountId: string,
    tokens: AccountTokens)

  datatype PageDraft = PageDraft(title: string, slug: string, content: string)
  datatype BlockDraft = BlockDraft(kind: string, data: string)
  datatype CompanyDraft = CompanyDraft(name: string, description: string, industry: string)
  datatype ContactDraft = ContactDraft(name: string, email: string, company: string, status: string)
  datatype JobDraft = JobDraft(title: string, description: string, location: string, salary: string,
                               companyId: ObjectId, isActive: bool)
  datatype InteractionDraft = InteractionDraft(contactId: ObjectId, kind: string, notes: string)
  datatype ApplicationDraft = ApplicationDraft(jobId: ObjectId, contactId: ObjectId, resumeUrl: string,
                                               coverLetter: string, status: string)

  /** A document after insertMany gave it an `_id`. */
  datatype Stored<T> = Stored(id: ObjectId, doc: T)

  // --------------------------------------------------------------- databases

  datatype Database = Database(
    users: seq<UserDoc>,
    instances: seq<Instance>,
    accounts: seq<AccountDoc>,
    pages: seq<Stored<PageDraft>>,
    contentBlocks: seq<Stored<BlockDraft>>,
    companies: seq<Stored<CompanyDraft>>,
    contacts: seq<Stored<ContactDraft>>,
    jobs: seq<Stored<JobDraft>>,
    interactions: seq<Stored<InteractionDraft>>,
    applications: seq<Stored<ApplicationDraft>>)

  const EmptyDatabase := Database([], [], [], [], [], [], [], [], [], [])

  /** Every database of the cluster, and the ObjectId generator's counter. */
  datatype Store = Store(dbs: map<string, Database>, nextOid: nat)

  /** What a thrown error is.  Only a duplicate key carries MongoDB's code 11000. */
  datatype Exception =
    | DuplicateKey        // E11000 from a unique index (here: `_id`)
    | EmptyBatch          // insertMany([]) is refused by the driver
    | MissingUri          // MONGODB_URI is not set
    | DbNameUndefined     // getDb: 'dbName is undefined'
    | NoDatabaseInstance  // 'Failed to get the database instance'
    | InvalidJson         // the request body is not JSON
    | TypeError           // a property read on null or undefined
    | InvalidObjectId     // new ObjectId(s) on a malformed string
  {
    function Code(): Option<int> {
      if DuplicateKey? then Some(11000) else None
    }
  }

  /** The store after the steps that ran, and the error that stopped them, if any. */
  datatype Run = Run(store: Store, thrown: Option<Exception>)

  /** The process environment the core reads. */
  datatype Env = Env(
    mongodbUri: Option<string>,        // MONGODB_URI
    adminDbName: Option<string>,       // MONGODB_ADMIN_DB_NAME
    dbPrefix: Option<string>,          // DB_PREFIX
    instanceDbPrefix: Option<string>)  // MONGO_INSTANCE_DB_PREFIX

  function Db(s: Store, name: string): Database {
    if name in s.dbs then s.dbs[name] else EmptyDatabase
  }

  /** The names `listDatabases` reports. */
  function Listing(s: Store): set<string> {
    s.dbs.Keys
  }

  /** Replaces one database; every other database is untouched (tenant isolation). */
  function Put(s: Store, name: string, d: Database): (r: Store)
    ensures Db(r, name) == d && name in Listing(r)
    ensures Listing(r) == Listing(s) + {name}
    ensures forall other :: other != name ==> Db(r, other) == Db(s, other)
    ensures r.nextOid == s.nextOid
  {
    s.(dbs := s.dbs[name := d])
  }

  predicate HasUserId(users: seq<UserDoc>, id: ObjectId) {
    exists i :: 0 <= i < |users| && users[i].id == id
  }

  /** `db.collection('users').insertOne(u)`: refused with E11000 when the `_id` is taken. */
  function InsertUser(s: Store, db: string, u: UserDoc): (r: Result<Store, Exception>)
    ensures r.Failure? <==> HasUserId(Db(s, db).users, u.id)
    ensures r.Failure? ==> r.error == DuplicateKey && r.error.Code() == Some(11000)
    ensures r.Success? ==> r.value == Put(s, db, Db(s, db).(users := Db(s, db).users + [u]))
  {
    var d := Db(s, db);
    if HasUserId(d.users, u.id) then Failure(DuplicateKey) else Success(Put(s, db, d.(users := d.users + [u])))
  }

  /** `db.collection('instances').insertOne(entry)`: no unique index, so it always succeeds. */
  function AppendInstance(s: Store, db: string, entry: Instance): (r: Store)
    ensures Db(r, db) == Db(s, db).(instances := Db(s, db).instances + [entry])
    ensures forall other :: other != db ==> Db(r, other) == Db(s, other)
    ensures Listing(r) == Listing(s) + {db} && r.nextOid == s.nextOid
  {
    var d := Db(s, db);
    Put(s, db, d.(instances := d.instances + [entry]))
  }

  /** `findOne({ email })` on a users collection: the position of the first match in natural order. */
  function FirstWithEmail(users: seq<UserDoc>, email: string): (r: Option<nat>)
    ensures r.Some? ==> r.value < |users| && users[r.value].email == email
    ensures r.Some? ==> forall j :: 0 <= j < r.value ==> users[j].email != email
    ensures r.None? ==> forall j :: 0 <= j < |users| ==> users[j].email != email
  {
    if users == [] then None
    else if users[0].email == email then Some(0)
    else match FirstWithEmail(users[1..], email)
      case None => None
      case Some(k) => Some(k + 1)
  }

  /** The `_id`s insertMany gives a batch, drawn from the generator in order. */
  function AssignIds<T>(docs: seq<T>, next: nat): (r: seq<Stored<T>>)
    ensures |r| == |docs|
    ensures forall i :: 0 <= i < |docs| ==> r[i] == Stored(FreshId(next + i), docs[i])
  {
    seq(|docs|, i requires 0 <= i < |docs| => Stored(FreshId(next + i), docs[i]))
  }

  /**
   * Until the generator wraps around, the ids of one batch are pairwise
   * distinct and none of them was handed out before the batch.
   */
  lemma AssignIdsFresh<T>(docs: seq<T>, next: nat)
    requires next + |docs| <= ObjectIdLimit
    ensures forall i, j :: 0 <= i < j < |docs| ==> AssignIds(docs, next)[i].id != AssignIds(docs, next)[j].id
    ensures forall i, k: nat :: 0 <= i < |docs| && k < next ==> AssignIds(docs, next)[i].id != FreshId(k)
  {
    var r := AssignIds(docs, next);
    forall i | 0 <= i < |docs|
      ensures r[i].id == next + i
    {
      assert r[i] == Stored(FreshId(next + i), docs[i]);
      assert FreshId(next + i) == next + i;
    }
    forall k: nat | k < next
      ensures FreshId(k) == k
    {
    }
  }

  function Ids<T>(docs: seq<Stored<T>>): (r: seq<ObjectId>)
    ensures |r| == |docs| && forall i :: 0 <= i < |docs| ==> r[i] == docs[i].id
  {
    seq(|docs|, i requires 0 <= i < |docs| => docs[i].id)
  }

  /** Advances the ObjectId generator past a batch of n documents. */
  function Draw(s: Store, n: nat): Store {
    s.(nextOid := s.nextOid + n)
  }

  // insertMany on each sample collection: an empty batch throws, otherwise
  // the documents are appended with fresh ids.

  function InsertPages(s: Store, db: string, docs: seq<PageDraft>): (r: Run)
    ensures r.thrown.Some? <==> docs == []
    ensures docs == [] ==> r == Run(s, Some(EmptyBatch))
    ensures docs != [] ==>
              && Db(r.store, db) == Db(s, db).(pages := Db(s, db).pages + AssignIds(docs, s.nextOid))
              && (forall other :: other != db ==> Db(r.store, other) == Db(s, other))
              && Listing(r.store) == Listing(s) + {db} && r.store.nextOid == s.nextOid + |docs|
  {
    var d := Db(s, db);
    if docs == [] then Run(s, Some(EmptyBatch))
    else Run(Draw(Put(s, db, d.(pages := d.pages + AssignIds(docs, s.nextOid))), |docs|), None)
  }

  function InsertBlocks(s: Store, db: string, docs: seq<BlockDraft>): (r: Run)
    ensures r.thrown.Some? <==> docs == []
    ensures docs == [] ==> r == Run(s, Some(EmptyBatch))
    ensures docs != [] ==>
              && Db(r.store, db) == Db(s, db).(contentBlocks := Db(s, db).contentBlocks + AssignIds(docs, s.nextOid))
              && (forall other :: other != db ==> Db(r.store, other) == Db(s, other))
              && Listing(r.store) == Listing(s) + {db} && r.store.nextOid == s.nextOid + |docs|
  {
    var d := Db(s, db);
    if docs == [] then Run(s, Some(EmptyBatch))
    else Run(Draw(Put(s, db, d.(contentBlocks := d.contentBlocks + AssignIds(docs, s.nextOid))), |docs|), None)
  }

  function InsertCompanies(s: Store, db: string, docs: seq<CompanyDraft>): (r: Run)
    ensures r.thrown.Some? <==> docs == []
    ensures docs == [] ==> r == Run(s, Some(EmptyBatch))
    ensures docs != [] ==>
              && Db(r.store, db) == Db(s, db).(companies := Db(s, db).companies + AssignIds(docs, s.nextOid))
              && (forall other :: other != db ==> Db(r.store, other) == Db(s, other))
              && Listing(r.store) == Listing(s) + {db} && r.store.nextOid == s.nextOid + |docs|
  {
    var d := Db(s, db);
    if docs == [] then Run(s, Some(EmptyBatch))
    else Run(Draw(Put(s, db, d.(companies := d.companies + AssignIds(docs, s.nextOid))), |docs|), None)
  }

  function InsertContacts(s: Store, db: string, docs: seq<ContactDraft>): (r: Run)
    ensures r.thrown.Some? <==> docs == []
    ensures docs == [] ==> r == Run(s, Some(EmptyBatch))
    ensures docs != [] ==>
              && Db(r.store, db) == Db(s, db).(contacts := Db(s, db).contacts + AssignIds(docs, s.nextOid))
              && (forall other :: other != db ==> Db(r.store, other) == Db(s, other))
              && Listing(r.store) == Listing(s) + {db} && r.store.nextOid == s.nextOid + |docs|
  {
    var d := Db(s, db);
    if docs == [] then Run(s, Some(EmptyBatch))
    else Run(Draw(Put(s, db, d.(contacts := d.contacts + AssignIds(docs, s.nextOid))), |docs|), None)
  }

  function InsertJobs(s: Store, db: string, docs: seq<JobDraft>): (r: Run)
    ensures r.thrown.Some? <==> docs == []
    ensures docs == [] ==> r == Run(s, Some(EmptyBatch))
    ensures docs != [] ==>
              && Db(r.store, db) == Db(s, db).(jobs := Db(s, db).jobs + AssignIds(docs, s.nextOid))
              && (forall other :: other != db ==> Db(r.store, other) == Db(s, other))
              && Listing(r.store) == Listing(s) + {db} && r.store.nextOid == s.nextOid + |docs|
  {
    var d := Db(s, db);
    if docs == [] then Run(s, Some(EmptyBatch))
    else Run(Draw(Put(s, db, d.(jobs := d.jobs + AssignIds(docs, s.nextOid))), |docs|), None)
  }

  function InsertInteractions(s: Store, db: string, docs: seq<InteractionDraft>): (r: Run)
    ensures r.thrown.Some? <==> docs == []
    ensures docs == [] ==> r == Run(s, Some(EmptyBatch))
    ensures docs != [] ==>
              && Db(r.store, db) == Db(s, db).(interactions := Db(s, db).interactions + AssignIds(docs, s.nextOid))
              && (forall other :: other != db ==> Db(r.store, other) == Db(s, other))
              && Listing(r.store) == Listing(s) + {db} && r.store.nextOid == s.nextOid + |docs|
  {
    var d := Db(s, db);
    if docs == [] then Run(s, Some(EmptyBatch))
    else Run(Draw(Put(s, db, d.(interactions := d.interactions + AssignIds(docs, s.nextOid))), |docs|), None)
  }

  function InsertApplications(s: Store, db: string, docs: seq<ApplicationDraft>): (r: Run)
    ensures r.thrown.Some? <==> docs == []
    ensures docs == [] ==> r == Run(s, Some(EmptyBatch))
    ensures docs != [] ==>
              && Db(r.store, db) == Db(s, db).(applications := Db(s, db).applications + AssignIds(docs, s.nextOid))
              && (forall other :: other != db ==> Db(r.store, other) == Db(s, other))
              && Listing(r.store) == Listing(s) + {db} && r.store.nextOid == s.nextOid + |docs|
  {
    var d := Db(s, db);
    if docs == [] then Run(s, Some(EmptyBatch))
    else Run(Draw(Put(s, db, d.(applications := d.applications + AssignIds(docs, s.nextOid))), |docs|), None)
  }
}
