/**
 * The setup script: connect to the admin database, create a test user, give
 * it a tenant database through the provisioning sequence, and fill that
 * database with sample pages, content blocks, companies, contacts, jobs,
 * interactions and applications.
 */
module Migration {
  import opened Wrappers
  import opened Radix
  import opened TenantNames
  import opened Documents
  import opened Resolver
  import opened Mongo
  import opened Provisioning

  /** How many documents each counted sample generator produces. */
  const SampleDataCount: nat := 5

  // ------------------------------------------------------------ connecting

  /**
   * `connectToDatabase(dbName)`: refused when MONGODB_URI is unset or empty;
   * otherwise `client.db(dbName ?? ADMIN_DB_NAME)`, where the driver replaces
   * an empty or undefined name by the database the URI names (`uriDb`).
   */
  function ConnectToDatabase(uri: Option<string>, dbName: Option<string>, adminDbName: Option<string>,
                             uriDb: string): (r: Result<string, Exception>)
    ensures r.Failure? <==> !Truthy(uri)
    ensures r.Failure? ==> r.error == MissingUri
    ensures r.Success? && Truthy(dbName) ==> r.value == dbName.value
    ensures r.Success? && dbName.None? && Truthy(adminDbName) ==> r.value == adminDbName.value
    ensures r.Success? && !Truthy(dbName) && !(dbName.None? && Truthy(adminDbName)) ==> r.value == uriDb
  {
    if !Truthy(uri) then Failure(MissingUri)
    else
      var name := if dbName.Some? then dbName else adminDbName;
      Success(if Truthy(name) then name.value else uriDb)
  }

  // ------------------------------------------------------------ sample data

  function SamplePage(i: nat): PageDraft {
    var n := Decimal(i + 1);
    PageDraft("Sample Page " + n, "sample-page-" + n, "<p>This is the content of sample page " + n + ".</p>")
  }

  function SampleBlock(i: nat): BlockDraft {
    BlockDraft("text", "This is sample text block " + Decimal(i + 1) + ".")
  }

  function SampleCompany(i: nat): CompanyDraft {
    var n := Decimal(i + 1);
    CompanyDraft("Company " + n, "This is a description for Company " + n + ".", "Technology")
  }

  function SampleContact(i: nat): ContactDraft {
    var n := Decimal(i + 1);
    ContactDraft("Contact " + n, "contact" + n + "@example.com", "Company " + n, "lead")
  }

  /** The job posted for one existing company. */
  function JobFor(c: Stored<CompanyDraft>): JobDraft {
    JobDraft("Software Engineer at " + c.doc.name,
             "We are looking for a talented software engineer to join our team at " + c.doc.name + ".",
             "Remote", "Competitive", c.id, true)
  }

  /** The first email logged for one existing contact. */
  function InteractionFor(c: Stored<ContactDraft>): InteractionDraft {
    InteractionDraft(c.id, "email", "Initial contact email for " + c.doc.name)
  }

  /** Application i cycles through the existing jobs and contacts. */
  function SampleApplication(i: nat, jobs: seq<Stored<JobDraft>>, contacts: seq<Stored<ContactDraft>>): ApplicationDraft
    requires |jobs| > 0 && |contacts| > 0
  {
    ApplicationDraft(jobs[i % |jobs|].id, contacts[i % |contacts|].id,
                     "resume" + Decimal(i + 1) + ".pdf", "Cover letter for application " + Decimal(i + 1), "applied")
  }

  function SamplePages(): seq<PageDraft> {
    seq(SampleDataCount, i requires 0 <= i => SamplePage(i))
  }

  function SampleBlocks(): seq<BlockDraft> {
    seq(SampleDataCount, i requires 0 <= i => SampleBlock(i))
  }

  function SampleCompanies(): seq<CompanyDraft> {
    seq(SampleDataCount, i requires 0 <= i => SampleCompany(i))
  }

  function SampleContacts(): seq<ContactDraft> {
    seq(SampleDataCount, i requires 0 <= i => SampleContact(i))
  }

  function JobsFor(companies: seq<Stored<CompanyDraft>>): seq<JobDraft> {
    seq(|companies|, i requires 0 <= i < |companies| => JobFor(companies[i]))
  }

  function InteractionsFor(contacts: seq<Stored<ContactDraft>>): seq<InteractionDraft> {
    seq(|contacts|, i requires 0 <= i < |contacts| => InteractionFor(contacts[i]))
  }

  /** Five applications when there is at least one job and one contact, none otherwise. */
  function ApplicationsFor(jobs: seq<Stored<JobDraft>>, contacts: seq<Stored<ContactDraft>>): seq<ApplicationDraft> {
    if |jobs| > 0 && |contacts| > 0 then seq(SampleDataCount, i requires 0 <= i => SampleApplication(i, jobs, contacts))
    else []
  }

  /** Some document of `docs` has this `_id`. */
  predicate HasId<T>(docs: seq<Stored<T>>, id: ObjectId) {
    exists k :: 0 <= k < |docs| && docs[k].id == id
  }

  /** Every job names an existing company, every interaction and application an existing contact, every application an existing job. */
  predicate Referential(d: Database) {
    && (forall i :: 0 <= i < |d.jobs| ==> HasId(d.companies, d.jobs[i].doc.companyId))
    && (forall i :: 0 <= i < |d.interactions| ==> HasId(d.contacts, d.interactions[i].doc.contactId))
    && (forall i :: 0 <= i < |d.applications| ==>
          HasId(d.jobs, d.applications[i].doc.jobId) && HasId(d.contacts, d.applications[i].doc.contactId))
  }

  /**
   * `d` is `d0` after one round of seeding, users aside: registry and accounts
   * as they were, every sample collection extended (never rewritten) by five
   * documents, or by one per company or contact already present, and no
   * reference left dangling.
   */
  predicate SeededFrom(d0: Database, d: Database) {
    && d.instances == d0.instances && d.accounts == d0.accounts
    && d0.pages <= d.pages && |d.pages| == |d0.pages| + SampleDataCount
    && d0.contentBlocks <= d.contentBlocks && |d.contentBlocks| == |d0.contentBlocks| + SampleDataCount
    && d0.companies <= d.companies && |d.companies| == |d0.companies| + SampleDataCount
    && d0.contacts <= d.contacts && |d.contacts| == |d0.contacts| + SampleDataCount
    && d0.jobs <= d.jobs && |d.jobs| == |d0.jobs| + |d0.companies| + SampleDataCount
    && d0.interactions <= d.interactions
    && |d.interactions| == |d0.interactions| + |d0.contacts| + SampleDataCount
    && d0.applications <= d.applications && |d.applications| == |d0.applications| + SampleDataCount
    && (Referential(d0) ==> Referential(d))
  }

  /** The sample slugs are pairwise distinct, so they can serve as unique page identifiers. */
  lemma SampleSlugsDistinct(i: nat, j: nat)
    requires i < SampleDataCount && j < SampleDataCount && i != j
    ensures SamplePages()[i].slug != SamplePages()[j].slug
  {
    var p := "sample-page-";
    var a, b := Decimal(i + 1), Decimal(j + 1);
    if p + a == p + b {
      assert a == (p + a)[|p|..];
      assert b == (p + b)[|p|..];
      ToBaseInjective(i + 1, j + 1, 10);
    }
  }

  /** Each job points at the company it was generated for, and there is one per company. */
  lemma JobsReferenceCompanies(companies: seq<Stored<CompanyDraft>>, existing: seq<Stored<CompanyDraft>>)
    requires companies <= existing
    ensures |JobsFor(companies)| == |companies|
    ensures forall i :: 0 <= i < |JobsFor(companies)| ==> HasId(existing, JobsFor(companies)[i].companyId)
  {
    forall i | 0 <= i < |companies|
      ensures HasId(existing, JobsFor(companies)[i].companyId)
    {
      assert existing[i].id == companies[i].id;
    }
  }

  /** Each interaction points at the contact it was generated for, and there is one per contact. */
  lemma InteractionsReferenceContacts(contacts: seq<Stored<ContactDraft>>, existing: seq<Stored<ContactDraft>>)
    requires contacts <= existing
    ensures |InteractionsFor(contacts)| == |contacts|
    ensures forall i :: 0 <= i < |InteractionsFor(contacts)| ==> HasId(existing, InteractionsFor(contacts)[i].contactId)
  {
    forall i | 0 <= i < |contacts|
      ensures HasId(existing, InteractionsFor(contacts)[i].contactId)
    {
      assert existing[i].id == contacts[i].id;
    }
  }

  /** The modulo cycling never leaves the existing jobs and contacts. */
  lemma ApplicationsReferenceExisting(jobs: seq<Stored<JobDraft>>, contacts: seq<Stored<ContactDraft>>,
                                      allJobs: seq<Stored<JobDraft>>, allContacts: seq<Stored<ContactDraft>>)
    requires jobs <= allJobs && contacts <= allContacts
    ensures |ApplicationsFor(jobs, contacts)| == if |jobs| > 0 && |contacts| > 0 then SampleDataCount else 0
    ensures forall i :: 0 <= i < |ApplicationsFor(jobs, contacts)| ==>
              HasId(allJobs, ApplicationsFor(jobs, contacts)[i].jobId)
              && HasId(allContacts, ApplicationsFor(jobs, contacts)[i].contactId)
  {
    var apps := ApplicationsFor(jobs, contacts);
    forall i | 0 <= i < |apps|
      ensures HasId(allJobs, apps[i].jobId) && HasId(allContacts, apps[i].contactId)
    {
      assert allJobs[i % |jobs|].id == apps[i].jobId;
      assert allContacts[i % |contacts|].id == apps[i].contactId;
    }
  }

  // ------------------------------------------------------------ building the batches

  /** The loop of `insertSamplePages`. */
  method BuildSamplePages() returns (pages: seq<PageDraft>)
    ensures pages == SamplePages()
  {
    pages := [];
    for i := 0 to SampleDataCount
      invariant pages == SamplePages()[..i]
    {
      pages := pages + [SamplePage(i)];
    }
  }

  /** The loop of `insertSampleContentBlocks`. */
  method BuildSampleBlocks() returns (blocks: seq<BlockDraft>)
    ensures blocks == SampleBlocks()
  {
    blocks := [];
    for i := 0 to SampleDataCount
      invariant blocks == SampleBlocks()[..i]
    {
      blocks := blocks + [SampleBlock(i)];
    }
  }

  /** The loop of `insertSampleCompanies`. */
  method BuildSampleCompanies() returns (companies: seq<CompanyDraft>)
    ensures companies == SampleCompanies()
  {
    companies := [];
    for i := 0 to SampleDataCount
      invariant companies == SampleCompanies()[..i]
    {
      companies := companies + [SampleCompany(i)];
    }
  }

  /** The loop of `insertSampleContacts`. */
  method BuildSampleContacts() returns (contacts: seq<ContactDraft>)
    ensures contacts == SampleContacts()
  {
    contacts := [];
    for i := 0 to SampleDataCount
      invariant contacts == SampleContacts()[..i]
    {
      contacts := contacts + [SampleContact(i)];
    }
  }

  /** The loop of `insertSampleJobs` over every company found. */
  method BuildSampleJobs(companies: seq<Stored<CompanyDraft>>) returns (jobs: seq<JobDraft>)
    ensures jobs == JobsFor(companies)
  {
    jobs := [];
    for i := 0 to |companies|
      invariant jobs == JobsFor(companies)[..i]
    {
      jobs := jobs + [JobFor(companies[i])];
    }
  }

  /** The loop of `insertSampleInteractions` over every contact found. */
  method BuildSampleInteractions(contacts: seq<Stored<ContactDraft>>) returns (interactions: seq<InteractionDraft>)
    ensures interactions == InteractionsFor(contacts)
  {
    interactions := [];
    for i := 0 to |contacts|
      invariant interactions == InteractionsFor(contacts)[..i]
    {
      interactions := interactions + [InteractionFor(contacts[i])];
    }
  }

  /** The loop of `insertSampleApplications`: the guard is re-tested on every round. */
  method BuildSampleApplications(jobs: seq<Stored<JobDraft>>, contacts: seq<Stored<ContactDraft>>)
    returns (applications: seq<ApplicationDraft>)
    ensures applications == ApplicationsFor(jobs, contacts)
  {
    applications := [];
    for i := 0 to SampleDataCount
      invariant applications == if |jobs| > 0 && |contacts| > 0 then ApplicationsFor(jobs, contacts)[..i] else []
    {
      if |jobs| > 0 && |contacts| > 0 {
        applications := applications + [SampleApplication(i, jobs, contacts)];
      }
    }
  }

  // ------------------------------------------------------------ seeding a tenant

  /**
   * The seven sample inserts in the script's order; jobs, interactions and
   * applications are built from what `find()` returns at that point.
   */
  function SeedTenant(s: Store, db: string): Run {
    var r := SeedIndependent(s, db);
    if r.thrown.Some? then r else SeedLinked(r.store, db)
  }

  /** Pages, content blocks, companies and contacts: batches that depend on nothing stored. */
  function SeedIndependent(s: Store, db: string): Run {
    var r1 := InsertPages(s, db, SamplePages());
    if r1.thrown.Some? then r1 else
    var r2 := InsertBlocks(r1.store, db, SampleBlocks());
    if r2.thrown.Some? then r2 else
    var r3 := InsertCompanies(r2.store, db, SampleCompanies());
    if r3.thrown.Some? then r3 else
    InsertContacts(r3.store, db, SampleContacts())
  }

  /** Jobs, interactions and applications: batches built from the documents found in the database. */
  function SeedLinked(s: Store, db: string): Run {
    var r5 := InsertJobs(s, db, JobsFor(Db(s, db).companies));
    if r5.thrown.Some? then r5 else
    var r6 := InsertInteractions(r5.store, db, InteractionsFor(Db(r5.store, db).contacts));
    if r6.thrown.Some? then r6 else
    InsertApplications(r6.store, db, ApplicationsFor(Db(r6.store, db).jobs, Db(r6.store, db).contacts))
  }

  /** An `_id` present in a collection stays present when documents are appended. */
  lemma HasIdGrows<T>(docs: seq<Stored<T>>, more: seq<Stored<T>>, id: ObjectId)
    requires docs <= more && HasId(docs, id)
    ensures HasId(more, id)
  {
    var k :| 0 <= k < |docs| && docs[k].id == id;
    assert more[k].id == id;
  }

  /** The four independent batches always go in, five documents each, and nothing else changes. */
  lemma SeedIndependentEffect(s: Store, db: string)
    ensures var r := SeedIndependent(s, db);
            var d0 := Db(s, db);
            && r.thrown.None?
            && Db(r.store, db) == d0.(pages := d0.pages + AssignIds(SamplePages(), s.nextOid),
                                      contentBlocks := d0.contentBlocks + AssignIds(SampleBlocks(), s.nextOid + 5),
                                      companies := d0.companies + AssignIds(SampleCompanies(), s.nextOid + 10),
                                      contacts := d0.contacts + AssignIds(SampleContacts(), s.nextOid + 15))
            && (forall other :: other != db ==> Db(r.store, other) == Db(s, other))
            && Listing(r.store) == Listing(s) + {db} && r.store.nextOid == s.nextOid + 20
  {
    assert |SamplePages()| == |SampleBlocks()| == |SampleCompanies()| == |SampleContacts()| == SampleDataCount;
    var d0 := Db(s, db);
    var r1 := InsertPages(s, db, SamplePages());
    var d1 := d0.(pages := d0.pages + AssignIds(SamplePages(), s.nextOid));
    assert Db(r1.store, db) == d1 && r1.store.nextOid == s.nextOid + 5;
    var r2 := InsertBlocks(r1.store, db, SampleBlocks());
    var d2 := d1.(contentBlocks := d0.contentBlocks + AssignIds(SampleBlocks(), s.nextOid + 5));
    assert Db(r2.store, db) == d2 && r2.store.nextOid == s.nextOid + 10;
    var r3 := InsertCompanies(r2.store, db, SampleCompanies());
    var d3 := d2.(companies := d0.companies + AssignIds(SampleCompanies(), s.nextOid + 10));
    assert Db(r3.store, db) == d3 && r3.store.nextOid == s.nextOid + 15;
  }

  /** A database after the linked batches, their `_id`s drawn from `n` on. */
  function WithLinked(d0: Database, n: nat): Database {
    var jobs := d0.jobs + AssignIds(JobsFor(d0.companies), n);
    var interactions := d0.interactions + AssignIds(InteractionsFor(d0.contacts), n + |d0.companies|);
    var applications := d0.applications
                        + AssignIds(ApplicationsFor(jobs, d0.contacts), n + |d0.companies| + |d0.contacts|);
    d0.(jobs := jobs, interactions := interactions, applications := applications)
  }

  /** With at least one company and one contact stored, the three linked batches go in and nothing else changes. */
  lemma SeedLinkedShape(s: Store, db: string)
    requires |Db(s, db).companies| > 0 && |Db(s, db).contacts| > 0
    ensures var r := SeedLinked(s, db);
            && r.thrown.None?
            && Db(r.store, db) == WithLinked(Db(s, db), s.nextOid)
            && (forall other :: other != db ==> Db(r.store, other) == Db(s, other))
            && Listing(r.store) == Listing(s) + {db}
  {
    var d0 := Db(s, db);
    var r5 := InsertJobs(s, db, JobsFor(d0.companies));
    var r6 := InsertInteractions(r5.store, db, InteractionsFor(Db(r5.store, db).contacts));
    assert Db(r6.store, db).jobs == WithLinked(d0, s.nextOid).jobs;
  }

  /**
   * The linked batches hold one job per company, one interaction per contact
   * and five applications; no reference they add dangles, and no reference
   * already valid is broken.
   */
  lemma WithLinkedEffect(d0: Database, n: nat)
    requires |d0.companies| > 0 && |d0.contacts| > 0
    ensures var d := WithLinked(d0, n);
            && d0.jobs <= d.jobs && |d.jobs| == |d0.jobs| + |d0.companies|
            && d0.interactions <= d.interactions && |d.interactions| == |d0.interactions| + |d0.contacts|
            && d0.applications <= d.applications && |d.applications| == |d0.applications| + SampleDataCount
            && (Referential(d0) ==> Referential(d))
  {
    var d := WithLinked(d0, n);
    JobsReferenceCompanies(d0.companies, d.companies);
    InteractionsReferenceContacts(d0.contacts, d.contacts);
    ApplicationsReferenceExisting(d.jobs, d0.contacts, d.jobs, d.contacts);
    if Referential(d0) {
      forall i | 0 <= i < |d.jobs| ensures HasId(d.companies, d.jobs[i].doc.companyId) {
        if i < |d0.jobs| {
          HasIdGrows(d0.companies, d.companies, d.jobs[i].doc.companyId);
        } else {
          assert d.jobs[i].doc == JobsFor(d0.companies)[i - |d0.jobs|];
        }
      }
      forall i | 0 <= i < |d.interactions| ensures HasId(d.contacts, d.interactions[i].doc.contactId) {
        if i < |d0.interactions| {
          HasIdGrows(d0.contacts, d.contacts, d.interactions[i].doc.contactId);
        } else {
          assert d.interactions[i].doc == InteractionsFor(d0.contacts)[i - |d0.interactions|];
        }
      }
      forall i | 0 <= i < |d.applications|
        ensures HasId(d.jobs, d.applications[i].doc.jobId) && HasId(d.contacts, d.applications[i].doc.contactId)
      {
        if i < |d0.applications| {
          HasIdGrows(d0.jobs, d.jobs, d.applications[i].doc.jobId);
          HasIdGrows(d0.contacts, d.contacts, d.applications[i].doc.contactId);
        } else {
          assert d.applications[i].doc == ApplicationsFor(d.jobs, d0.contacts)[i - |d0.applications|];
        }
      }
    }
  }

  /**
   * Seeding never fails and only appends: five pages, blocks, companies,
   * contacts and applications, one job per company and one interaction per
   * contact present at that point; users, registry entries, accounts and every
   * other database are untouched, and no reference is left dangling.
   */
  lemma SeedTenantEffect(s: Store, db: string)
    ensures var r := SeedTenant(s, db);
            var d0, d := Db(s, db), Db(r.store, db);
            && r.thrown.None?
            && d.users == d0.users && SeededFrom(d0, d)
            && (forall other :: other != db ==> Db(r.store, other) == Db(s, other))
            && Listing(r.store) == Listing(s) + {db}
  {
    SeedIndependentEffect(s, db);
    var r4 := SeedIndependent(s, db);
    var d0, d4 := Db(s, db), Db(r4.store, db);
    TargetsGrowKeepsReferences(d0, d4);
    SeedLinkedShape(r4.store, db);
    WithLinkedEffect(d4, r4.store.nextOid);
    assert SeedTenant(s, db) == SeedLinked(r4.store, db);
  }

  /** Appending companies, contacts or jobs, and nothing that refers to them, breaks no reference. */
  lemma TargetsGrowKeepsReferences(d0: Database, d: Database)
    requires d0.companies <= d.companies && d0.contacts <= d.contacts && d0.jobs == d.jobs
    requires d0.interactions == d.interactions && d0.applications == d.applications
    ensures Referential(d0) ==> Referential(d)
  {
    if Referential(d0) {
      forall i | 0 <= i < |d.jobs| ensures HasId(d.companies, d.jobs[i].doc.companyId) {
        HasIdGrows(d0.companies, d.companies, d.jobs[i].doc.companyId);
      }
      forall i | 0 <= i < |d.interactions| ensures HasId(d.contacts, d.interactions[i].doc.contactId) {
        HasIdGrows(d0.contacts, d.contacts, d.interactions[i].doc.contactId);
      }
      forall i | 0 <= i < |d.applications| ensures HasId(d.contacts, d.applications[i].doc.contactId) {
        HasIdGrows(d0.contacts, d.contacts, d.applications[i].doc.contactId);
      }
    }
  }

  // ------------------------------------------------------------ the migration

  /** The user the script creates, with the bcrypt hash of the literal password. */
  function TestUser(id: ObjectId, hash: (string, nat) -> string): UserDoc {
    UserDoc(id, "Test User", "test@example.com", hash("password", BcryptCost), None, "user", true, Some(false), None)
  }

  /** The database `connectToDatabase(ADMIN_DB_NAME)` opens. */
  function AdminDatabase(env: Env, uriDb: string): string {
    if Truthy(env.adminDbName) then env.adminDbName.value else uriDb
  }

  /** Provisioning followed, when it succeeds, by seeding the new tenant database. */
  function ProvisionAndSeed(s: Store, adminDb: string, prefix: Option<string>, user: UserDoc): Run {
    var p := Provision(s, adminDb, prefix, user);
    if p.thrown.Some? then p else SeedTenant(p.store, EntryFor(prefix, user.id).dbName)
  }

  /**
   * After a successful run the admin database gained the user and its registry
   * entry, the tenant database the user and the sample data (references
   * intact if they were before), and no other database changed.
   */
  lemma ProvisionAndSeedEffect(s: Store, adminDb: string, prefix: Option<string>, user: UserDoc)
    requires ProvisionAndSeed(s, adminDb, prefix, user).thrown.None?
    ensures var r := ProvisionAndSeed(s, adminDb, prefix, user);
            var e := EntryFor(prefix, user.id);
            var d0, d := Db(s, e.dbName), Db(r.store, e.dbName);
            && e.dbName != adminDb
            && Db(r.store, adminDb) == Db(s, adminDb).(users := Db(s, adminDb).users + [user],
                                                       instances := Db(s, adminDb).instances + [e])
            && d.users == d0.users + [user] && SeededFrom(d0, d)
            && (forall other :: other != adminDb && other != e.dbName ==> Db(r.store, other) == Db(s, other))
            && Listing(r.store) == Listing(s) + {adminDb, e.dbName}
  {
    var p := Provision(s, adminDb, prefix, user);
    var e := EntryFor(prefix, user.id);
    assert p.thrown.None?;
    var r := SeedTenant(p.store, e.dbName);
    assert ProvisionAndSeed(s, adminDb, prefix, user) == r;
    SeedTenantEffect(p.store, e.dbName);
    var d0, d1 := Db(s, e.dbName), Db(p.store, e.dbName);
    assert d1 == d0.(users := d0.users + [user]);
    SeededFromIgnoresUsers(d0, d1, Db(r.store, e.dbName));
  }

  /** Seeding does not look at users: a database that differs only in its users seeds alike. */
  lemma SeededFromIgnoresUsers(d0: Database, d1: Database, d: Database)
    requires d1 == d0.(users := d1.users)
    requires SeededFrom(d1, d)
    ensures SeededFrom(d0, d)
  {
    assert Referential(d0) ==> Referential(d1);
  }

  /**
   * `runMigration`: connect, insert the test user into the admin database,
   * register and fill its tenant database.  The catch block only logs, so the
   * result is the store as the steps that ran left it.
   */
  function Migrate(s: Store, env: Env, uriDb: string, hash: (string, nat) -> string): (r: Run)
    ensures !Truthy(env.mongodbUri) ==> r == Run(s, Some(MissingUri))
    ensures Truthy(env.mongodbUri) ==>
              r == ProvisionAndSeed(Draw(s, 1), AdminDatabase(env, uriDb), env.instanceDbPrefix,
                                    TestUser(FreshId(s.nextOid), hash))
    ensures r.thrown.Some? ==> r.thrown == Some(MissingUri) || r.thrown == Some(DuplicateKey)
  {
    match ConnectToDatabase(env.mongodbUri, env.adminDbName, env.adminDbName, uriDb)
    case Failure(e) => Run(s, Some(e))
    case Success(adminDb) =>
      // connectToDatabase(dbName) between the registry entry and the copy cannot
      // fail: the URI was accepted and dbName is non-empty
      ProvisionAndSeed(Draw(s, 1), adminDb, env.instanceDbPrefix, TestUser(FreshId(s.nextOid), hash))
  }

  /** Provisioning and seeding a user whose tenant database does not exist yet. */
  lemma ProvisionAndSeedFresh(s: Store, adminDb: string, prefix: Option<string>, user: UserDoc)
    requires !HasUserId(Db(s, adminDb).users, user.id)
    requires EntryFor(prefix, user.id).dbName != adminDb && Db(s, EntryFor(prefix, user.id).dbName) == EmptyDatabase
    ensures var r := ProvisionAndSeed(s, adminDb, prefix, user);
            var dbName := EntryFor(prefix, user.id).dbName;
            var d := Db(r.store, dbName);
            && r.thrown.None?
            && d.users == [user]
            && |d.pages| == |d.contentBlocks| == |d.companies| == |d.contacts| == SampleDataCount
            && |d.jobs| == |d.interactions| == |d.applications| == SampleDataCount
            && Referential(d)
            && dbName in Listing(r.store)
  {
    assert Provision(s, adminDb, prefix, user).thrown.None?;
    ProvisionAndSeedEffect(s, adminDb, prefix, user);
    assert Referential(EmptyDatabase);
  }

  /**
   * On a cluster where the test user's id is new and its tenant database does
   * not exist yet, the migration completes: the tenant database holds exactly
   * the user, five documents of every sample kind with intact references, and
   * a session carrying the id is served that database.
   */
  lemma MigrationSeedsFreshTenant(s: Store, env: Env, uriDb: string, hash: (string, nat) -> string,
                                  adminDbName: Option<string>)
    requires Truthy(env.mongodbUri)
    requires PrefixText(env.dbPrefix) == PrefixText(env.instanceDbPrefix)
    requires var u := TestUser(FreshId(s.nextOid), hash);
             var dbName := EntryFor(env.instanceDbPrefix, u.id).dbName;
             && !HasUserId(Db(s, AdminDatabase(env, uriDb)).users, u.id)
             && dbName != AdminDatabase(env, uriDb) && Db(s, dbName) == EmptyDatabase
    ensures var r := Migrate(s, env, uriDb, hash);
            var u := TestUser(FreshId(s.nextOid), hash);
            var dbName := EntryFor(env.instanceDbPrefix, u.id).dbName;
            var d := Db(r.store, dbName);
            && r.thrown.None?
            && d.users == [u]
            && |d.pages| == |d.contentBlocks| == |d.companies| == |d.contacts| == SampleDataCount
            && |d.jobs| == |d.interactions| == |d.applications| == SampleDataCount
            && Referential(d)
            && ResolveDbName(Some(ObjectIdString(u.id)), Some(Listing(r.store)), adminDbName, env.dbPrefix)
               == Success(dbName)
  {
    var adminDb := AdminDatabase(env, uriDb);
    var u := TestUser(FreshId(s.nextOid), hash);
    var dbName := EntryFor(env.instanceDbPrefix, u.id).dbName;
    var s1 := Draw(s, 1);
    assert Db(s1, dbName) == EmptyDatabase && Db(s1, adminDb) == Db(s, adminDb);
    ProvisionAndSeedFresh(s1, adminDb, env.instanceDbPrefix, u);
    assert TenantDbName(env.dbPrefix, ObjectIdString(u.id)) == dbName;
  }

  // ------------------------------------------------------------ the script's functions

  /** `insertSamplePages(db)`. */
  method InsertSamplePages(c: Cluster, db: string) returns (thrown: Option<Exception>)
    modifies c`store
    ensures Run(c.store, thrown) == InsertPages(old(c.store), db, SamplePages())
  {
    var pages := BuildSamplePages();
    var r := InsertPages(c.store, db, pages);
    c.store, thrown := r.store, r.thrown;
  }

  /** `insertSampleContentBlocks(db)`. */
  method InsertSampleContentBlocks(c: Cluster, db: string) returns (thrown: Option<Exception>)
    modifies c`store
    ensures Run(c.store, thrown) == InsertBlocks(old(c.store), db, SampleBlocks())
  {
    var blocks := BuildSampleBlocks();
    var r := InsertBlocks(c.store, db, blocks);
    c.store, thrown := r.store, r.thrown;
  }

  /** `insertSampleCompanies(db)`. */
  method InsertSampleCompanies(c: Cluster, db: string) returns (thrown: Option<Exception>)
    modifies c`store
    ensures Run(c.store, thrown) == InsertCompanies(old(c.store), db, SampleCompanies())
  {
    var companies := BuildSampleCompanies();
    var r := InsertCompanies(c.store, db, companies);
    c.store, thrown := r.store, r.thrown;
  }

  /** `insertSampleContacts(db)`. */
  method InsertSampleContacts(c: Cluster, db: string) returns (thrown: Option<Exception>)
    modifies c`store
    ensures Run(c.store, thrown) == InsertContacts(old(c.store), db, SampleContacts())
  {
    var contacts := BuildSampleContacts();
    var r := InsertContacts(c.store, db, contacts);
    c.store, thrown := r.store, r.thrown;
  }

  /** `insertSampleJobs(db)`: one job per company `find()` returns. */
  method InsertSampleJobs(c: Cluster, db: string) returns (thrown: Option<Exception>)
    modifies c`store
    ensures Run(c.store, thrown) == InsertJobs(old(c.store), db, JobsFor(Db(old(c.store), db).companies))
  {
    var allCompanies := Db(c.store, db).companies;
    var jobs := BuildSampleJobs(allCompanies);
    var r := InsertJobs(c.store, db, jobs);
    c.store, thrown := r.store, r.thrown;
  }

  /** `insertSampleInteractions(db)`: one interaction per contact `find()` returns. */
  method InsertSampleInteractions(c: Cluster, db: string) returns (thrown: Option<Exception>)
    modifies c`store
    ensures Run(c.store, thrown) == InsertInteractions(old(c.store), db, InteractionsFor(Db(old(c.store), db).contacts))
  {
    var allContacts := Db(c.store, db).contacts;
    var interactions := BuildSampleInteractions(allContacts);
    var r := InsertInteractions(c.store, db, interactions);
    c.store, thrown := r.store, r.thrown;
  }

  /** `insertSampleApplications(db)`: five applications cycling through the jobs and contacts found. */
  method InsertSampleApplications(c: Cluster, db: string) returns (thrown: Option<Exception>)
    modifies c`store
    ensures Run(c.store, thrown) ==
            InsertApplications(old(c.store), db, ApplicationsFor(Db(old(c.store), db).jobs, Db(old(c.store), db).contacts))
  {
    var allJobs := Db(c.store, db).jobs;
    var allContacts := Db(c.store, db).contacts;
    var applications := BuildSampleApplications(allJobs, allContacts);
    var r := InsertApplications(c.store, db, applications);
    c.store, thrown := r.store, r.thrown;
  }

  /** Steps 1 to 5 of `runMigration`: the user in the admin database, its registry entry, its copy in the tenant database. */
  method ProvisionTestUser(c: Cluster, env: Env, uriDb: string, adminDb: string, user: UserDoc)
    returns (thrown: Option<Exception>, dbName: string)
    requires Truthy(env.mongodbUri)
    modifies c`store
    ensures dbName == EntryFor(env.instanceDbPrefix, user.id).dbName
    ensures Run(c.store, thrown) == Provision(old(c.store), adminDb, env.instanceDbPrefix, user)
  {
    dbName := EntryFor(env.instanceDbPrefix, user.id).dbName;
    thrown := c.InsertOneUser(adminDb, user);
    if thrown.Some? {
      return;
    }
    var userId := ObjectIdString(user.id);
    CreateInstance(c, adminDb, userId, TenantDbName(env.instanceDbPrefix, userId));
    var userDb := ConnectToDatabase(env.mongodbUri, Some(dbName), env.adminDbName, uriDb);
    var oid := ParseObjectId(userId);
    if oid.None? {
      return Some(InvalidObjectId), dbName;
    }
    thrown := c.InsertOneUser(userDb.value, user.(id := oid.value));
  }

  /** Step 6 of `runMigration`: the seven sample generators in order, stopping at the first throw. */
  method InsertSampleData(c: Cluster, db: string) returns (thrown: Option<Exception>)
    modifies c`store
    ensures Run(c.store, thrown) == SeedTenant(old(c.store), db)
  {
    thrown := InsertSamplePages(c, db);
    if thrown.Some? { return; }
    thrown := InsertSampleContentBlocks(c, db);
    if thrown.Some? { return; }
    thrown := InsertSampleCompanies(c, db);
    if thrown.Some? { return; }
    thrown := InsertSampleContacts(c, db);
    if thrown.Some? { return; }
    assert Run(c.store, thrown) == SeedIndependent(old(c.store), db);
    thrown := InsertSampleJobs(c, db);
    if thrown.Some? { return; }
    thrown := InsertSampleInteractions(c, db);
    if thrown.Some? { return; }
    thrown := InsertSampleApplications(c, db);
  }

  /** `runMigration()`; closing the client and exiting the process are not modelled. */
  method RunMigration(c: Cluster, env: Env, uriDb: string, hash: (string, nat) -> string)
    returns (thrown: Option<Exception>)
    modifies c`store
    ensures Run(c.store, thrown) == Migrate(old(c.store), env, uriDb, hash)
  {
    var admin := ConnectToDatabase(env.mongodbUri, env.adminDbName, env.adminDbName, uriDb);
    if admin.Failure? {
      return Some(admin.error);
    }
    var hashed := hash("password", BcryptCost);
    var id := c.NewObjectId();
    var user := UserDoc(id, "Test User", "test@example.com", hashed, None, "user", true, Some(false), None);
    var dbName;
    thrown, dbName := ProvisionTestUser(c, env, uriDb, admin.value, user);
    if thrown.Some? {
      return;
    }
    thrown := InsertSampleData(c, dbName);
  }
}
