# kinext-digital tenant databases, modelled in Dafny

kinext-digital is a Next.js application on MongoDB in which every registered
user gets a database of their own. This project models the part of it that
decides which database a request talks to, and the code that creates those
databases:

- **Tenant names.** A tenant database is called `prefix + fnv1a32(userId).toString(16)`.
  `userId` is the 24-hex-digit rendering of the user's ObjectId and the hash is
  32-bit FNV-1a over its bytes (modules `Radix`, `Fnv`, `TenantNames`, `Documents`).
- **Resolution (`getDb`).** The lazy connect and the choice between the
  signed-in user's tenant database (when the cluster lists it) and the admin
  database. `getDb` throws when neither gives a name (modules `Resolver`, `Mongo`).
- **Provisioning.** This is the sequence shared by the registration route and the migration
  script: insert the user into the admin database, append
  `{userId, dbName}` to `instances`, and insert a copy with the same `_id`
  into the tenant database (module `Provisioning`).
- **`POST /api/register`.** Modelled as written. That includes where each write
  actually goes, and the catch block that maps errors to 409/500 without
  undoing earlier writes (module `Register`).
- **The migration script.** Connect, provision a test user, and fill its
  database with sample pages, content blocks, companies, contacts, jobs,
  interactions and applications (module `Migration`).
- **The NextAuth callbacks.** `authorize`, the account-linking `signIn`, and the
  `jwt`/`session` copies (module `Auth`).

The cluster is a value `Store`: a map from database name to the collections
the core touches, plus a counter that stands for ObjectId generation. The
process-wide mongoose connection is the class `Mongo.Cluster`. Its fields are
`readyState`, whether `connection.db` is set, and the store, and
the route, script and callback methods change them in place. Each of these
methods is proved equal to a function on the store. The properties are
proved about those functions.

A thrown exception is modelled as a value (`Run.thrown`) next to the store
as the completed steps left it. Nothing is rolled back, as in the code.

Parameters stand for the environment and for what cannot be seen:

- the environment variables (`Env`);
- bcrypt's `hash`/`compare` (function-typed parameters);
- the connection's default database (`defaultDb`);
- whether the account insert fails (`insertFails`);
- the database named by the connection string (`uriDb`).

The code reads two different prefix variables. `getDb` uses `DB_PREFIX`
(src/lib/db.ts:141); the route and the script use
`MONGO_INSTANCE_DB_PREFIX` (src/app/api/register/route.ts:11,
scripts/init-kinext-digital-db.ts:20). They are separate fields of `Env`
(`dbPrefix`, `instanceDbPrefix`). `TenantNames.PrefixesSeparateNames` shows
that when they differ, the name `getDb` looks for is never the one
provisioning created.

`toString(16)` does not zero-pad, so the suffix of a tenant name has 1 to 8
hex digits and no leading zero (`Radix.HexLength`, `TenantNames.TenantDbName`).

## Model

| member | source | states |
|---|---|---|
| Radix.ToBase | src/lib/db.ts:141 | `Number.prototype.toString(radix)` of a natural number is a canonical digit string: lowercase digits of the radix, no leading zero unless the number is zero |
| Radix.Parse | src/app/api/register/route.ts:74 | parsing a digit string succeeds exactly when the string is canonical for the radix |
| Radix.ParseToBase | src/app/api/register/route.ts:74 | parsing the rendering of `n` gives back `n` |
| Radix.ToBaseFromBase | src/app/api/register/route.ts:74 | rendering the value of a canonical string gives back that string, so render and parse are inverse bijections |
| Radix.ParseIsInverse | src/app/api/register/route.ts:74 | `Parse(s) == Some(n)` holds exactly when `ToBase(n) == s` |
| Radix.ToBaseInjective | src/lib/db.ts:141 | distinct numbers have distinct renderings |
| Radix.HexLength | src/lib/db.ts:141 | the hex rendering has at most `k` digits exactly when the number is below 16^k |
| Fnv.HashString | src/lib/db.ts:141 | `fnv1a32` of a string is a 32-bit unsigned value |
| Fnv.Octets | src/lib/db.ts:141 | the bytes hashed are the string's characters, one byte each for ASCII text |
| Fnv.TestVectors | src/lib/db.ts:5 | the hash has the FNV-1a offset basis 0x811c9dc5 on empty input and gives 0xe40c292c on "a" |
| TenantNames.TenantDbName | src/app/api/register/route.ts:74 | the tenant name is the prefix followed by 1 to 8 canonical lowercase hex digits, with an unset prefix rendered as "undefined" |
| TenantNames.ParseTenantDbName | scripts/init-kinext-digital-db.ts:309 | a name parses exactly when it is the prefix followed by a canonical hex suffix, and it is then the prefix followed by the hex of the parsed hash |
| TenantNames.TenantDbNameRoundTrip | scripts/init-kinext-digital-db.ts:309 | parsing a tenant name recovers the 32-bit hash of the user id |
| TenantNames.TenantDbNameCollision | src/lib/db.ts:141 | two ids get the same tenant name exactly when their hashes collide |
| TenantNames.PrefixesSeparateNames | src/lib/db.ts:141 | with different `DB_PREFIX` and `MONGO_INSTANCE_DB_PREFIX` texts, the name looked up differs from the name provisioned |
| Documents.ObjectIdString | src/app/api/register/route.ts:71 | `insertedId.toString()` is 24 hex digits |
| Documents.ParseObjectId | src/app/api/register/route.ts:99 | `new ObjectId(s)` accepts exactly the 24-hex-digit strings |
| Documents.ObjectIdRoundTrip | src/app/api/register/route.ts:99 | `new ObjectId(id.toString())` is `id`, so the copy keeps the admin insert's `_id` |
| Documents.ObjectIdStringInjective | src/app/api/register/route.ts:71 | distinct ObjectIds render to distinct strings |
| Documents.InsertUser | src/app/api/register/route.ts:67-70 | `insertOne` into `users` fails with code 11000 exactly when the `_id` is taken, and otherwise appends the document and changes no other database |
| Documents.AppendInstance | src/app/api/register/route.ts:25-26 | the database becomes itself with exactly the entry appended to `instances`: every other collection, every other database and the model's id counter are unchanged |
| Documents.FirstWithEmail | src/app/api/register/route.ts:46 | `findOne({email})` returns the first user with that email, and none exactly when no user has it |
| Documents.Put | src/app/api/register/route.ts:97 | writing a database replaces it, lists it, and leaves every other database alone |
| Documents.AssignIdsFresh | scripts/init-kinext-digital-db.ts:153 | until the ObjectId generator wraps around, the ids `insertMany` gives one batch are pairwise distinct and differ from every id handed out before it |
| Documents.InsertPages | scripts/init-kinext-digital-db.ts:153 | `insertMany` into `pages` throws exactly on an empty batch; otherwise it appends the batch with fresh ids, advances the id counter by its length and touches nothing else |
| Documents.InsertBlocks | scripts/init-kinext-digital-db.ts:166 | the same for `contentBlocks` |
| Documents.InsertCompanies | scripts/init-kinext-digital-db.ts:233 | the same for `companies` |
| Documents.InsertContacts | scripts/init-kinext-digital-db.ts:181 | the same for `contacts` |
| Documents.InsertJobs | scripts/init-kinext-digital-db.ts:219 | the same for `jobs` |
| Documents.InsertInteractions | scripts/init-kinext-digital-db.ts:199 | the same for `interactions` |
| Documents.InsertApplications | scripts/init-kinext-digital-db.ts:258 | the same for `applications`, which is where an empty batch can actually arise |
| Resolver.SelectDbName | src/lib/db.ts:133-154 | with no session id or no `connection.db` the admin name is kept; a listed tenant name is chosen; an unlisted one falls back to the admin name; the result is the admin name or a listed name |
| Resolver.ResolveDbName | src/lib/db.ts:133-161 | `getDb` throws exactly when the admin name is unset or empty and no tenant database is listed; otherwise it returns the listed tenant name or the admin name |
| Mongo.Cluster.GetDb | src/lib/db.ts:123-162 | connects only when `readyState` is 0, leaving the connection connected so later calls do not reconnect, and returns the resolved name |
| Mongo.Cluster.InsertOneUser | src/app/api/register/route.ts:67-70 | the store becomes `InsertUser`'s result, or stays unchanged with a duplicate-key error |
| Mongo.Cluster.InsertOneInstance | src/app/api/register/route.ts:26 | the store becomes `AppendInstance`'s result |
| Mongo.Cluster.FindOneUser | src/app/api/register/route.ts:46 | returns the first user with the email, or nothing |
| Mongo.Cluster.NewObjectId | src/app/api/register/route.ts:53 | `new ObjectId()` returns the next fresh id and advances the counter by one |
| Provisioning.Provision | scripts/init-kinext-digital-db.ts:303-323 | an existing `_id` stops provisioning with nothing changed. Otherwise the admin database becomes itself plus exactly the user and its `{userId, dbName}` entry, also when the later copy clashes. On success the tenant database becomes itself plus the same-`_id` copy, every other database and the model's id counter are unchanged, and the listing gains exactly those two names. After the tenant-side clash only the admin database has changed and the listing gains only its name. A fresh id and a tenant name unlike the admin name always succeed |
| Provisioning.ProvisionRoundTrip | scripts/init-kinext-digital-db.ts:305-322 | after provisioning, the registry entry's `userId` parses back to the user's id, which is the `_id` of a user in both the admin and the tenant database |
| Provisioning.ResolveAfterProvision | src/lib/db.ts:137-144 | when `DB_PREFIX` and the prefix used for provisioning have the same text, a session carrying the provisioned id resolves to the new tenant database |
| Provisioning.CreateInstance | scripts/init-kinext-digital-db.ts:270-274 | `createInstance` leaves the store as `AppendInstance` gives it: one `{userId, dbName}` entry appended to `instances`, nothing else changed |
| Register.CatchOutcome | src/app/api/register/route.ts:110-116 | an error with code 11000 answers 409, and any other error answers 500 |
| Register.Register | src/app/api/register/route.ts:36-117 | A failed `getDb` or unreadable body answers 500 unchanged. Missing fields or unaccepted terms answer 400 and nothing changes. A known email answers 409 and nothing changes. Nothing is written unless the request gets past those checks. A 201 means getDb's database is itself with exactly the user (role "user", no image, bcrypt hash of the password) appended to `users`, the connection's default database is itself with exactly the entry appended to `instances` and the copy to `users`, no other collection or database changed, and the response carries the inserted id, name, email and role. A 201 also needs `connection.db` and a set `session.user.id`, so a visitor who is not signed in never gets one |
| Register.Writes | src/app/api/register/route.ts:66-100 | the writes draw no ids from the model's counter, and a 201 means getDb's database is exactly the old one plus the admin user and the default database exactly the old one plus the registry entry and the copy, with nothing else changed |
| Register.AfterAdminInsert | src/app/api/register/route.ts:71-109 | after the admin insert, a 201 requires `connection.db` and a set `session.user.id`, and means the default database is exactly the old one with the entry appended to `instances` and the copy to `users`, every other database unchanged |
| Register.AfterAdminInsertOnlyAppends | src/app/api/register/route.ts:78-100 | after the admin insert the handler only appends: other databases stay, users only grow, and with `connection.db` the registry entry is in place whatever follows |
| Register.WritesAreNotUndone | src/app/api/register/route.ts:110-116 | the catch block undoes nothing: for a request that reaches the writes with a fresh id, the user stays in getDb's database and, when `connection.db` is set, the registry entry stays in the default database, whatever the answer (including the 500 at lines 78-80 and at line 91) |
| Register.Post | src/app/api/register/route.ts:33-117 | the handler connects like `getDb`, and its response and new store are exactly `Register` on the resolved name |
| Register.Respond | src/app/api/register/route.ts:40-117 | the handler after `getDb` ends in the response and store `Register` gives |
| Register.InsertAndLink | src/app/api/register/route.ts:66-100 | the handler's write phase ends in the state and response `Writes` describes |
| Register.LinkTenant | src/app/api/register/route.ts:74-109 | the part after the admin insert ends as `AfterAdminInsert` describes |
| Register.RepeatedEmailPassesCheck | src/app/api/register/route.ts:46-67 | with getDb's database distinct from the default one, a registration by a visitor who is not signed in answers 500 after appending its user to getDb's database, yet the same request afterwards still passes the 409 check and has an id not taken there |
| Register.UnauthenticatedRunAppendsUser | src/app/api/register/route.ts:46-91 | such a request answers 500, appends exactly its user to getDb's database, leaves the default database's users as they were and draws two ids |
| Register.IntendedRejectsRepeatedEmail | src/app/api/register/route.ts:46-49 | in the corrected handler, once a registration got its user in, however it ended, the same email answers 409 and nothing changes |
| Register.UnauthenticatedRegistrationFails | src/app/api/register/route.ts:89-91 | without `session.user` a valid registration answers 500 even though the admin user and the registry entry were written |
| Register.SameDatabaseRegistrationConflicts | src/app/api/register/route.ts:66-67 | when getDb's database is the connection's default database, the copy clashes on `_id` and a valid registration answers 409 after writing the user |
| Register.RegisteredUserNotRouted | src/app/api/register/route.ts:97 | after a 201 the new tenant database is not listed, so the new user's session resolves exactly as an anonymous one |
| Register.RegisterIntended | src/app/api/register/route.ts:42-100 | the corrected handler: the same 400 check, and the 409 check moved to getDb's database, where the user goes (a known email there answers 409 and changes nothing), then the whole provisioning sequence against that database. A 201 means the registry entry, the admin user and the tenant copy all exist and the tenant database is listed |
| Register.IntendedRegistrationSucceeds | src/app/api/register/route.ts:102-109 | the corrected handler answers 201 for a valid new user, and, when `getDb` resolves with the same prefix text it names with, the user's session then resolves to their tenant database |
| Migration.ConnectToDatabase | scripts/init-kinext-digital-db.ts:120-137 | fails exactly when `MONGODB_URI` is unset or empty, uses the given name, falls back to the admin name when none is given, and falls back to the URI's database when that is empty too |
| Migration.SampleSlugsDistinct | scripts/init-kinext-digital-db.ts:145-151 | the five sample pages have pairwise distinct slugs |
| Migration.JobsReferenceCompanies | scripts/init-kinext-digital-db.ts:209-218 | one job per existing company, each referring to a company that exists |
| Migration.InteractionsReferenceContacts | scripts/init-kinext-digital-db.ts:191-198 | one interaction per existing contact, each referring to a contact that exists |
| Migration.ApplicationsReferenceExisting | scripts/init-kinext-digital-db.ts:247-257 | no applications without jobs or contacts; otherwise five, each referring to an existing job and an existing contact |
| Migration.BuildSamplePages | scripts/init-kinext-digital-db.ts:144-151 | the loop builds exactly the five sample pages |
| Migration.BuildSampleBlocks | scripts/init-kinext-digital-db.ts:159-165 | the loop builds exactly the five text blocks |
| Migration.BuildSampleCompanies | scripts/init-kinext-digital-db.ts:225-232 | the loop builds exactly the five companies |
| Migration.BuildSampleContacts | scripts/init-kinext-digital-db.ts:172-180 | the loop builds exactly the five contacts |
| Migration.BuildSampleJobs | scripts/init-kinext-digital-db.ts:207-218 | the loop builds one active job per company, with that company's `_id` |
| Migration.BuildSampleInteractions | scripts/init-kinext-digital-db.ts:189-198 | the loop builds one email interaction per contact, with that contact's `_id` |
| Migration.BuildSampleApplications | scripts/init-kinext-digital-db.ts:244-257 | the loop builds application i from `jobs[i % |jobs|]` and `contacts[i % |contacts|]`, and none when either list is empty |
| Migration.SeedIndependentEffect | scripts/init-kinext-digital-db.ts:327-330 | pages, blocks, companies and contacts go in five each with consecutive fresh ids, and nothing else changes |
| Migration.SeedLinkedShape | scripts/init-kinext-digital-db.ts:331-333 | once companies and contacts exist, jobs, interactions and applications go in without error |
| Migration.WithLinkedEffect | scripts/init-kinext-digital-db.ts:331-333 | the linked batches add one job per company, one interaction per contact and five applications, and keep every reference valid |
| Migration.SeedTenantEffect | scripts/init-kinext-digital-db.ts:327-333 | seeding never fails and only appends: every sample collection keeps its old documents as a prefix and gains five of each independent kind, one job per company and one interaction per contact present at that point, and five applications. Users, registry and accounts are untouched, no reference dangles, and no other database changes |
| Migration.SeededFromIgnoresUsers | scripts/init-kinext-digital-db.ts:318-333 | the user copy written before seeding does not change what seeding adds to the tenant database |
| Migration.TargetsGrowKeepsReferences | scripts/init-kinext-digital-db.ts:327-330 | adding companies or contacts breaks no existing reference |
| Migration.ProvisionAndSeedEffect | scripts/init-kinext-digital-db.ts:303-333 | a completed run leaves the admin database as itself plus exactly the user and its entry. The tenant database gains the user copy, keeps its registry and accounts, and keeps every sample collection as a prefix of the new one with the seeded counts and valid references. No other database changes and the listing gains exactly the two names |
| Migration.Migrate | scripts/init-kinext-digital-db.ts:281-346 | a missing URI stops the run with the store unchanged. Otherwise the run is provisioning and seeding of the test user (fresh id, bcrypt hash of "password") against the admin database. The only errors are a missing URI and a duplicate key |
| Migration.ProvisionAndSeedFresh | scripts/init-kinext-digital-db.ts:303-333 | for a new id whose tenant database does not exist, the run succeeds and that database holds exactly the user and five documents of every sample kind with intact references |
| Migration.MigrationSeedsFreshTenant | scripts/init-kinext-digital-db.ts:281-333 | on a fresh cluster the migration completes: the tenant database holds exactly the test user, five of every sample kind (so 5 jobs and 5 applications) with intact references, and, when `DB_PREFIX` has the same text as `MONGO_INSTANCE_DB_PREFIX`, the user's session resolves to it |
| Migration.InsertSamplePages | scripts/init-kinext-digital-db.ts:142-155 | the store after `insertSamplePages` is `InsertPages` of the five sample pages |
| Migration.InsertSampleContentBlocks | scripts/init-kinext-digital-db.ts:157-168 | the store after `insertSampleContentBlocks` is `InsertBlocks` of the five blocks |
| Migration.InsertSampleCompanies | scripts/init-kinext-digital-db.ts:223-235 | the store after `insertSampleCompanies` is `InsertCompanies` of the five companies |
| Migration.InsertSampleContacts | scripts/init-kinext-digital-db.ts:170-183 | the store after `insertSampleContacts` is `InsertContacts` of the five contacts |
| Migration.InsertSampleJobs | scripts/init-kinext-digital-db.ts:203-221 | reads the companies present and inserts one job for each |
| Migration.InsertSampleInteractions | scripts/init-kinext-digital-db.ts:185-201 | reads the contacts present and inserts one interaction for each |
| Migration.InsertSampleApplications | scripts/init-kinext-digital-db.ts:237-260 | reads jobs and contacts and inserts the cycled applications |
| Migration.ProvisionTestUser | scripts/init-kinext-digital-db.ts:303-323 | the script's steps 1 to 5 derive the tenant name from the inserted id and end in the state `Provision` describes |
| Migration.InsertSampleData | scripts/init-kinext-digital-db.ts:327-333 | the seven inserts in the script's order end in `SeedTenant`'s state |
| Migration.RunMigration | scripts/init-kinext-digital-db.ts:281-346 | the script ends in `Migrate`'s state and error |
| Auth.AuthorizeAgainst | src/lib/auth.ts:62-88 | `authorize` returns a user exactly when email and password are present, some user has that email, and the password check passes against the first such user. It then returns that user's id as a string that parses back to the `_id`, and the user's name, email and role |
| Auth.Authorize | src/lib/auth.ts:62-88 | missing credentials return null without touching the connection; otherwise the lookup runs in the database `getDb` resolves |
| Auth.FirstWithEmailAppended | src/lib/auth.ts:70 | a user appended to a list without that email is the one `findOne` finds |
| Auth.ProvisionedUserSignsIn | src/lib/auth.ts:62-88 | a provisioned user whose email was new to the admin database signs in there with a password the hash accepts. They get back their own id, and, when `DB_PREFIX` has the same text as the prefix they were provisioned with, that id resolves to their tenant database |
| Auth.LinkAccount | src/lib/auth.ts:99-136 | sign-in is denied exactly when the link insert fails. A TypeError arises exactly for a known user without an account. No user with the email gives Allow and no link document. A link is added only when none exists, and afterwards the user is linked |
| Auth.SignInOn | src/lib/auth.ts:93-146 | no write for the credentials provider, a user without email, an email no user has, a deny or an error. Any write is an Allow that appends the link document for the first user with the email to the `accounts` of getDb's database, through `Put`, so no other database changes |
| Auth.SignIn | src/lib/auth.ts:93-146 | the callback connects like `getDb` only when it may link, and its answer and new store are `SignInOn` on the resolved name |
| Auth.CountLinksZero | src/lib/auth.ts:104-108 | no matching link means a count of zero |
| Auth.CountLinksAppend | src/lib/auth.ts:116-128 | appending a document raises the count of its own triple by one and leaves the others alone |
| Auth.SignInKeepsLinksUnique | src/lib/auth.ts:104-128 | if every `(userId, provider, providerAccountId)` triple occurs at most once, it still does after sign-in |
| Auth.SignInIdempotent | src/lib/auth.ts:104-136 | signing in twice with the same account changes nothing the second time |
| Auth.Jwt | src/lib/auth.ts:148-154 | with a user, `token.role` and `token.sub` take the user's role and id; without one the token is unchanged |
| Auth.SessionCallback | src/lib/auth.ts:155-163 | when `session.user` exists it receives `token.role` and `token.sub` |

## Left out

- The hash reads each character's low 8 bits. The FNV-1a library encodes strings as UTF-8, which gives the same bytes only for ASCII. Every input here is a hex ObjectId string.
- `fnv1a32` on an absent `session.user.id` (route.ts:91) is taken to throw a TypeError, so the handler answers 500 after the admin user and the registry entry are written. The hash library's source is not part of this model. src/lib/auth.ts:160 sets `id` from `token.sub`, so a signed-in session carries one.
- bcrypt `hash` and `compare` are opaque function parameters; the salt and cost factor are not interpreted beyond the constant 12.
- `createCollection('users')` (route.ts:94) is treated as a no-op. Its behaviour on an existing collection depends on the server version.
- The unique indexes that mongoose schemas declare on email, phone number and slug are not enforced. Only the `_id` clash (code 11000) is modelled.
- Concurrent requests are not modelled; every operation runs alone.
- Connection failures and hangs are not modelled. A connect always succeeds, and a failed link insert is the parameter `insertFails`.
- Dates (`createdAt`, `date`), `console` logging, `client.close()` and `process.exit()` are not modelled.
- Instance and account documents get their own `_id` in MongoDB. The model does not store one, since nothing reads it.
- The driver generates that `_id` with `new ObjectId()` for `instances.insertOne` (route.ts:26, scripts/init-kinext-digital-db.ts:272) and for the link insert (src/lib/auth.ts:116). The model does not draw it from the id counter, so the counter counts only the ids the code creates itself or `insertMany` assigns: a 201 advances it by 2, not 3, and the migration and a link each draw one id fewer than the driver does. The properties proved here use the counter only to tell fresh ids apart.
- `emailVerified: null` on the migration's user is not a field of the model's user document.
- ObjectId parsing accepts lowercase hex only. The 12-byte-buffer and uppercase forms of `new ObjectId(...)` are not modelled.
- `termsAccepted` is a boolean. A non-boolean JSON value is taken by its truthiness before it reaches the model.
- src/lib/auth.ts:13 default-imports `getDb`, but src/lib/db.ts exports it by name. The model treats the import as the named `getDb`.
- The NextAuth provider configuration, JWT signing and the `NextAuth(authOptions)` handler are not modelled.
- Auth.SignIn: `getServerSession` inside `getDb` during a sign-in callback is modelled as reading the session passed in. How NextAuth supplies it at that point is not modelled.

## Findings

| source | as written | input that shows it | evidently intended | confidence | as-written member | corrected member |
|---|---|---|---|---|---|---|
| src/app/api/register/route.ts:90-91 | `session.user.id` is read after the admin user and the registry entry are written | a valid registration from a visitor who is not signed in, the normal case for sign-up | registration does not depend on a session, and a failure leaves no half-registered user | not executed | Register.UnauthenticatedRegistrationFails | Register.IntendedRegistrationSucceeds |
| src/app/api/register/route.ts:75,97 | the registry entry and the user copy go to `mongoose.connection.db`, the connection's default database, not to the database named `dbName` | any successful registration (which needs `createCollection('users')` at route.ts:94 to succeed on the existing collection; where it throws, the answer is 500 and the entry stays in the default database): afterwards `dbName` is not listed, so `getDb` serves the new user the admin database | the copy goes into the tenant database `dbName`, as in the migration script | not executed | Register.RegisteredUserNotRouted | Register.IntendedRegistrationSucceeds |
| src/app/api/register/route.ts:66-67,97 | the admin insert goes to getDb's database and the copy with the same `_id` to the default database | a signed-in registrant, in a deployment where `MONGODB_ADMIN_DB_NAME` is the database of the connection string and `createCollection('users')` at route.ts:94 succeeds on the existing collection (otherwise 500, with the entry kept): a valid registration answers 409 after the user was written | the admin insert and the tenant copy go to distinct databases | not executed | Register.SameDatabaseRegistrationConflicts | Register.IntendedRegistrationSucceeds |
| src/app/api/register/route.ts:46,67 | the email check uses `UserModel`, which reads the connection's default database, while the user is inserted into getDb's database | a deployment where `MONGODB_ADMIN_DB_NAME` is not the database of the connection string, and a visitor who is not signed in submits the same valid registration twice: both answer 500 at line 91, and getDb's database then holds two users with one email | the email is checked in the database the user is inserted into | not executed | Register.RepeatedEmailPassesCheck | Register.IntendedRejectsRepeatedEmail |
