/**
 * The NextAuth configuration: the credentials `authorize` check, the
 * `signIn` callback that links OAuth accounts to existing users, and the
 * `jwt` and `session` callbacks that carry the user's id and role.
 */
module Auth {
  import opened Wrappers
  import opened Documents
  import opened Sessions
  import opened Resolver
  import opened Mongo
  import opened Provisioning

  // ------------------------------------------------------------ authorize

  /** The submitted credentials form; either field may be missing. */
  datatype Credentials = Credentials(email: Option<string>, password: Option<string>)

  /** The object `authorize` returns. */
  datatype AuthUser = AuthUser(id: string, name: string, email: string, role: string)

  /** `credentials?.email && credentials?.password`. */
  predicate CredentialsPresent(creds: Option<Credentials>) {
    creds.Some? && Truthy(creds.value.email) && Truthy(creds.value.password)
  }

  /**
   * The lookup and check of `authorize` against one users collection:
   * the first user with the email, accepted when `compare` (bcrypt) accepts
   * the password against the stored hash.
   */
  function AuthorizeAgainst(creds: Option<Credentials>, users: seq<UserDoc>,
                            compare: (string, string) -> bool): (r: Option<AuthUser>)
    ensures r.Some? <==>
              && CredentialsPresent(creds)
              && FirstWithEmail(users, creds.value.email.value).Some?
              && compare(creds.value.password.value, users[FirstWithEmail(users, creds.value.email.value).value].password)
    ensures r.Some? ==>
              var u := users[FirstWithEmail(users, creds.value.email.value).value];
              && r.value == AuthUser(ObjectIdString(u.id), u.name, u.email, u.role)
              && u.email == creds.value.email.value
              && ParseObjectId(r.value.id) == Some(u.id)
  {
    if !CredentialsPresent(creds) then None
    else
      var email, password := creds.value.email.value, creds.value.password.value;
      match FirstWithEmail(users, email)
      case None => None
      case Some(k) =>
        var u := users[k];
        if !compare(password, u.password) then None
        else
          ObjectIdRoundTrip(u.id);
          Some(AuthUser(ObjectIdString(u.id), u.name, u.email, u.role))
  }

  /** `authorize` after `getDb` answered `db`: a throw from `getDb` propagates. */
  function AuthorizeOn(s: Store, db: Result<string, Exception>, creds: Option<Credentials>,
                       compare: (string, string) -> bool): Result<Option<AuthUser>, Exception>
  {
    if !CredentialsPresent(creds) then Success(None)
    else match db
      case Failure(e) => Failure(e)
      case Success(name) => Success(AuthorizeAgainst(creds, Db(s, name).users, compare))
  }

  /** `authorize(credentials)`: no connection is touched when a field is missing. */
  method Authorize(c: Cluster, session: Session?, creds: Option<Credentials>, compare: (string, string) -> bool)
    returns (r: Result<Option<AuthUser>, Exception>)
    modifies c`readyState, c`hasDb
    ensures !CredentialsPresent(creds) ==> c.readyState == old(c.readyState) && c.hasDb == old(c.hasDb)
    ensures r == AuthorizeOn(c.store, ResolveDbName(AuthenticatedUserId(session), c.Visible(), c.env.adminDbName, c.env.dbPrefix),
                             creds, compare)
  {
    if !CredentialsPresent(creds) {
      return Success(None);
    }
    var db := c.GetDb(session);
    if db.Failure? {
      return Failure(db.error);
    }
    var email, password := creds.value.email.value, creds.value.password.value;
    var user := c.FindOneUser(db.value, email);
    if user.None? {
      return Success(None);
    }
    var passwordMatch := compare(password, user.value.password);
    if !passwordMatch {
      return Success(None);
    }
    var u := user.value;
    return Success(Some(AuthUser(ObjectIdString(u.id), u.name, u.email, u.role)));
  }

  /** In `old + [u]` where no earlier user has u's email, `findOne` finds `u`. */
  lemma {:induction false} FirstWithEmailAppended(users: seq<UserDoc>, u: UserDoc)
    requires FirstWithEmail(users, u.email).None?
    ensures FirstWithEmail(users + [u], u.email) == Some(|users|)
  {
    if users != [] {
      assert (users + [u])[1..] == users[1..] + [u];
      FirstWithEmailAppended(users[1..], u);
    }
  }

  /**
   * A provisioned user whose email was new to the admin database signs in with
   * the password its hash accepts, receives its own id, and that id resolves
   * to its tenant database when `getDb` uses the same prefix.
   */
  lemma ProvisionedUserSignsIn(s: Store, adminDb: string, prefix: Option<string>, user: UserDoc,
                               password: string, compare: (string, string) -> bool, adminDbName: Option<string>)
    requires Provision(s, adminDb, prefix, user).thrown.None?
    requires FirstWithEmail(Db(s, adminDb).users, user.email).None?
    requires user.email != "" && password != "" && compare(password, user.password)
    ensures var t := Provision(s, adminDb, prefix, user).store;
            var r := AuthorizeAgainst(Some(Credentials(Some(user.email), Some(password))), Db(t, adminDb).users, compare);
            && r == Some(AuthUser(ObjectIdString(user.id), user.name, user.email, user.role))
            && ResolveDbName(Some(r.value.id), Some(Listing(t)), adminDbName, prefix)
               == Success(EntryFor(prefix, user.id).dbName)
  {
    var t := Provision(s, adminDb, prefix, user).store;
    FirstWithEmailAppended(Db(s, adminDb).users, user);
    ResolveAfterProvision(s, adminDb, prefix, user, adminDbName);
  }

  // ------------------------------------------------------------ signIn

  /** The `account` argument of `signIn` for an OAuth provider. */
  datatype ProviderAccount = ProviderAccount(kind: string, provider: string, providerAccountId: string,
                                             tokens: AccountTokens)

  /** What the callback resolves to, or the error it throws. */
  datatype SignInOutcome = Allow | Deny | Threw(e: Exception)

  /** `accounts.findOne({userId, provider, providerAccountId})` finds a document. */
  predicate Linked(accounts: seq<AccountDoc>, userId: ObjectId, provider: string, providerAccountId: string) {
    exists i :: 0 <= i < |accounts| && IsLink(accounts[i], userId, provider, providerAccountId)
  }

  predicate IsLink(a: AccountDoc, userId: ObjectId, provider: string, providerAccountId: string) {
    a.userId == userId && a.provider == provider && a.providerAccountId == providerAccountId
  }

  /** How many documents link this user to this provider account. */
  function CountLinks(accounts: seq<AccountDoc>, userId: ObjectId, provider: string, providerAccountId: string): nat {
    if accounts == [] then 0
    else CountLinks(accounts[..|accounts| - 1], userId, provider, providerAccountId)
         + (if IsLink(accounts[|accounts| - 1], userId, provider, providerAccountId) then 1 else 0)
  }

  /** No user is linked twice to the same provider account. */
  ghost predicate UniqueLinks(accounts: seq<AccountDoc>) {
    forall userId, provider, providerAccountId ::
      CountLinks(accounts, userId, provider, providerAccountId) <= 1
  }

  /** `account?.provider !== 'credentials' && user?.email`: the branch that may link. */
  predicate MayLink(email: Option<string>, account: Option<ProviderAccount>) {
    (account.None? || account.value.provider != "credentials") && Truthy(email)
  }

  /** The document the callback inserts to link `account` to `u`. */
  function LinkDoc(u: UserDoc, account: ProviderAccount): AccountDoc {
    AccountDoc(u.id, account.kind, account.provider, account.providerAccountId, account.tokens)
  }

  /**
   * The linking branch against one database: no user with the email allows
   * sign-in untouched; a user with a null account throws on `account.provider`;
   * an existing link allows untouched; otherwise the link is inserted, and a
   * failed insert (`insertFails`) denies.  The second component is the
   * inserted document.
   */
  function LinkAccount(users: seq<UserDoc>, accounts: seq<AccountDoc>, email: string,
                       account: Option<ProviderAccount>, insertFails: bool): (r: (SignInOutcome, Option<AccountDoc>))
    ensures r.0 == Deny <==>
              && FirstWithEmail(users, email).Some? && account.Some?
              && !Linked(accounts, users[FirstWithEmail(users, email).value].id, account.value.provider,
                         account.value.providerAccountId)
              && insertFails
    ensures FirstWithEmail(users, email).None? ==> r == (Allow, None)
    ensures r.0.Threw? <==> FirstWithEmail(users, email).Some? && account.None?
    ensures r.0.Threw? ==> r.0.e == TypeError
    ensures r.1.Some? ==> r.0 == Allow && !Linked(accounts, r.1.value.userId, r.1.value.provider, r.1.value.providerAccountId)
    ensures r.0 == Allow && FirstWithEmail(users, email).Some? ==>
              var u := users[FirstWithEmail(users, email).value];
              && account.Some?
              && Linked(accounts + (if r.1.Some? then [r.1.value] else []), u.id, account.value.provider,
                        account.value.providerAccountId)
              && (r.1.Some? ==> r.1.value == LinkDoc(u, account.value))
  {
    match FirstWithEmail(users, email)
    case None => (Allow, None)
    case Some(k) =>
      if account.None? then (Threw(TypeError), None)
      else
        var u, a := users[k], account.value;
        if Linked(accounts, u.id, a.provider, a.providerAccountId) then
          assert accounts + [] == accounts;
          (Allow, None)
        else if insertFails then (Deny, None)
        else
          var doc := LinkDoc(u, a);
          assert IsLink((accounts + [doc])[|accounts|], u.id, a.provider, a.providerAccountId);
          (Allow, Some(doc))
  }

  /** `signIn` after `getDb` answered `db` (consulted only on the linking branch). */
  function SignInOn(s: Store, db: Result<string, Exception>, email: Option<string>,
                    account: Option<ProviderAccount>, insertFails: bool): (r: (SignInOutcome, Store))
    ensures !MayLink(email, account) ==> r == (Allow, s)
    ensures r.0 == Deny ==> r.1 == s
    ensures r.0.Threw? ==> r.1 == s
    ensures r.1 != s ==> r.0 == Allow && MayLink(email, account) && db.Success?
    // no user with the email: nothing is written
    ensures MayLink(email, account) && db.Success? && FirstWithEmail(Db(s, db.value).users, email.value).None? ==> r == (Allow, s)
    // a write is the link document appended to the accounts of getDb's database
    ensures r.1 != s ==>
              var d := Db(s, db.value);
              && FirstWithEmail(d.users, email.value).Some? && account.Some?
              && r.1 == Put(s, db.value, d.(accounts := d.accounts + [LinkDoc(d.users[FirstWithEmail(d.users, email.value).value], account.value)]))
  {
    if !MayLink(email, account) then (Allow, s)
    else match db
      case Failure(e) => (Threw(e), s)
      case Success(name) =>
        var d := Db(s, name);
        var (outcome, doc) := LinkAccount(d.users, d.accounts, email.value, account, insertFails);
        if doc.None? then (outcome, s)
        else (outcome, Put(s, name, d.(accounts := d.accounts + [doc.value])))
  }

  /** The `signIn` callback; `insertFails` stands for a failed write of the link. */
  method SignIn(c: Cluster, session: Session?, email: Option<string>, account: Option<ProviderAccount>,
                insertFails: bool) returns (outcome: SignInOutcome)
    modifies c`readyState, c`hasDb, c`store
    ensures !MayLink(email, account) ==> c.readyState == old(c.readyState) && c.hasDb == old(c.hasDb)
    ensures (outcome, c.store) ==
            SignInOn(old(c.store),
                     ResolveDbName(AuthenticatedUserId(session), if c.hasDb then Some(Listing(old(c.store))) else None,
                                   c.env.adminDbName, c.env.dbPrefix),
                     email, account, insertFails)
  {
    if !MayLink(email, account) {
      return Allow;  // the credentials provider, or no email: nothing is written
    }
    var db := c.GetDb(session);
    if db.Failure? {
      return Threw(db.error);
    }
    var existingUser := c.FindOneUser(db.value, email.value);
    if existingUser.None? {
      return Allow;  // NextAuth creates the user
    }
    if account.None? {
      return Threw(TypeError);
    }
    var u, a := existingUser.value, account.value;
    var accounts := Db(c.store, db.value).accounts;
    if Linked(accounts, u.id, a.provider, a.providerAccountId) {
      return Allow;
    }
    if insertFails {
      return Deny;
    }
    var d := Db(c.store, db.value);
    c.store := Put(c.store, db.value, d.(accounts := d.accounts + [LinkDoc(u, a)]));
    return Allow;
  }

  /** A link count is zero exactly when `findOne` finds no link. */
  lemma {:induction false} CountLinksZero(accounts: seq<AccountDoc>, userId: ObjectId, provider: string,
                                          providerAccountId: string)
    ensures CountLinks(accounts, userId, provider, providerAccountId) == 0
            <==> !Linked(accounts, userId, provider, providerAccountId)
  {
    if accounts != [] {
      var init := accounts[..|accounts| - 1];
      CountLinksZero(init, userId, provider, providerAccountId);
      if Linked(init, userId, provider, providerAccountId) {
        var i :| 0 <= i < |init| && IsLink(init[i], userId, provider, providerAccountId);
        assert IsLink(accounts[i], userId, provider, providerAccountId);
      }
      if Linked(accounts, userId, provider, providerAccountId) {
        var i :| 0 <= i < |accounts| && IsLink(accounts[i], userId, provider, providerAccountId);
        if i < |init| {
          assert IsLink(init[i], userId, provider, providerAccountId);
        }
      }
    }
  }

  /** Appending a document adds one to the count of the triple it links, and nothing to any other. */
  lemma CountLinksAppend(accounts: seq<AccountDoc>, doc: AccountDoc, userId: ObjectId, provider: string,
                         providerAccountId: string)
    ensures CountLinks(accounts + [doc], userId, provider, providerAccountId)
            == CountLinks(accounts, userId, provider, providerAccountId)
               + (if IsLink(doc, userId, provider, providerAccountId) then 1 else 0)
  {
    assert (accounts + [doc])[..|accounts|] == accounts;
  }

  /** `signIn` keeps every user linked at most once to each provider account. */
  lemma SignInKeepsLinksUnique(s: Store, db: string, email: Option<string>, account: Option<ProviderAccount>,
                               insertFails: bool)
    requires UniqueLinks(Db(s, db).accounts)
    ensures UniqueLinks(Db(SignInOn(s, Success(db), email, account, insertFails).1, db).accounts)
  {
    var r := SignInOn(s, Success(db), email, account, insertFails);
    if r.1 != s {
      var d := Db(s, db);
      var doc := LinkAccount(d.users, d.accounts, email.value, account, insertFails).1.value;
      assert Db(r.1, db).accounts == d.accounts + [doc];
      forall userId, provider, providerAccountId
        ensures CountLinks(d.accounts + [doc], userId, provider, providerAccountId) <= 1
      {
        CountLinksAppend(d.accounts, doc, userId, provider, providerAccountId);
        if IsLink(doc, userId, provider, providerAccountId) {
          CountLinksZero(d.accounts, userId, provider, providerAccountId);
        }
      }
    }
  }

  /**
   * Signing in twice with the same provider account links it once: after a
   * sign-in that was allowed, a second one is allowed and writes nothing,
   * whatever the second insert would have done.
   */
  lemma SignInIdempotent(s: Store, db: string, email: Option<string>, account: Option<ProviderAccount>,
                         insertFails: bool, insertFailsAgain: bool)
    requires SignInOn(s, Success(db), email, account, insertFails).0 == Allow
    ensures var t := SignInOn(s, Success(db), email, account, insertFails).1;
            SignInOn(t, Success(db), email, account, insertFailsAgain) == (Allow, t)
  {
    var r := SignInOn(s, Success(db), email, account, insertFails);
    if MayLink(email, account) {
      var d, d1 := Db(s, db), Db(r.1, db);
      assert d1.users == d.users;
      assert d1.accounts == d.accounts || r.1 != s;
    }
  }

  // ------------------------------------------------------------ jwt and session

  /** The `user` argument of `jwt`, present on the sign-in request only. */
  datatype JwtUser = JwtUser(id: string, role: Option<string>)

  /** The `jwt` callback: copies the user's role and id into the token when a user is given. */
  method Jwt(token: Token, user: Option<JwtUser>)
    modifies token
    ensures user.Some? ==> token.role == user.value.role && token.sub == Some(user.value.id)
    ensures user.None? ==> token.role == old(token.role) && token.sub == old(token.sub)
    ensures token.name == old(token.name) && token.email == old(token.email)
  {
    if user.Some? {
      token.role := user.value.role;
      token.sub := Some(user.value.id);
    }
  }

  /** The `session` callback: copies the token's role and subject onto `session.user` when there is one. */
  method SessionCallback(session: Session, token: Token)
    modifies if session.user != null then {session.user} else {}
    ensures session.user == old(session.user)
    ensures session.user != null ==>
              && session.user.role == token.role && session.user.id == token.sub
              && session.user.name == old(session.user.name) && session.user.email == old(session.user.email)
  {
    if session.user != null {
      session.user.role := token.role;
      session.user.id := token.sub;
    }
  }
}
