/**
 * The NextAuth objects the core reads and the callbacks mutate in place: the
 * session with its `user`, and the JWT.
 */
module Sessions {
  import opened Wrappers

  /** `session.user`. */
  class SessionUser {
    var id: Option<string>
    var name: Option<string>
    var email: Option<string>
    var role: Option<string>

    constructor (id: Option<string>, name: Option<string>, email: Option<string>, role: Option<string>)
      ensures this.id == id && this.name == name && this.email == email && this.role == role
    {
      this.id, this.name, this.email, this.role := id, name, email, role;
    }
  }

  /** What `getServerSession` returns for a signed-in request. */
  class Session {
    var user: SessionUser?

    constructor (user: SessionUser?)
      ensures this.user == user
    {
      this.user := user;
    }
  }

  /** The JWT claims the callbacks read and write. */
  class Token {
    var sub: Option<string>
    var role: Option<string>
    var name: Option<string>
    var email: Option<string>

    constructor (sub: Option<string>, role: Option<string>, name: Option<string>, email: Option<string>)
      ensures this.sub == sub && this.role == role && this.name == name && this.email == email
    {
      this.sub, this.role, this.name, this.email := sub, role, name, email;
    }
  }

  /** `session && session.user && session.user.id`: the user id when all three are truthy. */
  function AuthenticatedUserId(session: Session?): (r: Option<string>)
    reads session, if session != null && session.user != null then {session.user} else {}
    ensures r.Some? <==> session != null && session.user != null && Truthy(session.user.id)
    ensures r.Some? ==> r == session.user.id
  {
    if session != null && session.user != null && Truthy(session.user.id) then session.user.id else None
  }

  /** `session.user` can be dereferenced: there is a session and it has a user. */
  predicate HasUser(session: Session?)
    reads session
  {
    session != null && session.user != null
  }

  /** `session.user.id` can be read and is set: what `fnv1a32(session.user.id)` needs in order not to throw. */
  predicate HasUserIdSet(session: Session?)
    reads session, if session != null && session.user != null then {session.user} else {}
  {
    HasUser(session) && session.user.id.Some?
  }
}
