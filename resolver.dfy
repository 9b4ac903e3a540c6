/**
 * The database-name choice of `getDb`: the admin database unless the signed-in
 * user's tenant database (prefix + hex FNV-1a of the id) appears in the
 * cluster's listing; a throw when the final name is empty or undefined.
 */
module Resolver {
  import opened Wrappers
  import opened TenantNames
  import opened Documents

  /**
   * The final value of `dbName`.  `userId` is the truthy `session.user.id`
   * (None without one); `listing` is None when `mongoose.connection.db` is
   * unavailable, otherwise the names `listDatabases` reports.
   */
  function SelectDbName(userId: Option<string>, listing: Option<set<string>>,
                        adminDbName: Option<string>, dbPrefix: Option<string>): (name: Option<string>)
    ensures userId.None? || listing.None? ==> name == adminDbName
    ensures userId.Some? && listing.Some? && TenantDbName(dbPrefix, userId.value) in listing.value
            ==> name == Some(TenantDbName(dbPrefix, userId.value))
    ensures userId.Some? && listing.Some? && TenantDbName(dbPrefix, userId.value) !in listing.value
            ==> name == adminDbName
    ensures name == adminDbName || (listing.Some? && name.Some? && name.value in listing.value)
  {
    match (userId, listing)
    case (Some(id), Some(names)) =>
      var target := TenantDbName(dbPrefix, id);
      if target in names then Some(target) else adminDbName
    case _ => adminDbName
  }

  /** True when the signed-in user's tenant database is listed. */
  predicate TenantListed(userId: Option<string>, listing: Option<set<string>>, dbPrefix: Option<string>) {
    userId.Some? && listing.Some? && TenantDbName(dbPrefix, userId.value) in listing.value
  }

  /** `getDb`'s outcome: the database it hands to `useDb`, or the 'dbName is undefined' throw. */
  function ResolveDbName(userId: Option<string>, listing: Option<set<string>>,
                         adminDbName: Option<string>, dbPrefix: Option<string>): (r: Result<string, Exception>)
    ensures r.Failure? <==> !Truthy(adminDbName) && !TenantListed(userId, listing, dbPrefix)
    ensures r.Failure? ==> r.error == DbNameUndefined
    ensures r.Success? ==> (adminDbName == Some(r.value) && r.value != "")
                           || (listing.Some? && r.value in listing.value)
    ensures TenantListed(userId, listing, dbPrefix) ==> r == Success(TenantDbName(dbPrefix, userId.value))
    ensures !TenantListed(userId, listing, dbPrefix) && Truthy(adminDbName) ==> r == Success(adminDbName.value)
  {
    var name := SelectDbName(userId, listing, adminDbName, dbPrefix);
    if Truthy(name) then Success(name.value) else Failure(DbNameUndefined)
  }
}
