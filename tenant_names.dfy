/**
 * Tenant database names: the configured prefix followed by the unpadded
 * lower-case hexadecimal rendering of the 32-bit FNV-1a hash of the user id,
 * as the template literal `${prefix}${fnv1a32(userId).toString(16)}` builds it.
 */
module TenantNames {
  import opened Wrappers
  import opened Radix
  import opened Fnv

  /** How a template literal renders an environment variable: an unset one becomes the text "undefined". */
  function PrefixText(prefix: Option<string>): string {
    match prefix
    case None => "undefined"
    case Some(p) => p
  }

  /** The name of the tenant database for a user id. */
  function TenantDbName(prefix: Option<string>, userId: string): (name: string)
    ensures PrefixText(prefix) <= name
    ensures 1 <= |name| - |PrefixText(prefix)| <= 8
    ensures IsCanonical(name[|PrefixText(prefix)|..], 16)
  {
    var suffix := Hex(HashString(userId));
    HexLength(HashString(userId), 8);
    assert Pow16(8) == 0x1_0000_0000;
    assert (PrefixText(prefix) + suffix)[|PrefixText(prefix)|..] == suffix;
    PrefixText(prefix) + suffix
  }

  /** Recovers the hash from a tenant database name, if the name has the given prefix and a canonical hexadecimal suffix. */
  function ParseTenantDbName(prefix: Option<string>, name: string): (h: Option<nat>)
    ensures h.Some? <==> PrefixText(prefix) <= name && IsCanonical(name[|PrefixText(prefix)|..], 16)
    ensures h.Some? ==> name == PrefixText(prefix) + Hex(h.value)
  {
    var p := PrefixText(prefix);
    if p <= name then
      var r := Parse(name[|p|..], 16);
      if r.Some? then
        ParseIsInverse(name[|p|..], r.value, 16);
        assert name == p + name[|p|..];
        r
      else r
    else None
  }

  /** The suffix of a tenant name reads back as the user's hash: the name determines the hash. */
  lemma TenantDbNameRoundTrip(prefix: Option<string>, userId: string)
    ensures ParseTenantDbName(prefix, TenantDbName(prefix, userId)) == Some(HashString(userId))
  {
    var p := PrefixText(prefix);
    var name := TenantDbName(prefix, userId);
    assert name[|p|..] == Hex(HashString(userId));
    ParseToBase(HashString(userId), 16);
  }

  /** With one prefix, two users share a tenant name exactly when their ids hash alike. */
  lemma TenantDbNameCollision(prefix: Option<string>, a: string, b: string)
    ensures TenantDbName(prefix, a) == TenantDbName(prefix, b) <==> HashString(a) == HashString(b)
  {
    if TenantDbName(prefix, a) == TenantDbName(prefix, b) {
      TenantDbNameRoundTrip(prefix, a);
      TenantDbNameRoundTrip(prefix, b);
    }
  }

  /** Names derived under two prefixes whose texts differ never coincide for the same user. */
  lemma {:induction false} PrefixesSeparateNames(p: Option<string>, q: Option<string>, userId: string)
    requires PrefixText(p) != PrefixText(q)
    ensures TenantDbName(p, userId) != TenantDbName(q, userId)
  {
  }
}
