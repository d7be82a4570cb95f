/**
 * Turning a validated token into Spring Security authorities: the role
 * list comes from `realm_access.roles` when that entry exists, otherwise
 * from the top-level `roles` claim, and each role `r` becomes `ROLE_r`.
 */
module JwtAuthConverter {
  import opened Wrappers
  import opened Claims

  const ROLE_PREFIX: string := "ROLE_"

  /**
   * `getClaimAsStringList("roles")`: an array is taken as is, a single
   * string becomes a one-element list, a missing claim gives the empty list.
   */
  function DirectRoles(c: RolesClaim): (r: seq<string>)
    ensures c.RolesAbsent? ==> r == []
    ensures c.RolesList? ==> r == c.items
    ensures c.RolesScalar? ==> r == [c.text]
  {
    match c
    case RolesAbsent => []
    case RolesList(items) => items
    case RolesScalar(text) => [text]
  }

  /**
   * `extractRoles`. A `realm_access.roles` entry that is not an array makes
   * the cast fail inside the `try`, which falls through to the top-level claim.
   */
  function ExtractRoles(jwt: Jwt): (roles: seq<string>)
  {
    if HasRealmRoleList(jwt) then jwt.realmAccess.roles.items else DirectRoles(jwt.roles)
  }

  /** `extractAuthorities`: one authority per role, in order, no role filtered out. */
  function ExtractAuthorities(jwt: Jwt): (authorities: seq<string>)
    ensures |authorities| == |ExtractRoles(jwt)|
    ensures forall i :: 0 <= i < |authorities| ==> authorities[i] == ROLE_PREFIX + ExtractRoles(jwt)[i]
  {
    var roles := ExtractRoles(jwt);
    seq(|roles|, i requires 0 <= i < |roles| => ROLE_PREFIX + roles[i])
  }

  /** The role an authority was made from. */
  function RoleOf(authority: string): string
  {
    if |authority| >= |ROLE_PREFIX| && authority[..|ROLE_PREFIX|] == ROLE_PREFIX then authority[|ROLE_PREFIX|..] else authority
  }

  /** Stripping the prefix from every authority gives back the role list exactly. */
  lemma AuthoritiesRoundTrip(jwt: Jwt)
    ensures forall i :: 0 <= i < |ExtractAuthorities(jwt)| ==> RoleOf(ExtractAuthorities(jwt)[i]) == ExtractRoles(jwt)[i]
  {
    var roles := ExtractRoles(jwt);
    var auth := ExtractAuthorities(jwt);
    forall i | 0 <= i < |auth|
      ensures RoleOf(auth[i]) == roles[i]
    {
      assert auth[i] == ROLE_PREFIX + roles[i];
      assert auth[i][..|ROLE_PREFIX|] == ROLE_PREFIX;
      assert auth[i][|ROLE_PREFIX|..] == roles[i];
    }
  }

  /** With a `realm_access.roles` array present, the top-level claim is ignored: the two are not merged. */
  lemma RealmRolesTakePriority(jwt: Jwt, role: string)
    requires HasRealmRoleList(jwt)
    ensures ExtractRoles(jwt) == jwt.realmAccess.roles.items
    ensures role in DirectRoles(jwt.roles) && role !in jwt.realmAccess.roles.items ==> role !in ExtractRoles(jwt)
  {
  }

  /** Without a usable `realm_access.roles` array the top-level claim decides. */
  lemma FallbackToDirectRoles(jwt: Jwt)
    requires jwt.realmAccess.RealmAccessAbsent? || jwt.realmAccess.RealmAccessMalformed?
      || (jwt.realmAccess.RealmAccessObject? && !jwt.realmAccess.roles.RolesList?)
    ensures ExtractRoles(jwt) == DirectRoles(jwt.roles)
  {
  }

  /** A token with neither claim gets no authorities. */
  lemma NoClaimsNoAuthorities(jwt: Jwt)
    requires !HasRealmRoleList(jwt) && jwt.roles.RolesAbsent?
    ensures ExtractAuthorities(jwt) == []
  {
  }
}
