/** The claims of a Keycloak access token that the server and the UI read. */
module Claims {
  import opened Wrappers

  /** A `roles` claim: missing, a JSON array of role names, or a single JSON string. */
  datatype RolesClaim = RolesAbsent | RolesList(items: seq<string>) | RolesScalar(text: string)

  /** The `realm_access` claim: missing, a JSON object (with its `roles` entry), or a value of another JSON type. */
  datatype RealmAccessClaim = RealmAccessAbsent | RealmAccessObject(roles: RolesClaim) | RealmAccessMalformed

  datatype Jwt = Jwt(
    sub: Option<string>,
    preferredUsername: Option<string>,
    realmAccess: RealmAccessClaim,
    roles: RolesClaim)

  /** The realm role that grants the audit-log administrator view. */
  const ADMIN_ROLE: string := "airflow-admin"

  /** The token carries a `realm_access` object whose `roles` entry is an array. */
  predicate HasRealmRoleList(jwt: Jwt)
  {
    jwt.realmAccess.RealmAccessObject? && jwt.realmAccess.roles.RolesList?
  }
}
