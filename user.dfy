/** A row of the `users` table: a Keycloak user copied into the local database. */
module UserEntity {
  import opened Wrappers

  datatype User = User(
    id: Option<string>,
    createdTimestamp: int,
    username: Option<string>,
    enabled: Option<bool>,
    totp: Option<bool>,
    emailVerified: Option<bool>,
    firstName: Option<string>,
    lastName: Option<string>,
    email: Option<string>)
}
