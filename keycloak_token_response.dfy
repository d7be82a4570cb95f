/**
 * The token answer Keycloak sends, the token answer the proxy returns to
 * its clients, and the redacting `toString` used when the former is logged.
 */
module KeycloakTokens {
  import opened Wrappers
  import opened Text

  /** Keycloak's token endpoint reply (`access_token`, `refresh_token`, `expires_in`, `token_type`, `scope`). */
  datatype KeycloakTokenResponse = KeycloakTokenResponse(
    accessToken: Option<string>,
    refreshToken: Option<string>,
    expiresIn: int,
    tokenType: Option<string>,
    scope: Option<string>)

  /** What the proxy's login and refresh endpoints answer. */
  datatype TokenResponse = TokenResponse(
    accessToken: Option<string>,
    refreshToken: Option<string>,
    expiresIn: int,
    tokenType: Option<string>)

  /** Java string concatenation of a possibly null `String`. */
  function Show(s: Option<string>): string
  {
    if s.Some? then s.value else "null"
  }

  const ACCESS_FIELD := "accessToken='[PROTECTED]'"
  const REFRESH_FIELD := "refreshToken='[PROTECTED]'"

  /** The fields shown with their values: token type, lifetime, scope. */
  function Head(t: KeycloakTokenResponse): string
  {
    "KeycloakTokenResponse{tokenType='" + Show(t.tokenType) + "', expiresIn=" + ShowInt(t.expiresIn)
    + ", scope='" + Show(t.scope) + "'"
  }

  /** The overridden `toString`: the shown fields, then both tokens as a fixed marker. */
  function ToString(t: KeycloakTokenResponse): string
  {
    Head(t) + ", " + ACCESS_FIELD + ", " + REFRESH_FIELD + "}"
  }

  /** Both token fields are always rendered as the marker. */
  lemma ToStringRedacts(t: KeycloakTokenResponse)
    ensures Contains(ToString(t), ACCESS_FIELD)
    ensures Contains(ToString(t), REFRESH_FIELD)
  {
    var withAccess := Head(t) + ", " + ACCESS_FIELD;
    ContainsEnd(Head(t) + ", ", ACCESS_FIELD);
    var withRefresh := withAccess + ", " + REFRESH_FIELD;
    ContainsExtend(withAccess, ", ", ACCESS_FIELD);
    ContainsExtend(withAccess + ", ", REFRESH_FIELD, ACCESS_FIELD);
    ContainsEnd(withAccess + ", ", REFRESH_FIELD);
    ContainsExtend(withRefresh, "}", ACCESS_FIELD);
    ContainsExtend(withRefresh, "}", REFRESH_FIELD);
    assert ToString(t) == withRefresh + "}";
  }

  /** The rendering does not depend on either token: two replies that differ only in their tokens log the same text. */
  lemma ToStringIgnoresTokens(t: KeycloakTokenResponse, accessToken: Option<string>, refreshToken: Option<string>)
    ensures ToString(t.(accessToken := accessToken, refreshToken := refreshToken)) == ToString(t)
  {
  }

  /** The rendering starts with the token type, the first field shown. */
  lemma ToStringLeadsWithTokenType(t: KeycloakTokenResponse)
    ensures var prefix := "KeycloakTokenResponse{tokenType='" + Show(t.tokenType) + "', expiresIn=";
      |prefix| <= |ToString(t)| && ToString(t)[..|prefix|] == prefix
  {
    var prefix := "KeycloakTokenResponse{tokenType='" + Show(t.tokenType) + "', expiresIn=";
    var s := prefix;
    ExtendKeepsPrefix(prefix, s, ShowInt(t.expiresIn));
    s := s + ShowInt(t.expiresIn);
    ExtendKeepsPrefix(prefix, s, ", scope='");
    s := s + ", scope='";
    ExtendKeepsPrefix(prefix, s, Show(t.scope));
    s := s + Show(t.scope);
    ExtendKeepsPrefix(prefix, s, "'");
    s := s + "'";
    assert s == Head(t);
    ExtendKeepsPrefix(prefix, s, ", ");
    s := s + ", ";
    ExtendKeepsPrefix(prefix, s, ACCESS_FIELD);
    s := s + ACCESS_FIELD;
    ExtendKeepsPrefix(prefix, s, ", ");
    s := s + ", ";
    ExtendKeepsPrefix(prefix, s, REFRESH_FIELD);
    s := s + REFRESH_FIELD;
    ExtendKeepsPrefix(prefix, s, "}");
    s := s + "}";
    assert s == ToString(t);
  }

  /** Appending text keeps a prefix. */
  lemma ExtendKeepsPrefix(p: string, x: string, y: string)
    requires |p| <= |x| && x[..|p|] == p
    ensures |p| <= |x + y| && (x + y)[..|p|] == p
  {
    assert (x + y)[..|p|] == x[..|p|];
  }

  /** `convertToTokenResponse`: tokens, lifetime and type are copied; the scope is dropped. */
  function ConvertToTokenResponse(k: KeycloakTokenResponse): (r: TokenResponse)
    ensures r.accessToken == k.accessToken && r.refreshToken == k.refreshToken
    ensures r.expiresIn == k.expiresIn && r.tokenType == k.tokenType
  {
    TokenResponse(k.accessToken, k.refreshToken, k.expiresIn, k.tokenType)
  }

  /** The scope never reaches the client. */
  lemma ConvertDropsScope(k: KeycloakTokenResponse, scope: Option<string>)
    ensures ConvertToTokenResponse(k.(scope := scope)) == ConvertToTokenResponse(k)
  {
  }

  /** Nothing else is lost: two replies that convert alike differ at most in their scope. */
  lemma ConvertKeepsTheRest(k1: KeycloakTokenResponse, k2: KeycloakTokenResponse)
    requires ConvertToTokenResponse(k1) == ConvertToTokenResponse(k2)
    ensures k1 == k2.(scope := k1.scope)
  {
  }
}
