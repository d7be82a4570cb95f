/**
 * `KeycloakService`: the password and refresh-token grants sent to the
 * realm's token endpoint, and how a failed grant becomes an
 * `AuthenticationException` whose message is read out of Keycloak's JSON
 * error body.
 */
module KeycloakService {
  import opened Wrappers
  import opened Text
  import opened Exceptions
  import opened Upstream
  import opened Forms
  import opened KeycloakTokens
  import GlobalExceptionHandler

  const TOKEN_PATH_HEAD := "/realms/"
  const TOKEN_PATH_TAIL := "/protocol/openid-connect/token"

  /** `String.format(TOKEN_ENDPOINT_PATH, realm)`. */
  function TokenUri(realm: string): string
  {
    TOKEN_PATH_HEAD + realm + TOKEN_PATH_TAIL
  }

  /** The realm named by a token endpoint path. */
  function RealmOf(uri: string): Option<string>
  {
    if |TOKEN_PATH_HEAD| + |TOKEN_PATH_TAIL| <= |uri| && uri[..|TOKEN_PATH_HEAD|] == TOKEN_PATH_HEAD
       && uri[|uri| - |TOKEN_PATH_TAIL|..] == TOKEN_PATH_TAIL
    then Some(uri[|TOKEN_PATH_HEAD|..|uri| - |TOKEN_PATH_TAIL|])
    else None
  }

  /** The endpoint path names exactly the configured realm, so distinct realms never share an endpoint. */
  lemma TokenUriNamesRealm(realm: string)
    ensures RealmOf(TokenUri(realm)) == Some(realm)
  {
    var uri := TokenUri(realm);
    assert uri[..|TOKEN_PATH_HEAD|] == TOKEN_PATH_HEAD;
    assert uri[|uri| - |TOKEN_PATH_TAIL|..] == TOKEN_PATH_TAIL;
    assert uri[|TOKEN_PATH_HEAD|..|uri| - |TOKEN_PATH_TAIL|] == realm;
  }

  // Reading Keycloak's error body

  const DESCRIPTION_KEY := "error_description"

  /** `indexOf("error_description") + "error_description".length() + 3`: skips the key and its `":"`. */
  function DescriptionStart(body: string): int
  {
    IndexOf(body, DESCRIPTION_KEY, 0) + |DESCRIPTION_KEY| + 3
  }

  /**
   * The `error_description` value as `requestToken` cuts it out: from the
   * start index up to the next double quote, kept only when that leaves at
   * least one character.
   */
  function Description(body: string): (d: Option<string>)
    ensures d.Some? ==> Contains(body, DESCRIPTION_KEY)
    ensures d.Some? ==>
      var start := DescriptionStart(body);
      0 < start && start + |d.value| < |body| && body[start..start + |d.value|] == d.value
      && body[start + |d.value|] == '"' && d.value != ""
      && forall i :: 0 <= i < |d.value| ==> d.value[i] != '"'
  {
    if !Contains(body, DESCRIPTION_KEY) then None
    else
      var start := DescriptionStart(body);
      var end := IndexOf(body, "\"", start);
      if start > 0 && end > start then
        var d := body[start..end];
        assert forall i :: 0 <= i < |d| ==> d[i] != '"' by {
          forall i | 0 <= i < |d| ensures d[i] != '"' {
            assert !OccursAt(body, "\"", start + i);
          }
        }
        Some(d)
      else None
  }

  /** The first `error_description` in a body is the quoted key that follows a prefix without one. */
  lemma KeyFoundAfter(pre: string, rest: string)
    requires !Contains(pre, DESCRIPTION_KEY)
    ensures IndexOf(pre + "\"" + DESCRIPTION_KEY + rest, DESCRIPTION_KEY, 0) == |pre| + 1
  {
    var body := pre + "\"" + DESCRIPTION_KEY + rest;
    var k := |pre| + 1;
    assert OccursAt(body, DESCRIPTION_KEY, k);
    forall i | 0 <= i < k ensures !OccursAt(body, DESCRIPTION_KEY, i) {
      if i + |DESCRIPTION_KEY| <= |pre| {
        assert body[i..i + |DESCRIPTION_KEY|] == pre[i..i + |DESCRIPTION_KEY|];
        assert !OccursAt(pre, DESCRIPTION_KEY, i);
      } else {
        assert body[|pre|] == '"';
        assert body[i..i + |DESCRIPTION_KEY|][|pre| - i] == body[|pre|];
      }
    }
  }

  /** A body carrying the description in compact JSON: `…"error_description":"d"…`. */
  function CompactBody(pre: string, d: string, post: string): string
  {
    pre + "\"" + DESCRIPTION_KEY + ("\":\"" + d + ("\"" + post))
  }

  /** The same body with a space after the colon: `…"error_description": "d"…`. */
  function SpacedBody(pre: string, d: string, post: string): string
  {
    pre + "\"" + DESCRIPTION_KEY + ("\": \"" + d + ("\"" + post))
  }

  /** The description is cut out correctly from a compact JSON body such as Keycloak emits. */
  lemma DescriptionOfCompactBody(pre: string, d: string, post: string)
    requires !Contains(pre, DESCRIPTION_KEY)
    requires d != [] && forall i :: 0 <= i < |d| ==> d[i] != '"'
    ensures Description(CompactBody(pre, d, post)) == Some(d)
  {
    var head := pre + "\"" + DESCRIPTION_KEY;
    var tail := "\":\"" + d + ("\"" + post);
    var body := head + tail;
    assert body == CompactBody(pre, d, post);
    KeyFoundAfter(pre, tail);
    assert Contains(body, DESCRIPTION_KEY);
    var start := |head| + 3;
    SliceOfAppend(head, tail, start, start + |d|);
    assert tail[3..3 + |d|] == d;
    assert body[start + |d|] == tail[3 + |d|];
    DescriptionAt(body, start, d);
  }

  /** Where the key is found, and an unquoted non-empty run followed by a quote starts after it, that run is the description. */
  lemma DescriptionAt(body: string, start: nat, d: string)
    requires Contains(body, DESCRIPTION_KEY) && IndexOf(body, DESCRIPTION_KEY, 0) + |DESCRIPTION_KEY| + 3 == start
    requires 0 < start && start + |d| < |body| && body[start..start + |d|] == d && body[start + |d|] == '"'
    requires d != [] && forall i :: 0 <= i < |d| ==> d[i] != '"'
    ensures Description(body) == Some(d)
  {
    NextQuote(body, start, d);
  }

  /** A slice that lies inside the second part of a concatenation is a slice of that part. */
  lemma SliceOfAppend(a: string, b: string, i: int, j: int)
    requires |a| <= i <= j <= |a| + |b|
    ensures (a + b)[i..j] == b[i - |a|..j - |a|]
  {
  }

  /** The next double quote after an unquoted run of text is the one that closes it. */
  lemma NextQuote(body: string, start: nat, d: string)
    requires start + |d| < |body| && body[start..start + |d|] == d && body[start + |d|] == '"'
    requires forall i :: 0 <= i < |d| ==> d[i] != '"'
    ensures IndexOf(body, "\"", start) == start + |d|
  {
    forall j | start <= j < start + |d| ensures !OccursAt(body, "\"", j) {
      assert body[j] == d[j - start];
      assert body[j..j + 1] == [body[j]];
    }
    assert body[start + |d|..start + |d| + 1] == "\"";
    assert OccursAt(body, "\"", start + |d|);
  }

  /** A space after the colon puts the start on the value's opening quote, and the description is not read. */
  lemma DescriptionMissedAfterSpace(pre: string, d: string, post: string)
    requires !Contains(pre, DESCRIPTION_KEY)
    ensures Description(SpacedBody(pre, d, post)) == None
  {
    var head := pre + "\"" + DESCRIPTION_KEY;
    var tail := "\": \"" + d + ("\"" + post);
    var body := head + tail;
    KeyFoundAfter(pre, tail);
    var start := |head| + 3;
    assert body[start] == tail[3] == '"';
    assert OccursAt(body, "\"", start);
  }

  const INVALID_CREDENTIALS_MESSAGE := "Invalid username or password"
  const INVALID_CLIENT_MESSAGE := "Authentication system error: Invalid client"

  /** The friendlier wording of two known descriptions; any other description is used as it is. */
  function FriendlyMessage(description: string): (m: string)
    ensures Contains(description, "Invalid user credentials") ==> m == INVALID_CREDENTIALS_MESSAGE
    ensures !Contains(description, "Invalid user credentials") && Contains(description, "Invalid client") ==>
      m == INVALID_CLIENT_MESSAGE
    ensures !Contains(description, "Invalid user credentials") && !Contains(description, "Invalid client") ==>
      m == description
  {
    if Contains(description, "Invalid user credentials") then INVALID_CREDENTIALS_MESSAGE
    else if Contains(description, "Invalid client") then INVALID_CLIENT_MESSAGE
    else description
  }

  /** `HttpStatusCode.toString()`: the code, then the reason name for the statuses Spring names. */
  function StatusText(status: int): string
  {
    var name :=
      if status == 400 then " BAD_REQUEST"
      else if status == 401 then " UNAUTHORIZED"
      else if status == 403 then " FORBIDDEN"
      else if status == 404 then " NOT_FOUND"
      else if status == 405 then " METHOD_NOT_ALLOWED"
      else if status == 409 then " CONFLICT"
      else if status == 415 then " UNSUPPORTED_MEDIA_TYPE"
      else if status == 429 then " TOO_MANY_REQUESTS"
      else if status == 500 then " INTERNAL_SERVER_ERROR"
      else if status == 502 then " BAD_GATEWAY"
      else if status == 503 then " SERVICE_UNAVAILABLE"
      else if status == 504 then " GATEWAY_TIMEOUT"
      else "";
    ShowInt(status) + name
  }

  /** The message of the `AuthenticationException` for an error reply. */
  function ErrorMessage(operation: string, status: int, body: string): (m: string)
    ensures Description(body).None? ==> m == operation + " failed: " + StatusText(status)
    ensures Description(body).Some? ==> m == FriendlyMessage(Description(body).value)
  {
    match Description(body)
    case None => operation + " failed: " + StatusText(status)
    case Some(d) => FriendlyMessage(d)
  }

  /** `HttpStatusCode::isError`. */
  predicate IsErrorStatus(status: int)
  {
    400 <= status < 600
  }

  /**
   * `requestToken` for one reply: a token is converted; an error status
   * becomes an `AuthenticationException`; a failed exchange is passed on.
   */
  function RequestToken(operation: string, reply: Reply<KeycloakTokenResponse>): (r: Result<TokenResponse, AppException>)
    ensures r.Ok? <==> reply.Success?
    ensures reply.Success? ==> r.value == ConvertToTokenResponse(reply.value)
    ensures reply.HttpError? && IsErrorStatus(reply.status) ==>
      r == Err(Authentication(ErrorMessage(operation, reply.status, reply.body), None))
    ensures reply.TransportError? ==> r == Err(Outcome(reply, None, None).error)
  {
    match reply
    case Success(k) => Ok(ConvertToTokenResponse(k))
    case HttpError(status, body) =>
      if IsErrorStatus(status) then Err(Authentication(ErrorMessage(operation, status, body), None))
      else Err(Outcome(reply, None, None).error)
    case TransportError(_) => Err(Outcome(reply, None, None).error)
  }

  /** Every refused grant reaches the client as a 401 "Authentication Error" carrying the computed message. */
  lemma RefusedGrantIs401(operation: string, reply: Reply<KeycloakTokenResponse>)
    requires reply.HttpError? && IsErrorStatus(reply.status)
    ensures GlobalExceptionHandler.Handle(RequestToken(operation, reply).error).body ==
      GlobalExceptionHandler.ErrorResponse(401, Some("Authentication Error"), ErrorMessage(operation, reply.status, reply.body))
  {
    GlobalExceptionHandler.HandlerTable(RequestToken(operation, reply).error);
  }

  /** Keycloak's answer to a wrong password becomes the friendly credentials message. */
  lemma WrongPasswordMessage(operation: string, status: int, pre: string, post: string)
    requires !Contains(pre, DESCRIPTION_KEY)
    ensures ErrorMessage(operation, status, CompactBody(pre, "Invalid user credentials", post)) == INVALID_CREDENTIALS_MESSAGE
  {
    var d := "Invalid user credentials";
    DescriptionOfCompactBody(pre, d, post);
    ContainsInfix("", d, "");
    assert "" + d + "" == d;
  }

  // The grants

  function LoginFields(clientId: string, clientSecret: string, username: string, password: string): seq<Field>
  {
    [("grant_type", "password"), ("client_id", clientId), ("client_secret", clientSecret),
     ("username", username), ("password", password)]
  }

  function RefreshFields(clientId: string, clientSecret: string, refreshToken: string): seq<Field>
  {
    [("grant_type", "refresh_token"), ("client_id", clientId), ("client_secret", clientSecret),
     ("refresh_token", refreshToken)]
  }

  /** The login form carries each of its five parameters exactly once. */
  lemma LoginFieldsSent(clientId: string, clientSecret: string, username: string, password: string)
    ensures var f := LoginFields(clientId, clientSecret, username, password);
      Keys(f) == ["grant_type", "client_id", "client_secret", "username", "password"]
      && Values(f, "grant_type") == ["password"] && Values(f, "client_id") == [clientId]
      && Values(f, "client_secret") == [clientSecret] && Values(f, "username") == [username]
      && Values(f, "password") == [password] && Values(f, "refresh_token") == []
  {
    var f := LoginFields(clientId, clientSecret, username, password);
    SingleValue(f, 0);
    SingleValue(f, 1);
    SingleValue(f, 2);
    SingleValue(f, 3);
    SingleValue(f, 4);
    NoValues(f, "refresh_token");
  }

  /** The refresh form carries each of its four parameters exactly once, and no credentials. */
  lemma RefreshFieldsSent(clientId: string, clientSecret: string, refreshToken: string)
    ensures var f := RefreshFields(clientId, clientSecret, refreshToken);
      Keys(f) == ["grant_type", "client_id", "client_secret", "refresh_token"]
      && Values(f, "grant_type") == ["refresh_token"] && Values(f, "client_id") == [clientId]
      && Values(f, "client_secret") == [clientSecret] && Values(f, "refresh_token") == [refreshToken]
      && Values(f, "username") == [] && Values(f, "password") == []
  {
    var f := RefreshFields(clientId, clientSecret, refreshToken);
    SingleValue(f, 0);
    SingleValue(f, 1);
    SingleValue(f, 2);
    SingleValue(f, 3);
    NoValues(f, "username");
    NoValues(f, "password");
  }

  /** The form posted, the path it is posted to, and what the caller receives. */
  class KeycloakService {
    const realm: string
    const clientId: string
    const clientSecret: string

    constructor (realm: string, clientId: string, clientSecret: string)
      ensures this.realm == realm && this.clientId == clientId && this.clientSecret == clientSecret
    {
      this.realm := realm;
      this.clientId := clientId;
      this.clientSecret := clientSecret;
    }

    /** `login`: the password grant. */
    method Login(username: string, password: string, reply: Reply<KeycloakTokenResponse>)
      returns (uri: string, form: FormData, r: Result<TokenResponse, AppException>)
      ensures fresh(form)
      ensures form.entries == LoginFields(clientId, clientSecret, username, password)
      ensures RealmOf(uri) == Some(realm)
      ensures r == RequestToken("login", reply)
    {
      form := new FormData();
      form.Add("grant_type", "password");
      form.Add("client_id", clientId);
      form.Add("client_secret", clientSecret);
      form.Add("username", username);
      form.Add("password", password);
      uri := TokenUri(realm);
      TokenUriNamesRealm(realm);
      r := RequestToken("login", reply);
    }

    /** `refreshToken`: the refresh-token grant. */
    method RefreshToken(refreshToken: string, reply: Reply<KeycloakTokenResponse>)
      returns (uri: string, form: FormData, r: Result<TokenResponse, AppException>)
      ensures fresh(form)
      ensures form.entries == RefreshFields(clientId, clientSecret, refreshToken)
      ensures RealmOf(uri) == Some(realm)
      ensures r == RequestToken("token refresh", reply)
    {
      form := new FormData();
      form.Add("grant_type", "refresh_token");
      form.Add("client_id", clientId);
      form.Add("client_secret", clientSecret);
      form.Add("refresh_token", refreshToken);
      uri := TokenUri(realm);
      TokenUriNamesRealm(realm);
      r := RequestToken("token refresh", reply);
    }
  }
}
