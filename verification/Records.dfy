/** The records of the provider (records.go, client.go) and its configuration.

    Time is an integer count of nanoseconds; a zero time.Time is `None`. Strings
    are Go strings, one char per byte. A token value is represented by the hash
    it is stored under: SHA-256 is taken to be injective. */
module Records {
  import opened Basics

  type Time = int
  type Duration = int
  type Hash = string

  const SECOND: Duration := 1_000_000_000
  const MINUTE: Duration := 60 * SECOND

  datatype Json =
    | Null
    | Bool(b: bool)
    | Number(n: int)
    | Str(s: string)
    | List(items: seq<Json>)
    | Object(fields: map<string, Json>)

  datatype ClaimRequest = ClaimRequest(essential: bool, value: Json, values: seq<Json>)

  /** The claims parameter; a name mapped to None is requested in the default manner. */
  datatype ClaimsRequest = ClaimsRequest(
    userInfo: map<string, Option<ClaimRequest>>,
    idToken: map<string, Option<ClaimRequest>>)

  datatype Kind = AuthorizationCode | AccessToken | RefreshToken

  datatype Token = Token(
    hash: Hash,
    kind: Kind,
    grantID: string,
    issuer: string,
    clientID: string,
    subject: string,
    scopes: seq<string>,
    authTime: Option<Time>,
    acr: string,
    amr: seq<string>,
    claims: Option<ClaimsRequest>,
    audience: seq<string>,
    accessTokenClaims: map<string, Json>,
    redirectURI: string,
    redirectURIInRequest: bool,
    nonce: string,
    codeChallenge: string,
    codeChallengeMethod: string,
    createdAt: Time,
    expiresAt: Time,
    consumedAt: Option<Time>)
  {
    predicate SingleUse() { kind != AccessToken }

    predicate Unexpired(now: Time) { now < expiresAt }
  }

  /** What the garbage collector of the memory store may drop. */
  predicate Collectable(now: Time, expiresAt: Time) { now > expiresAt }

  datatype AuthorizationRequest = AuthorizationRequest(
    id: string,
    issuer: string,
    clientID: string,
    redirectURI: string,
    redirectURIInRequest: bool,
    responseType: string,
    responseMode: string,
    state: string,
    scopes: seq<string>,
    codeChallenge: string,
    codeChallengeMethod: string,
    nonce: string,
    prompt: seq<string>,
    maxAge: Option<Duration>,
    requestedSubject: string,
    claims: Option<ClaimsRequest>,
    audience: seq<string>,
    pushed: bool,
    extra: map<string, string>,
    bindingHash: string,
    // Unexported fields: an application can neither set nor store them.
    parsed: bool,
    pushedBy: string,
    redeemed: bool,
    createdAt: Time,
    expiresAt: Time)
  {
    predicate IsOpenID() { "openid" in scopes }
  }

  datatype PKCEPolicy = Unset | Required | UnlessNonce | Optional

  datatype PARPolicy = Disabled | Allowed | Mandatory

  const AUTH_NONE := "none"
  const GRANT_CODE := "authorization_code"
  const GRANT_REFRESH := "refresh_token"
  const FORMAT_OPAQUE := "opaque"
  const FORMAT_JWT := "jwt"

  datatype Client = Client(
    id: string,
    authMethod: string,
    hasSecret: bool,
    hasJWKS: bool,
    redirectURIs: seq<string>,
    grantTypes: seq<string>,
    scopes: seq<string>,
    pkce: PKCEPolicy,
    requirePushedRequests: bool,
    accessTokenFormat: string,
    audience: seq<string>,
    accessTokenLifetime: Duration,
    refreshTokenLifetime: Duration,
    idTokenLifetime: Duration)
  {
    function AuthMethod(): string {
      if authMethod != "" then authMethod
      else if hasSecret then "client_secret_basic"
      else if hasJWKS then "private_key_jwt"
      else AUTH_NONE
    }

    predicate IsPublic() { AuthMethod() == AUTH_NONE }

    function PkcePolicy(): PKCEPolicy {
      if pkce == Unset || IsPublic() then Required else pkce
    }

    predicate AllowsGrant(g: string) {
      if grantTypes == [] then g == GRANT_CODE else g in grantTypes
    }
  }

  datatype Lifetimes = Lifetimes(
    authorizationCode: Duration,
    accessToken: Duration,
    refreshToken: Duration,
    idToken: Duration,
    authorizationRequest: Duration,
    pushedRequest: Duration)

  /** Provider configuration. URL parsing and SHA-256 are parameters: `isHTTPURL`
      and `loopbackMatch` stand for the functions of the same name, `s256` for
      the base64url-encoded SHA-256 of a code verifier. */
  datatype Config = Config(
    accessTokenFormat: string,
    customFormats: set<string>,
    lifetimes: Lifetimes,
    par: PARPolicy,
    scopeClaims: map<string, seq<string>>,
    isHTTPURL: string -> bool,
    loopbackMatch: (string, string) -> bool,
    s256: string -> string)
  {
    predicate KnownFormat(f: string) {
      f == FORMAT_OPAQUE || f == FORMAT_JWT || f in customFormats
    }

    predicate ParRequired(client: Client) {
      par == Mandatory || client.requirePushedRequests
    }

    /** What New checks, after defaulting. */
    ghost predicate Valid() {
      && KnownFormat(accessTokenFormat)
      && accessTokenFormat != ""
      && lifetimes.authorizationCode > 0
      && lifetimes.accessToken >= SECOND
      && lifetimes.refreshToken >= SECOND
      && lifetimes.idToken >= SECOND
      && lifetimes.authorizationRequest > 0
      && lifetimes.pushedRequest >= SECOND
    }

    predicate ValidLifetime(d: Duration) { d >= SECOND }

    /** What the provider checks of every registration a lookup returns, as far
        as this model depends on it. */
    predicate Registered(client: Client, id: string) {
      && client.id == id != ""
      && (client.accessTokenLifetime != 0 ==> ValidLifetime(client.accessTokenLifetime))
      && (client.refreshTokenLifetime != 0 ==> ValidLifetime(client.refreshTokenLifetime))
      && (client.idTokenLifetime != 0 ==> ValidLifetime(client.idTokenLifetime))
      && (client.accessTokenFormat == FORMAT_JWT ==> client.audience != [])
      && (client.pkce in {UnlessNonce, Optional} ==> !client.IsPublic())
      && (client.requirePushedRequests ==> par != Disabled)
      && (client.accessTokenFormat != "" ==> KnownFormat(client.accessTokenFormat))
    }
  }

  predicate MatchRedirectURI(cfg: Config, client: Client, requested: string) {
    exists registered :: registered in client.redirectURIs
      && (requested == registered || cfg.loopbackMatch(registered, requested))
  }

  datatype Error =
    | InvalidRequest
    | InvalidGrant
    | InvalidScope
    | InvalidTarget
    | UnauthorizedClient
    | UnsupportedResponseType
    | ServerError
    | Protocol(code: string)
}
