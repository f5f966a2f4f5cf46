/**
 * The claims of an authorisation request object and the arguments handed to
 * the JWT signer (`GenerateJwt`) in `BuildAuthorisationRequestJwt`.
 */
module AuthorisationClaims {
  import opened Wrappers
  import opened Http

  /** The nested `claims` object: the sharing duration and the arrangement to amend, both nullable. */
  datatype AuthorisationRequestClaims = AuthorisationRequestClaims(
    sharingDuration: Option<int>,
    cdrArrangementId: Option<string>)

  /** A value of the `Dictionary<string, object>` of claims: a string or the nested claims object. */
  datatype ClaimValue = Text(text: string) | Nested(claims: AuthorisationRequestClaims)

  /** What a caller puts into an authorisation request. */
  datatype AuthorisationRequest = AuthorisationRequest(
    clientId: string,
    redirectUri: string,
    scope: string,
    state: string,
    nonce: string,
    responseMode: string,
    sharingDuration: Option<int>,
    cdrArrangementId: Option<string>)

  /** The eight claim names of every authorisation request. */
  const ClaimNames: set<string> :=
    {"response_type", "client_id", "redirect_uri", "response_mode", "scope", "state", "nonce", "claims"}

  /** The claims dictionary for a request: `response_type` is always "code". */
  function ClaimsOf(request: AuthorisationRequest): (claims: map<string, ClaimValue>)
    ensures claims.Keys == ClaimNames
    ensures claims["response_type"] == Text("code")
  {
    map[
      "response_type" := Text("code"),
      "client_id" := Text(request.clientId),
      "redirect_uri" := Text(request.redirectUri),
      "response_mode" := Text(request.responseMode),
      "scope" := Text(request.scope),
      "state" := Text(request.state),
      "nonce" := Text(request.nonce),
      "claims" := Nested(AuthorisationRequestClaims(request.sharingDuration, request.cdrArrangementId))
    ]
  }

  /**
   * How an authorisation server reads a claims dictionary back: exactly the
   * eight names, `response_type` "code", strings everywhere but `claims`.
   */
  function ReadAuthorisationRequest(claims: map<string, ClaimValue>): Option<AuthorisationRequest> {
    if && claims.Keys == ClaimNames
       && claims["response_type"] == Text("code")
       && claims["client_id"].Text? && claims["redirect_uri"].Text?
       && claims["response_mode"].Text? && claims["scope"].Text?
       && claims["state"].Text? && claims["nonce"].Text?
       && claims["claims"].Nested?
    then
      Some(AuthorisationRequest(
        claims["client_id"].text, claims["redirect_uri"].text, claims["scope"].text,
        claims["state"].text, claims["nonce"].text, claims["response_mode"].text,
        claims["claims"].claims.sharingDuration, claims["claims"].claims.cdrArrangementId))
    else
      None
  }

  /** Reading a request's claims gives the request back: every argument is carried verbatim. */
  lemma ClaimsRoundTrip(request: AuthorisationRequest)
    ensures ReadAuthorisationRequest(ClaimsOf(request)) == Some(request)
  {
  }

  /** And the claims of a request are the only dictionary that reads as that request. */
  lemma ClaimsDetermined(claims: map<string, ClaimValue>, request: AuthorisationRequest)
    requires ReadAuthorisationRequest(claims) == Some(request)
    ensures claims == ClaimsOf(request)
  {
  }

  /** The arguments of one `GenerateJwt` call: the claims, the issuer, the audience and the signing certificate. */
  datatype JwtSigningRequest = JwtSigningRequest(
    claims: map<string, ClaimValue>,
    issuer: string,
    audience: string,
    signingCertificate: Certificate)

  /** The signer, taken as given (it also stamps the expiry and a unique id). */
  type JwtSigner = JwtSigningRequest -> string

  /**
   * What `BuildAuthorisationRequestJwt` asks the signer to sign: the claims
   * of the request (defaults: sharing duration 0, no arrangement id,
   * response mode "query"), issued by the client for the authorisation server.
   */
  function AuthorisationRequestSigning(
    infosecBaseUri: string,
    clientId: string,
    redirectUri: string,
    scope: string,
    state: string,
    nonce: string,
    signingCertificate: Certificate,
    sharingDuration: Option<int> := Some(0),
    cdrArrangementId: Option<string> := None,
    responseMode: string := "query"): (signing: JwtSigningRequest)
    ensures signing.issuer == clientId
    ensures signing.audience == infosecBaseUri
    ensures signing.signingCertificate == signingCertificate
    ensures ReadAuthorisationRequest(signing.claims) == Some(AuthorisationRequest(
      clientId, redirectUri, scope, state, nonce, responseMode, sharingDuration, cdrArrangementId))
  {
    var request := AuthorisationRequest(
      clientId, redirectUri, scope, state, nonce, responseMode, sharingDuration, cdrArrangementId);
    ClaimsRoundTrip(request);
    JwtSigningRequest(ClaimsOf(request), clientId, infosecBaseUri, signingCertificate)
  }

  /** `BuildAuthorisationRequestJwt`: the signer's answer to that request. */
  function BuildAuthorisationRequestJwt(
    sign: JwtSigner,
    infosecBaseUri: string,
    clientId: string,
    redirectUri: string,
    scope: string,
    state: string,
    nonce: string,
    signingCertificate: Certificate,
    sharingDuration: Option<int> := Some(0),
    cdrArrangementId: Option<string> := None,
    responseMode: string := "query"): (jwt: string)
  {
    sign(AuthorisationRequestSigning(
      infosecBaseUri, clientId, redirectUri, scope, state, nonce, signingCertificate,
      sharingDuration, cdrArrangementId, responseMode))
  }

  /**
   * The request object is pinned down by what the signer is promised: any
   * signing request with the client as issuer, the base URI as audience, the
   * given certificate and claims that read back as the arguments is the one
   * `BuildAuthorisationRequestJwt` signs.
   */
  lemma BuildAuthorisationRequestJwtSigns(
    sign: JwtSigner, s: JwtSigningRequest,
    infosecBaseUri: string, clientId: string, redirectUri: string, scope: string,
    state: string, nonce: string, signingCertificate: Certificate,
    sharingDuration: Option<int>, cdrArrangementId: Option<string>, responseMode: string)
    requires s.issuer == clientId && s.audience == infosecBaseUri
    requires s.signingCertificate == signingCertificate
    requires ReadAuthorisationRequest(s.claims) == Some(AuthorisationRequest(
      clientId, redirectUri, scope, state, nonce, responseMode, sharingDuration, cdrArrangementId))
    ensures BuildAuthorisationRequestJwt(
      sign, infosecBaseUri, clientId, redirectUri, scope, state, nonce, signingCertificate,
      sharingDuration, cdrArrangementId, responseMode) == sign(s)
  {
    ClaimsDetermined(s.claims, AuthorisationRequest(
      clientId, redirectUri, scope, state, nonce, responseMode, sharingDuration, cdrArrangementId));
  }

  /** The issuer of the request object is the client the claims name. */
  lemma IssuerIsClaimedClient(
    infosecBaseUri: string, clientId: string, redirectUri: string, scope: string,
    state: string, nonce: string, signingCertificate: Certificate,
    sharingDuration: Option<int>, cdrArrangementId: Option<string>, responseMode: string)
    ensures var signing := AuthorisationRequestSigning(
      infosecBaseUri, clientId, redirectUri, scope, state, nonce, signingCertificate,
      sharingDuration, cdrArrangementId, responseMode);
      signing.claims["client_id"] == Text(signing.issuer)
  {
  }
}
