/**
 * The operations of the data recipient's authorisation-server client. Each
 * builds the arguments of one foreign call (an HTTP GET, or a
 * private-key-JWT POST through `SendPrivateKeyJwtRequest`), makes it, and
 * maps the raw answer onto a fresh result object. The transports, the JWT
 * signer and the JSON parsers are parameters; the private-key-JWT methods
 * also return, as a ghost, the exact arguments they handed to the sender.
 */
module InfosecService {
  import opened Wrappers
  import opened Http
  import opened Forms
  import opened Responses
  import opened Discovery
  import opened AuthorisationClaims
  import opened AuthorisationUri
  import Models

  /** Fetch and parse the metadata document: status always copied, payload only on 2xx, never a message. */
  method GetOidcDiscovery(get: HttpGet, parse: string -> OidcDiscovery, infosecBaseUri: string)
    returns (r: PayloadResponse<OidcDiscovery>)
    ensures fresh(r)
    ensures r.CarriesDiscoveryOf(get(DiscoveryRequest(infosecBaseUri)), parse)
  {
    var configUrl := DiscoveryUrl(infosecBaseUri);
    var configResponse := get(GetRequest(AcceptAnyServerCertificate, configUrl));
    r := MapDiscoveryResponse(configResponse, parse);
  }

  /** The pushed authorisation request, over mutual TLS: form fields `request` and `response_type=code`. */
  method PushedAuthorisationRequest(
    send: PrivateKeyJwtSender,
    parse: string -> Models.PushedAuthorisation,
    parEndpoint: string,
    clientCertificate: Certificate,
    signingCertificate: Certificate,
    clientId: string,
    request: string,
    scope: string)
    returns (r: PayloadResponse<Models.PushedAuthorisation>, ghost call: PrivateKeyJwtRequest)
    ensures call.channel == MutualTls(clientCertificate, None)
    ensures call.endpoint == parEndpoint && call.clientId == clientId
    ensures call.signingCertificate == signingCertificate
    ensures call.scope == scope && call.grantType == None
    ensures call.additionalFormFields == [NameValue("request", request), NameValue("response_type", "code")]
    ensures DistinctNames(call.additionalFormFields)
    ensures fresh(r)
    ensures r.CarriesPayloadOf(send(call), parse)
  {
    var formFields := new FormFields();
    formFields.Add("request", request);
    formFields.Add("response_type", "code");
    var sent := PrivateKeyJwtRequest(
      MutualTls(clientCertificate, None), parEndpoint, clientId, signingCertificate,
      scope, None, formFields.entries);
    call := sent;
    var response := send(sent);
    r := MapPayloadResponse(response, parse);
  }

  /**
   * The authorisation URI carrying the request object by value: discovery
   * must succeed (otherwise the source dereferences a null `Data`), and the
   * JWT is built with the default response mode and no arrangement id.
   */
  method BuildAuthorisationRequestUri(
    get: HttpGet,
    parseDiscovery: string -> OidcDiscovery,
    sign: JwtSigner,
    infosecBaseUri: string,
    clientId: string,
    redirectUri: string,
    scope: string,
    state: string,
    nonce: string,
    signingCertificate: Certificate,
    sharingDuration: Option<int> := Some(0))
    returns (uri: Uri)
    requires IsSuccessStatusCode(get(DiscoveryRequest(infosecBaseUri)).statusCode)
    ensures uri == AuthorisationQuery(
      parseDiscovery(get(DiscoveryRequest(infosecBaseUri)).body).authorizationEndpoint,
      clientId, scope,
      NameValue("request", BuildAuthorisationRequestJwt(
        sign, infosecBaseUri, clientId, redirectUri, scope, state, nonce, signingCertificate,
        sharingDuration, None, "query")))
  {
    var jwt := BuildAuthorisationRequestJwt(
      sign, infosecBaseUri, clientId, redirectUri, scope, state, nonce, signingCertificate, sharingDuration);
    var discovery := GetOidcDiscovery(get, parseDiscovery, infosecBaseUri);
    var config := discovery.data.value;
    // The same chain of appends as the service; `AuthorisationQuery` is its specification.
    uri := FromString(config.authorizationEndpoint)
      .AppendQueryString("client_id", clientId)
      .AppendQueryString("response_type", "code")
      .AppendQueryString("scope", scope)
      .AppendQueryString("response_mode", "query")
      .AppendQueryString("request", jwt);
  }

  /** The authorisation URI referring to a pushed request by its `request_uri`; discovery must succeed. */
  method BuildAuthorisationRequestUriByReference(
    get: HttpGet,
    parseDiscovery: string -> OidcDiscovery,
    infosecBaseUri: string,
    clientId: string,
    signingCertificate: Certificate,
    scope: string,
    requestUri: string)
    returns (uri: Uri)
    requires IsSuccessStatusCode(get(DiscoveryRequest(infosecBaseUri)).statusCode)
    ensures uri == AuthorisationQuery(
      parseDiscovery(get(DiscoveryRequest(infosecBaseUri)).body).authorizationEndpoint,
      clientId, scope, NameValue("request_uri", requestUri))
  {
    var discovery := GetOidcDiscovery(get, parseDiscovery, infosecBaseUri);
    var config := discovery.data.value;
    // The same chain of appends as the service; `AuthorisationQuery` is its specification.
    uri := FromString(config.authorizationEndpoint)
      .AppendQueryString("client_id", clientId)
      .AppendQueryString("response_type", "code")
      .AppendQueryString("scope", scope)
      .AppendQueryString("response_mode", "query")
      .AppendQueryString("request_uri", requestUri);
  }

  /**
   * In the by-value URI, the query and the signed request object agree: the
   * same client and scope, response mode "query" in both, no arrangement id
   * in the object, and the object's issuer is the client.
   */
  lemma RequestObjectAgreesWithQuery(
    sign: JwtSigner, endpoint: string, infosecBaseUri: string, clientId: string,
    redirectUri: string, scope: string, state: string, nonce: string,
    signingCertificate: Certificate, sharingDuration: Option<int>)
    ensures
      var signing := AuthorisationRequestSigning(
        infosecBaseUri, clientId, redirectUri, scope, state, nonce, signingCertificate, sharingDuration);
      var q := AuthorisationQuery(endpoint, clientId, scope, NameValue("request", sign(signing))).query;
      var decoded := ReadAuthorisationRequest(signing.claims);
      && decoded.Some?
      && Lookup(q, "client_id") == Some(decoded.value.clientId) == Some(signing.issuer)
      && Lookup(q, "scope") == Some(decoded.value.scope)
      && Lookup(q, "response_mode") == Some(decoded.value.responseMode)
      && Lookup(q, "request") == Some(sign(signing))
      && decoded.value.cdrArrangementId == None
  {
    var signing := AuthorisationRequestSigning(
      infosecBaseUri, clientId, redirectUri, scope, state, nonce, signingCertificate, sharingDuration);
    AuthorisationQueryLookups(endpoint, clientId, scope, NameValue("request", sign(signing)));
  }

  /** Refresh a token over mutual TLS: grant type `refresh_token`, form fields `refresh_token` and `redirect_uri`. */
  method RefreshAccessToken(
    send: PrivateKeyJwtSender,
    parse: string -> Models.Token,
    tokenEndpoint: string,
    clientCertificate: Certificate,
    signingCertificate: Certificate,
    clientId: string,
    scope: string,
    refreshToken: string,
    redirectUri: string)
    returns (r: PayloadResponse<Models.Token>, ghost call: PrivateKeyJwtRequest)
    ensures call.channel == MutualTls(clientCertificate, None)
    ensures call.endpoint == tokenEndpoint && call.clientId == clientId
    ensures call.signingCertificate == signingCertificate
    ensures call.scope == scope && call.grantType == Some("refresh_token")
    ensures call.additionalFormFields == [NameValue("refresh_token", refreshToken), NameValue("redirect_uri", redirectUri)]
    ensures DistinctNames(call.additionalFormFields)
    ensures fresh(r)
    ensures r.CarriesPayloadOf(send(call), parse)
  {
    var formFields := new FormFields();
    formFields.Add("refresh_token", refreshToken);
    formFields.Add("redirect_uri", redirectUri);
    var sent := PrivateKeyJwtRequest(
      MutualTls(clientCertificate, None), tokenEndpoint, clientId, signingCertificate,
      scope, Some("refresh_token"), formFields.entries);
    call := sent;
    var response := send(sent);
    r := MapPayloadResponse(response, parse);
  }

  /** Revoke a token: empty scope, form fields `token` and `token_type_hint`; success is any 2xx. */
  method RevokeToken(
    send: PrivateKeyJwtSender,
    tokenRevocationEndpoint: string,
    clientCertificate: Certificate,
    signingCertificate: Certificate,
    clientId: string,
    tokenType: string,
    token: string,
    accessToken: string)
    returns (r: Response, ghost call: PrivateKeyJwtRequest)
    ensures call.channel == MutualTls(clientCertificate, Some(accessToken))
    ensures call.endpoint == tokenRevocationEndpoint && call.clientId == clientId
    ensures call.signingCertificate == signingCertificate
    ensures call.scope == "" && call.grantType == None
    ensures call.additionalFormFields == [NameValue("token", token), NameValue("token_type_hint", tokenType)]
    ensures DistinctNames(call.additionalFormFields)
    ensures fresh(r)
    ensures r.ReportsStatusOf(send(call))
  {
    var formFields := new FormFields();
    formFields.Add("token", token);
    formFields.Add("token_type_hint", tokenType);
    var sent := PrivateKeyJwtRequest(
      MutualTls(clientCertificate, Some(accessToken)), tokenRevocationEndpoint, clientId,
      signingCertificate, "", None, formFields.entries);
    call := sent;
    var response := send(sent);
    r := MapStatusResponse(response);
  }

  /** Introspect a refresh token: empty scope, `token` is the refresh token, hinted as `refresh_token`. */
  method Introspect(
    send: PrivateKeyJwtSender,
    parse: string -> Models.Introspection,
    introspectionEndpoint: string,
    clientCertificate: Certificate,
    signingCertificate: Certificate,
    clientId: string,
    refreshToken: string,
    accessToken: string)
    returns (r: PayloadResponse<Models.Introspection>, ghost call: PrivateKeyJwtRequest)
    ensures call.channel == MutualTls(clientCertificate, Some(accessToken))
    ensures call.endpoint == introspectionEndpoint && call.clientId == clientId
    ensures call.signingCertificate == signingCertificate
    ensures call.scope == "" && call.grantType == None
    ensures call.additionalFormFields == [NameValue("token", refreshToken), NameValue("token_type_hint", "refresh_token")]
    ensures DistinctNames(call.additionalFormFields)
    ensures fresh(r)
    ensures r.CarriesPayloadOf(send(call), parse)
  {
    var formFields := new FormFields();
    formFields.Add("token", refreshToken);
    formFields.Add("token_type_hint", "refresh_token");
    var sent := PrivateKeyJwtRequest(
      MutualTls(clientCertificate, Some(accessToken)), introspectionEndpoint, clientId,
      signingCertificate, "", None, formFields.entries);
    call := sent;
    var response := send(sent);
    r := MapPayloadResponse(response, parse);
  }

  /** Fetch user info with the bearer token over mutual TLS. */
  method UserInfo(
    get: HttpGet,
    parse: string -> Models.UserInfo,
    userInfoEndpoint: string,
    clientCertificate: Certificate,
    accessToken: string)
    returns (r: PayloadResponse<Models.UserInfo>)
    ensures fresh(r)
    ensures r.CarriesPayloadOf(get(GetRequest(MutualTls(clientCertificate, Some(accessToken)), userInfoEndpoint)), parse)
  {
    var response := get(GetRequest(MutualTls(clientCertificate, Some(accessToken)), userInfoEndpoint));
    r := MapPayloadResponse(response, parse);
  }

  /** Revoke a sharing arrangement: empty scope, the one form field `cdr_arrangement_id`; success is any 2xx. */
  method RevokeCdrArrangement(
    send: PrivateKeyJwtSender,
    cdrArrangementRevocationEndpoint: string,
    clientCertificate: Certificate,
    signingCertificate: Certificate,
    clientId: string,
    cdrArrangementId: string,
    accessToken: string)
    returns (r: Response, ghost call: PrivateKeyJwtRequest)
    ensures call.channel == MutualTls(clientCertificate, Some(accessToken))
    ensures call.endpoint == cdrArrangementRevocationEndpoint && call.clientId == clientId
    ensures call.signingCertificate == signingCertificate
    ensures call.scope == "" && call.grantType == None
    ensures call.additionalFormFields == [NameValue("cdr_arrangement_id", cdrArrangementId)]
    ensures fresh(r)
    ensures r.ReportsStatusOf(send(call))
  {
    var formFields := new FormFields();
    formFields.Add("cdr_arrangement_id", cdrArrangementId);
    var sent := PrivateKeyJwtRequest(
      MutualTls(clientCertificate, Some(accessToken)), cdrArrangementRevocationEndpoint, clientId,
      signingCertificate, "", None, formFields.entries);
    call := sent;
    var response := send(sent);
    r := MapStatusResponse(response);
  }

  /** The GET variant of the pushed authorisation request: fetch with the bearer token, parse as user info. */
  method PushedAuthorizationRequest(
    get: HttpGet,
    parse: string -> Models.UserInfo,
    parEndpoint: string,
    clientCertificate: Certificate,
    accessToken: string)
    returns (r: PayloadResponse<Models.UserInfo>)
    ensures fresh(r)
    ensures r.CarriesPayloadOf(get(GetRequest(MutualTls(clientCertificate, Some(accessToken)), parEndpoint)), parse)
  {
    var response := get(GetRequest(MutualTls(clientCertificate, Some(accessToken)), parEndpoint));
    r := MapPayloadResponse(response, parse);
  }
}
