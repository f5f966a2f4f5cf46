# InfosecService: a Dafny model

This project models the deterministic core of `InfosecService`, the data
recipient's client for a Consumer Data Right authorisation server
(`Source/CDR.DataRecipient.SDK/Services/DataHolder/InfosecService.cs`).
Beneath its HTTP, JWT and JSON calls the service does five things, and the
model states and proves each of them:

1. It derives the OpenID Connect discovery URL. Every trailing `/` is cut
   from the base URI and the fixed path of section 4 of OpenID Connect
   Discovery 1.0, `/.well-known/openid-configuration`, is appended.
2. It assembles the eight claims of an authorisation request object and
   hands them to the JWT signer, with the client as issuer and the
   authorisation server as audience.
3. It fills a form-field dictionary with successive `Add` calls for each
   private-key-JWT call (PAR, refresh, revoke, introspect, arrangement
   revoke), and passes a scope and an optional grant type to the sender.
4. It builds the authorisation URI from five query parameters in a fixed
   order. The fifth is `request` in one overload and `request_uri` in the
   other.
5. It maps each raw `(status, body)` answer onto a result object. There are
   three variants: payload or message, message only (revocations), and
   payload only (discovery).

Foreign calls are parameters of the operations: the GET transport, the
private-key-JWT sender, the JWT signer and the JSON parsers. They are total
functions the model never looks inside. Each private-key-JWT operation also
returns, as a ghost out-parameter, the exact arguments it handed to the
sender.

Modules, leaf first:

- `Wrappers`: `Option`, which stands in for C# `null`.
- `Http`: raw responses, `IsSuccessStatusCode` (status 200..299), client
  channels, and ordered name/value lists with lookups.
- `Forms`: the form-field dictionary as a class, and the record of one
  `SendPrivateKeyJwtRequest` call.
- `Responses`: the classes `Response` (C# `Response`) and `PayloadResponse<T>`
  (C# `Response<T>`). They hold the three mapping variants, each defined
  once.
- `Discovery`: `TrimEnd('/')` and the discovery URL.
- `AuthorisationClaims`: the claims dictionary, a reader that decodes it, and
  the signing request.
- `AuthorisationUri`: URIs as a base plus an ordered query.
- `Models`: the payload types, left abstract.
- `InfosecService`: the operations.

Two points of behaviour are worth stating outright:

- Discovery trims every trailing `/` (`TrimEnd('/')`), not just one.
- The default grant type of a private-key-JWT call is decided inside the
  sender, so when the service passes none the model records `None`.

## Model

| member | source | states |
|---|---|---|
| `Discovery.TrimEndSlash` | Source/CDR.DataRecipient.SDK/Services/DataHolder/InfosecService.cs:37 | the result is a prefix of the input that does not end in `/`, and everything cut off is `/` |
| `Discovery.TrimEndSlashUnique` | Source/CDR.DataRecipient.SDK/Services/DataHolder/InfosecService.cs:37 | any prefix with those properties is the trim result, so the contract above determines `TrimEnd('/')` completely |
| `Discovery.TrimEndSlashIdempotent` | Source/CDR.DataRecipient.SDK/Services/DataHolder/InfosecService.cs:37 | trimming twice gives the same as trimming once |
| `Discovery.DiscoveryUrl` | Source/CDR.DataRecipient.SDK/Services/DataHolder/InfosecService.cs:37 | the URL ends in `/.well-known/openid-configuration`; what precedes it is the base minus only trailing slashes, and does not end in `/` |
| `Discovery.DiscoveryUrlIgnoresTrailingSlashes` | Source/CDR.DataRecipient.SDK/Services/DataHolder/InfosecService.cs:37 | appending any number of `/` to the base URI leaves the discovery URL unchanged |
| `Discovery.DiscoveryUrlExample` | Source/CDR.DataRecipient.SDK/Services/DataHolder/InfosecService.cs:37 | `https://example.com/` yields `https://example.com/.well-known/openid-configuration` |
| `Responses.PayloadResponse.constructor` | Source/CDR.DataRecipient.SDK/Services/DataHolder/InfosecService.cs:29 | a new result has status 0 and neither payload nor message |
| `Responses.Response.constructor` | Source/CDR.DataRecipient.SDK/Services/DataHolder/InfosecService.cs:231 | a new payload-less result has status 0 and no message |
| `Responses.MapDiscoveryResponse` | Source/CDR.DataRecipient.SDK/Services/DataHolder/InfosecService.cs:40-46 | a fresh result: status copied; payload is the parsed body exactly when 2xx; message never set, even on failure |
| `Responses.MapPayloadResponse` | Source/CDR.DataRecipient.SDK/Services/DataHolder/InfosecService.cs:79-87 | a fresh result: status copied; on 2xx the payload is the parsed body and there is no message; otherwise the message is the exact body and there is no payload |
| `Responses.MapStatusResponse` | Source/CDR.DataRecipient.SDK/Services/DataHolder/InfosecService.cs:251-256 | a fresh payload-less result: status copied; message is the exact body if and only if the status is not 2xx |
| `Responses.PayloadExactlyOne` | Source/CDR.DataRecipient.SDK/Services/DataHolder/InfosecService.cs:79-87 | a payload result holds exactly one of payload and message, and holds the payload exactly when its status is 2xx |
| `Responses.StatusReportIgnoresSuccessBody` | Source/CDR.DataRecipient.SDK/Services/DataHolder/InfosecService.cs:251-258 | two revocation answers with the same 2xx status are both reported as success with no message, whatever their bodies; on failure the messages differ exactly when the bodies do |
| `Responses.DiscoveryDropsOnlyTheMessage` | Source/CDR.DataRecipient.SDK/Services/DataHolder/InfosecService.cs:40-46 | for one answer, discovery and the payload calls give the same status and payload, and differ only in that discovery drops the failure body |
| `Forms.FormFields.constructor` | Source/CDR.DataRecipient.SDK/Services/DataHolder/InfosecService.cs:66 | a new form-field dictionary is empty |
| `Forms.FormFields.Add` | Source/CDR.DataRecipient.SDK/Services/DataHolder/InfosecService.cs:66-68 | `Dictionary.Add` appends one entry and keeps all names distinct; it may only be called with a new name, so every verified call site is one where `Add` cannot throw |
| `AuthorisationClaims.ClaimsOf` | Source/CDR.DataRecipient.SDK/Services/DataHolder/InfosecService.cs:107-117 | the claims dictionary has exactly the eight names `response_type`, `client_id`, `redirect_uri`, `response_mode`, `scope`, `state`, `nonce`, `claims`, and `response_type` is `code` |
| `AuthorisationClaims.ClaimsRoundTrip` | Source/CDR.DataRecipient.SDK/Services/DataHolder/InfosecService.cs:107-117 | reading the dictionary back gives every argument verbatim, including the nested `sharing_duration` and `cdr_arrangement_id` |
| `AuthorisationClaims.ClaimsDetermined` | Source/CDR.DataRecipient.SDK/Services/DataHolder/InfosecService.cs:107-117 | conversely, the only dictionary that reads as a given request is that request's claims dictionary |
| `AuthorisationClaims.AuthorisationRequestSigning` | Source/CDR.DataRecipient.SDK/Services/DataHolder/InfosecService.cs:100-119 | the signer is given issuer = client id, audience = base URI, the signing certificate, and claims that decode to exactly the arguments; the defaults are sharing duration 0, no arrangement id and response mode `query` |
| `AuthorisationClaims.BuildAuthorisationRequestJwtSigns` | Source/CDR.DataRecipient.SDK/Services/DataHolder/InfosecService.cs:92-120 | the request object is the signer's output for every signing request with issuer = client id, audience = base URI, the signing certificate, and claims that read back as exactly the arguments; those properties alone determine the token |
| `AuthorisationClaims.IssuerIsClaimedClient` | Source/CDR.DataRecipient.SDK/Services/DataHolder/InfosecService.cs:110-119 | the JWT's issuer is the `client_id` the claims carry |
| `AuthorisationUri.Uri.AppendQueryString` | Source/CDR.DataRecipient.SDK/Services/DataHolder/InfosecService.cs:138-142 | each append keeps the base and adds exactly one parameter name, after the existing ones |
| `Http.AppendedLookup` | Source/CDR.DataRecipient.SDK/Services/DataHolder/InfosecService.cs:138-142 | after an append, every name already present is looked up as before, and the new value is found only under a name that was not present |
| `AuthorisationUri.AuthorisationQuery` | Source/CDR.DataRecipient.SDK/Services/DataHolder/InfosecService.cs:137-142 | the URI keeps the endpoint as its base; its parameters are `client_id`, `response_type=code`, `scope`, `response_mode=query`, then the given last one, in that order |
| `AuthorisationUri.AuthorisationQueryLookups` | Source/CDR.DataRecipient.SDK/Services/DataHolder/InfosecService.cs:137-142 | when the last name is not one of the first four, the names are distinct and looking up each name finds its argument, whatever the order |
| `AuthorisationUri.OverloadsDifferOnlyInLast` | Source/CDR.DataRecipient.SDK/Services/DataHolder/InfosecService.cs:137-161 | both overloads produce five parameters with the same base and first four; only the fifth differs (`request = jwt` or `request_uri = requestUri`) |
| `InfosecService.GetOidcDiscovery` | Source/CDR.DataRecipient.SDK/Services/DataHolder/InfosecService.cs:27-49 | a GET of the discovery URL, on the client that accepts any server certificate, whose answer is mapped by the discovery variant |
| `InfosecService.PushedAuthorisationRequest` | Source/CDR.DataRecipient.SDK/Services/DataHolder/InfosecService.cs:51-90 | the sender gets the MTLS client with no bearer token, the endpoint, client id, signing certificate and caller's scope, no grant type, and exactly the distinct fields `request` and `response_type=code`; the answer is mapped by the payload variant |
| `InfosecService.BuildAuthorisationRequestUri` | Source/CDR.DataRecipient.SDK/Services/DataHolder/InfosecService.cs:122-143 | when discovery succeeds, the URI is the discovered authorisation endpoint with the five parameters, ending in `request` = the JWT built with the default response mode and no arrangement id |
| `InfosecService.BuildAuthorisationRequestUriByReference` | Source/CDR.DataRecipient.SDK/Services/DataHolder/InfosecService.cs:145-162 | when discovery succeeds, the URI is the discovered authorisation endpoint with the five parameters, ending in `request_uri` |
| `InfosecService.RequestObjectAgreesWithQuery` | Source/CDR.DataRecipient.SDK/Services/DataHolder/InfosecService.cs:134-142 | in the by-value URI, the query and the signed request object agree on the client (which is also the issuer), the scope and response mode `query`; the object carries no arrangement id |
| `InfosecService.RefreshAccessToken` | Source/CDR.DataRecipient.SDK/Services/DataHolder/InfosecService.cs:179-220 | the sender gets the MTLS client, the caller's scope, grant type `refresh_token`, and exactly the distinct fields `refresh_token`, `redirect_uri`; the answer is mapped by the payload variant |
| `InfosecService.RevokeToken` | Source/CDR.DataRecipient.SDK/Services/DataHolder/InfosecService.cs:222-259 | the sender gets the MTLS client with the bearer token, scope `""`, no grant type, and exactly the distinct fields `token`, `token_type_hint = tokenType`; the answer is mapped by the payload-less variant |
| `InfosecService.Introspect` | Source/CDR.DataRecipient.SDK/Services/DataHolder/InfosecService.cs:261-301 | the sender gets the MTLS client with the bearer token, scope `""`, no grant type, and exactly the distinct fields `token = refreshToken`, `token_type_hint = refresh_token`; the answer is mapped by the payload variant |
| `InfosecService.UserInfo` | Source/CDR.DataRecipient.SDK/Services/DataHolder/InfosecService.cs:303-327 | a GET of the user-info endpoint on the MTLS client with the bearer token, mapped by the payload variant |
| `InfosecService.RevokeCdrArrangement` | Source/CDR.DataRecipient.SDK/Services/DataHolder/InfosecService.cs:329-364 | the sender gets the MTLS client with the bearer token, scope `""`, no grant type, and exactly the one field `cdr_arrangement_id`; the answer is mapped by the payload-less variant |
| `InfosecService.PushedAuthorizationRequest` | Source/CDR.DataRecipient.SDK/Services/DataHolder/InfosecService.cs:366-390 | a GET of the PAR endpoint on the MTLS client with the bearer token, parsed as user info, mapped by the payload variant |

## Left out

- HTTP transport, TLS and the server-certificate callback that accepts every certificate (line 34). A request records which kind of client it goes out on and nothing more.
- `GetHttpClient`: the model records the client certificate and the bearer token. It does not record the third argument (`null`) of the three-argument calls, nor any header or content-type handling.
- `SendPrivateKeyJwtRequest` is not part of this model. That covers the client assertion, the `client_assertion_type`, how the extra fields are merged, its default grant type and its HTTP mechanics. The model records only the arguments the service passes to it.
- `GenerateJwt` is not part of this model. That covers its header, algorithm, expiry and unique id. The signer is a function parameter, so equal inputs give equal tokens; the model says nothing about the clock or randomness inside it.
- `AppendQueryString`: percent-encoding and the `?`/`&` joining are not modelled. A URI is its base plus the ordered list of parameters.
- JSON deserialisation: a parser is a total function from the body to the payload type. A body that deserialises to `null` or throws is not modelled.
- `GetAccessToken` (lines 164-177) passes its arguments straight to another service and holds no logic of its own.
- Logging, `async`/`await`, exceptions raised by the transport, and the constructor's dependency wiring.
- `HttpStatusCode` is an enumeration; the model uses its integer value.
- C# `int?` is unbounded `Option<int>`. No arithmetic is done on it, so its width does not matter.
- C# strings may be `null`. Only the parameters that default to `null` or may be `null` by type (`cdrArrangementId`, `sharingDuration`) are optional in the model; the required string arguments are plain strings.
- The body is read only on success in discovery (line 44). The model's answer always carries a body, which makes no difference to the result.
- `Forms.FormFields.Add`: the `ArgumentException` that `Dictionary.Add` throws on a repeated key is modelled as a precondition rather than an error path. Every call in the core meets it, and that is what the verifier proves.
- `InfosecService.BuildAuthorisationRequestUri`: when discovery fails, the source dereferences a null `Data` (lines 135-137). The model makes discovery success a precondition and does not model the exception.
- `InfosecService.BuildAuthorisationRequestUriByReference`: the same null dereference (lines 154-156), handled the same way.
