/**
 * Where the authorisation server's metadata document lives: the base URI
 * with every trailing '/' removed, followed by the fixed path of section 4
 * of OpenID Connect Discovery 1.0.
 */
module Discovery {
  import opened Http

  /** The fixed discovery path. */
  const WellKnownPath: string := "/.well-known/openid-configuration"

  /** The parsed metadata document; only the authorisation endpoint is used by the service. */
  datatype OidcDiscovery = OidcDiscovery(authorizationEndpoint: string)

  /** `s` consists of '/' characters only. */
  predicate AllSlashes(s: string) {
    forall i :: 0 <= i < |s| ==> s[i] == '/'
  }

  /** `p` is `s` with nothing but slashes cut off its end, and `p` itself does not end in '/'. */
  predicate IsSlashTrimmed(s: string, p: string) {
    && |p| <= |s| && s[..|p|] == p
    && AllSlashes(s[|p|..])
    && (p == [] || p[|p| - 1] != '/')
  }

  /** `String.TrimEnd('/')`: cut every trailing '/' and nothing else. */
  function TrimEndSlash(s: string): (r: string)
    ensures IsSlashTrimmed(s, r)
  {
    if |s| > 0 && s[|s| - 1] == '/' then
      var r := TrimEndSlash(s[..|s| - 1]);
      assert s[..|r|] == s[..|s| - 1][..|r|];
      assert s[|r|..] == s[..|s| - 1][|r|..] + "/";
      r
    else
      assert s[|s|..] == "";
      s
  }

  /** The contract above pins `TrimEndSlash` down: only one prefix of `s` is slash-trimmed. */
  lemma TrimEndSlashUnique(s: string, p: string)
    requires IsSlashTrimmed(s, p)
    ensures TrimEndSlash(s) == p
  {
  }

  /** Trimming twice is trimming once. */
  lemma TrimEndSlashIdempotent(s: string)
    ensures TrimEndSlash(TrimEndSlash(s)) == TrimEndSlash(s)
  {
  }

  /** The URL `GetOidcDiscovery` fetches for a base URI. */
  function DiscoveryUrl(infosecBaseUri: string): (url: string)
    ensures |url| >= |WellKnownPath| && url[|url| - |WellKnownPath|..] == WellKnownPath
    ensures IsSlashTrimmed(infosecBaseUri, url[..|url| - |WellKnownPath|])
  {
    var trimmed := TrimEndSlash(infosecBaseUri);
    var url := trimmed + WellKnownPath;
    assert url[..|trimmed|] == trimmed && url[|trimmed|..] == WellKnownPath;
    url
  }

  /** Trailing slashes on the base URI, however many, make no difference. */
  lemma DiscoveryUrlIgnoresTrailingSlashes(infosecBaseUri: string, slashes: string)
    requires AllSlashes(slashes)
    ensures DiscoveryUrl(infosecBaseUri + slashes) == DiscoveryUrl(infosecBaseUri)
  {
    var s := infosecBaseUri + slashes;
    var p := TrimEndSlash(infosecBaseUri);
    assert s[..|p|] == infosecBaseUri[..|p|];
    assert s[|p|..] == infosecBaseUri[|p|..] + slashes;
    TrimEndSlashUnique(s, p);
  }

  /** The worked case: a base URI ending in one '/' loses it. */
  lemma DiscoveryUrlExample()
    ensures DiscoveryUrl("https://example.com/") == "https://example.com" + WellKnownPath
  {
    var s, p := "https://example.com/", "https://example.com";
    assert s[..|s| - 1] == p;
    assert TrimEndSlash(s) == TrimEndSlash(p);
  }

  /** The discovery GET: the trimmed URL, on the client that accepts any server certificate. */
  function DiscoveryRequest(infosecBaseUri: string): GetRequest
  {
    GetRequest(AcceptAnyServerCertificate, DiscoveryUrl(infosecBaseUri))
  }
}
