/**
 * The authorisation URI: the discovered authorisation endpoint followed by
 * query parameters appended one at a time. Percent-encoding is not modelled;
 * a URI is its base and the ordered list of (name, value) pairs.
 */
module AuthorisationUri {
  import opened Wrappers
  import opened Http

  datatype Uri = Uri(base: string, query: seq<NameValue>) {

    /**
     * `AppendQueryString`: one more parameter, after the ones already there.
     * What a lookup then finds is `Http.AppendedLookup`.
     */
    function AppendQueryString(name: string, value: string): (r: Uri)
      ensures r.base == base
      ensures Names(r.query) == Names(query) + [name]
    {
      var r := Uri(base, query + [NameValue(name, value)]);
      AppendedLookup(query, NameValue(name, value));
      r
    }
  }

  /** A URI with no query yet. */
  function FromString(s: string): Uri
  {
    Uri(s, [])
  }

  /** The names every authorisation URI starts with, in order. */
  const LeadingNames: seq<string> := ["client_id", "response_type", "scope", "response_mode"]

  /**
   * The query of an authorisation URI whose last parameter is `last`
   * (`request` or `request_uri`), appended in the order the service does.
   */
  function AuthorisationQuery(endpoint: string, clientId: string, scope: string, last: NameValue): (u: Uri)
    ensures u.base == endpoint
    ensures Names(u.query) == LeadingNames + [last.name]
    ensures u.query[..4] == [
      NameValue("client_id", clientId), NameValue("response_type", "code"),
      NameValue("scope", scope), NameValue("response_mode", "query")]
    ensures u.query[4] == last
  {
    var u1 := FromString(endpoint).AppendQueryString("client_id", clientId);
    assert u1.query == [NameValue("client_id", clientId)];
    var u2 := u1.AppendQueryString("response_type", "code");
    assert u2.query == u1.query + [NameValue("response_type", "code")];
    var u3 := u2.AppendQueryString("scope", scope);
    assert u3.query == u2.query + [NameValue("scope", scope)];
    var u4 := u3.AppendQueryString("response_mode", "query");
    assert u4.query == u3.query + [NameValue("response_mode", "query")];
    var u := u4.AppendQueryString(last.name, last.value);
    assert u.query == u4.query + [last];
    assert Names(u4.query) == LeadingNames;
    u
  }

  /**
   * When the last name is not one of the leading four, the names are
   * distinct and each lookup finds its argument, whatever order a reader
   * takes them in.
   */
  lemma AuthorisationQueryLookups(endpoint: string, clientId: string, scope: string, last: NameValue)
    requires last.name !in LeadingNames
    ensures var q := AuthorisationQuery(endpoint, clientId, scope, last).query;
      && DistinctNames(q)
      && Lookup(q, "client_id") == Some(clientId)
      && Lookup(q, "response_type") == Some("code")
      && Lookup(q, "scope") == Some(scope)
      && Lookup(q, "response_mode") == Some("query")
      && Lookup(q, last.name) == Some(last.value)
  {
    var q := AuthorisationQuery(endpoint, clientId, scope, last).query;
    assert Names(q) == LeadingNames + [last.name];
    assert q[..4][0] == q[0] && q[..4][1] == q[1] && q[..4][2] == q[2] && q[..4][3] == q[3];
    assert DistinctNames(q) by {
      forall i, j | 0 <= i < j < |q| ensures q[i].name != q[j].name {
        assert Names(q)[i] == q[i].name && Names(q)[j] == q[j].name;
      }
    }
    LookupDistinct(q, 0);
    LookupDistinct(q, 1);
    LookupDistinct(q, 2);
    LookupDistinct(q, 3);
    LookupDistinct(q, 4);
  }

  /** The two overloads' URIs agree in everything but the fifth parameter. */
  lemma OverloadsDifferOnlyInLast(endpoint: string, clientId: string, scope: string, jwt: string, requestUri: string)
    ensures var byValue := AuthorisationQuery(endpoint, clientId, scope, NameValue("request", jwt));
      var byReference := AuthorisationQuery(endpoint, clientId, scope, NameValue("request_uri", requestUri));
      && byValue.base == byReference.base
      && byValue.query[..4] == byReference.query[..4]
      && |byValue.query| == |byReference.query| == 5
      && byValue.query[4] == NameValue("request", jwt)
      && byReference.query[4] == NameValue("request_uri", requestUri)
  {
  }
}
