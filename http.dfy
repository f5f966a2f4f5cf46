/**
 * The HTTP vocabulary the service is written against: raw responses with
 * their status code and body, the client channels it opens, and ordered
 * name/value lists (form fields, query parameters).
 */
module Http {
  import opened Wrappers

  /** An X.509 certificate with its key; the model never looks inside one. */
  type Certificate

  /** What `HttpResponseMessage` gives the service: the status code and the body text. */
  datatype HttpResponse = HttpResponse(statusCode: int, body: string)

  /** `HttpResponseMessage.IsSuccessStatusCode`: the status lies in 200..299. */
  predicate IsSuccessStatusCode(statusCode: int) {
    200 <= statusCode <= 299
  }

  /**
   * The client a request goes out on. Discovery uses a plain client whose
   * server-certificate callback accepts every certificate; every other call
   * uses a client bound to the caller's certificate for mutual TLS, with an
   * optional bearer token.
   */
  datatype HttpChannel =
    | AcceptAnyServerCertificate
    | MutualTls(clientCertificate: Certificate, accessToken: Option<string>)

  /** The arguments of one `HttpClient.GetAsync` call. */
  datatype GetRequest = GetRequest(channel: HttpChannel, url: string)

  /** The transport, taken as given: what the server answers to a GET. */
  type HttpGet = GetRequest -> HttpResponse

  /** One entry of a form body or a query string. */
  datatype NameValue = NameValue(name: string, value: string)

  /** The names of an entry list, in order. */
  function Names(entries: seq<NameValue>): (names: seq<string>)
    ensures |names| == |entries|
    ensures forall i :: 0 <= i < |entries| ==> names[i] == entries[i].name
  {
    if entries == [] then [] else [entries[0].name] + Names(entries[1..])
  }

  /** No name occurs twice. */
  predicate DistinctNames(entries: seq<NameValue>) {
    forall i, j :: 0 <= i < j < |entries| ==> entries[i].name != entries[j].name
  }

  /** The value of an entry called `name`, if any; it scans from the front, so an earlier entry wins (`AppendedLookup`). */
  function Lookup(entries: seq<NameValue>, name: string): (r: Option<string>)
    ensures r.None? <==> name !in Names(entries)
    ensures r.Some? ==> NameValue(name, r.value) in entries
  {
    if entries == [] then None
    else if entries[0].name == name then Some(entries[0].value)
    else Lookup(entries[1..], name)
  }

  /** In a list without repeated names, every entry is what a lookup of its name finds. */
  lemma LookupDistinct(entries: seq<NameValue>, i: nat)
    requires DistinctNames(entries)
    requires i < |entries|
    ensures Lookup(entries, entries[i].name) == Some(entries[i].value)
  {
  }

  /**
   * Appending an entry leaves every earlier lookup as it was; the new entry is
   * found only under a name the list did not have yet.
   */
  lemma {:induction false} AppendedLookup(entries: seq<NameValue>, entry: NameValue)
    ensures Names(entries + [entry]) == Names(entries) + [entry.name]
    ensures forall name ::
              Lookup(entries + [entry], name) ==
                if name in Names(entries) then Lookup(entries, name)
                else if name == entry.name then Some(entry.value)
                else None
  {
    var s := entries + [entry];
    assert Names(s) == Names(entries) + [entry.name];
    if entries != [] {
      assert s[1..] == entries[1..] + [entry];
      AppendedLookup(entries[1..], entry);
      assert Names(entries) == [entries[0].name] + Names(entries[1..]);
    }
  }

  /** Appending an entry whose name is new keeps the names distinct. */
  lemma AppendKeepsNamesDistinct(entries: seq<NameValue>, entry: NameValue)
    requires DistinctNames(entries)
    requires entry.name !in Names(entries)
    ensures DistinctNames(entries + [entry])
  {
  }
}
