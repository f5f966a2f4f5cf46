/**
 * The result objects the service hands back, and the three ways it fills
 * them in from a raw HTTP response. Every operation creates a fresh result,
 * copies the status code into it and then, under an `if` on
 * `IsSuccessStatusCode`, sets the payload or the message.
 */
module Responses {
  import opened Wrappers
  import opened Http

  /** The payload-less `Response`: a status code and an error message. */
  class Response {
    var statusCode: int
    var message: Option<string>

    /** `new Response()`: `HttpStatusCode` defaults to 0, `Message` to null. */
    constructor ()
      ensures statusCode == 0 && message == None
    {
      statusCode := 0;
      message := None;
    }

    /**
     * This result reports `http` the way the revocation calls do: the status
     * is copied, and the message is the exact body when (and only when) the
     * status is not 2xx.
     */
    ghost predicate ReportsStatusOf(http: HttpResponse)
      reads this
    {
      && statusCode == http.statusCode
      && (IsSuccessStatusCode(http.statusCode) ==> message == None)
      && (!IsSuccessStatusCode(http.statusCode) ==> message == Some(http.body))
    }
  }

  /** `Response<T>`: a status code, a parsed payload and an error message. */
  class PayloadResponse<T> {
    var statusCode: int
    var data: Option<T>
    var message: Option<string>

    /** `new Response<T>()`: status 0, `Data` and `Message` null. */
    constructor ()
      ensures statusCode == 0 && data == None && message == None
    {
      statusCode := 0;
      data := None;
      message := None;
    }

    /**
     * This result reports `http` the way the payload-returning calls do: the
     * status is copied; on 2xx the payload is the parsed body and there is no
     * message; otherwise the message is the exact body and there is no payload.
     */
    ghost predicate CarriesPayloadOf(http: HttpResponse, parse: string -> T)
      reads this
    {
      && statusCode == http.statusCode
      && (IsSuccessStatusCode(http.statusCode) ==> data == Some(parse(http.body)) && message == None)
      && (!IsSuccessStatusCode(http.statusCode) ==> data == None && message == Some(http.body))
    }

    /**
     * This result reports `http` the way discovery does: the status is
     * copied, the payload is the parsed body on 2xx and absent otherwise, and
     * there is never a message.
     */
    ghost predicate CarriesDiscoveryOf(http: HttpResponse, parse: string -> T)
      reads this
    {
      && statusCode == http.statusCode
      && (IsSuccessStatusCode(http.statusCode) ==> data == Some(parse(http.body)))
      && (!IsSuccessStatusCode(http.statusCode) ==> data == None)
      && message == None
    }
  }

  /** The mapping shared by the token, PAR, introspection and user-info calls. */
  method MapPayloadResponse<T>(http: HttpResponse, parse: string -> T) returns (r: PayloadResponse<T>)
    ensures fresh(r)
    ensures r.CarriesPayloadOf(http, parse)
  {
    r := new PayloadResponse<T>();
    r.statusCode := http.statusCode;
    if IsSuccessStatusCode(http.statusCode) {
      r.data := Some(parse(http.body));
    } else {
      r.message := Some(http.body);
    }
  }

  /** The mapping of the two revocation calls, which never carry a payload. */
  method MapStatusResponse(http: HttpResponse) returns (r: Response)
    ensures fresh(r)
    ensures r.ReportsStatusOf(http)
  {
    r := new Response();
    r.statusCode := http.statusCode;
    if !IsSuccessStatusCode(http.statusCode) {
      r.message := Some(http.body);
    }
  }

  /** The mapping of discovery, which never sets a message. */
  method MapDiscoveryResponse<T>(http: HttpResponse, parse: string -> T) returns (r: PayloadResponse<T>)
    ensures fresh(r)
    ensures r.CarriesDiscoveryOf(http, parse)
  {
    r := new PayloadResponse<T>();
    r.statusCode := http.statusCode;
    if IsSuccessStatusCode(http.statusCode) {
      r.data := Some(parse(http.body));
    }
  }

  /** A payload result has exactly one of payload and message, and which one is decided by the status class. */
  lemma PayloadExactlyOne<T>(r: PayloadResponse<T>, http: HttpResponse, parse: string -> T)
    requires r.CarriesPayloadOf(http, parse)
    ensures r.data.Some? != r.message.Some?
    ensures r.data.Some? <==> IsSuccessStatusCode(r.statusCode)
  {
  }

  /**
   * A revocation succeeds on every 2xx whatever the body said: two answers
   * with the same status are reported alike unless they fail.
   */
  lemma StatusReportIgnoresSuccessBody(r1: Response, r2: Response, h1: HttpResponse, h2: HttpResponse)
    requires r1.ReportsStatusOf(h1) && r2.ReportsStatusOf(h2)
    requires h1.statusCode == h2.statusCode
    ensures IsSuccessStatusCode(h1.statusCode) ==> r1.message == r2.message == None
    ensures !IsSuccessStatusCode(h1.statusCode) ==> (r1.message == r2.message <==> h1.body == h2.body)
  {
  }

  /**
   * Discovery and the payload calls agree on status and payload; they differ
   * only in that discovery drops the failure body.
   */
  lemma DiscoveryDropsOnlyTheMessage<T>(d: PayloadResponse<T>, p: PayloadResponse<T>, http: HttpResponse, parse: string -> T)
    requires d.CarriesDiscoveryOf(http, parse) && p.CarriesPayloadOf(http, parse)
    ensures d.statusCode == p.statusCode && d.data == p.data
    ensures d.message == None
    ensures p.message.Some? <==> !IsSuccessStatusCode(http.statusCode)
  {
  }
}
