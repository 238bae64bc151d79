/** What `requests` decides from a status code alone. */
module Http {

  /** `Response.raise_for_status()` raises for client (4xx) and server (5xx)
      errors and for nothing else. */
  predicate RaisesForStatus(status: int) { 400 <= status < 600 }

  /** The part of a `requests.PreparedRequest` an auth hook touches. */
  class PreparedRequest {
    var url: string
    var headers: map<string, string>

    constructor (url: string, headers: map<string, string>)
      ensures this.url == url && this.headers == headers
    {
      this.url := url;
      this.headers := headers;
    }
  }

  /** The `Authorization` header value for a bearer token. */
  function BearerHeader(token: string): (r: string)
    ensures |r| == |token| + 7 && r[7..] == token && r[..7] == "Bearer "
  {
    "Bearer " + token
  }
}
