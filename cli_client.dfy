/** `faculty/cli/client.py` apart from the event stream: the error raised on
    an error response, the credentials each request carries, and the text
    form of a stream message. The session token is a parameter; `repr` of
    the message data is Python's and is a parameter too. */
module CliClient {
  import opened Wrappers
  import opened Strings
  import opened Json
  import opened ServerSentEvents

  /** `FacultyServiceError(message, status_code)`; the message is whatever
      the body's `error` member holds. */
  datatype FacultyServiceError = FacultyServiceError(message: Json, statusCode: int)

  /** `response.raise_for_status()` raises for client and server errors. */
  predicate IsErrorStatus(status: int) { 400 <= status < 600 }

  /** `_check_response(response)`, the body being `None` when it is not
      JSON: on an error status the `error` member of a JSON object body,
      `""` when it has none, and a fixed text when the body is not an
      object (`.get` then fails and is caught). */
  function CheckResponse(status: int, body: Option<Json>): (r: Result<(), FacultyServiceError>)
    ensures r.Ok? <==> !IsErrorStatus(status)
    ensures r.Err? ==> r.error.statusCode == status
    ensures r.Err? && body.Some? && body.value.JObject? && "error" in body.value.fields ==>
      r.error.message == body.value.fields["error"]
    ensures r.Err? && body.Some? && body.value.JObject? && "error" !in body.value.fields ==>
      r.error.message == JString("")
    ensures r.Err? && !(body.Some? && body.value.JObject?) ==> r.error.message == JString("error from the server")
  {
    if !IsErrorStatus(status) then Ok(())
    else
      var msg := match body
        case Some(JObject(fields)) => if "error" in fields then fields["error"] else JString("")
        case _ => JString("error from the server");
      Err(FacultyServiceError(msg, status))
  }

  /** `_headers`: the user agent, and the bearer token unless the service
      authenticates by cookie. */
  function Headers(cookieAuth: bool, userAgent: string, token: string): (r: map<string, string>)
    ensures "User-Agent" in r && r["User-Agent"] == userAgent
    ensures "Authorization" in r <==> !cookieAuth
    ensures !cookieAuth ==> r["Authorization"] == "Bearer " + token
    ensures r.Keys <= {"User-Agent", "Authorization"}
  {
    var headers := map["User-Agent" := userAgent];
    if !cookieAuth then headers["Authorization" := "Bearer " + token] else headers
  }

  /** `_cookies`: the token cookie when the service authenticates by cookie. */
  function Cookies(cookieAuth: bool, token: string): (r: map<string, string>)
    ensures "token" in r <==> cookieAuth
    ensures cookieAuth ==> r["token"] == token
    ensures r.Keys <= {"token"}
  {
    if cookieAuth then map["token" := token] else map[]
  }

  /** Every request carries the token exactly once: in the headers or in
      the cookies, never both and never neither. */
  lemma CredentialsSentOnce(cookieAuth: bool, userAgent: string, token: string)
    ensures ("Authorization" in Headers(cookieAuth, userAgent, token)) != ("token" in Cookies(cookieAuth, token))
  {
  }

  /** The data part of `__str__`: a `repr` longer than 30 characters is cut
      to its first and last 12, joined by `...`. */
  function Abbreviate(s: string): (r: string)
    ensures |r| <= 30
    ensures |s| <= 30 ==> r == s
    ensures |s| > 30 ==> |r| == 27 && r[..12] == s[..12] && r[15..] == s[|s| - 12..] && r[12..15] == "..."
  {
    if |s| > 30 then s[..12] + "..." + s[|s| - 12..] else s
  }

  function OptionalIntText(i: Option<int>): string {
    if i.None? then "None" else IntToString(i.value)
  }

  /** `ServerSentEventMessage.__str__`. */
  function Describe(m: RawMessage, repr: Json -> string): (r: string)
    ensures StartsWith(r, "ServerSentEventMessage(id=" + OptionalIntText(m.id) + ", event=")
    ensures EndsWith(r, ", data=" + Abbreviate(repr(m.data)) + ")")
  {
    var event := if m.event.None? then "None" else m.event.value;
    var tail := ", data=" + Abbreviate(repr(m.data)) + ")";
    var head := "ServerSentEventMessage(id=" + OptionalIntText(m.id) + ", event=";
    assert (head + event + tail)[..|head|] == head;
    assert (head + event + tail)[|head + event|..] == tail;
    head + event + tail
  }
}
