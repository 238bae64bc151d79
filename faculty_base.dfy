/** `faculty/clients/base.py`: the table from HTTP status code to error
    class, the error body schema and the status check every request runs. */
module FacultyBase {
  import opened Wrappers
  import opened Json

  /** The `HttpError` family; `GenericHttpError` is the base class itself. */
  datatype ErrorClass =
    | BadRequest | Unauthorized | Forbidden | NotFound | MethodNotAllowed | Conflict
    | InternalServerError | BadGateway | ServiceUnavailable | GatewayTimeout
    | GenericHttpError

  /** A raised `HttpError`: its class, the response status and the fields
      read from the error body. */
  datatype HttpError = HttpError(cls: ErrorClass, status: int, error: Option<string>, errorCode: Option<string>)

  const HTTP_ERRORS: map<int, ErrorClass> := map[
    400 := BadRequest, 401 := Unauthorized, 403 := Forbidden, 404 := NotFound,
    405 := MethodNotAllowed, 409 := Conflict, 500 := InternalServerError,
    502 := BadGateway, 503 := ServiceUnavailable, 504 := GatewayTimeout]

  /** `HTTP_ERRORS.get(status, HttpError)`. */
  function ErrorClassFor(status: int): (c: ErrorClass)
    ensures c == GenericHttpError <==> status !in HTTP_ERRORS
  {
    if status in HTTP_ERRORS then HTTP_ERRORS[status] else GenericHttpError
  }

  /** The status code a specific error class stands for. */
  function StatusOf(c: ErrorClass): Option<int> {
    match c
    case BadRequest => Some(400)
    case Unauthorized => Some(401)
    case Forbidden => Some(403)
    case NotFound => Some(404)
    case MethodNotAllowed => Some(405)
    case Conflict => Some(409)
    case InternalServerError => Some(500)
    case BadGateway => Some(502)
    case ServiceUnavailable => Some(503)
    case GatewayTimeout => Some(504)
    case GenericHttpError => None
  }

  /** The table and `StatusOf` are inverse: every mapped status comes back
      from its class, and every specific class from its status. */
  lemma ErrorTableInverse(status: int, c: ErrorClass)
    ensures status in HTTP_ERRORS ==> StatusOf(ErrorClassFor(status)) == Some(status)
    ensures c != GenericHttpError ==> StatusOf(c).Some? && ErrorClassFor(StatusOf(c).value) == c
  {
  }

  /** No two status codes share an error class. */
  lemma ErrorTableInjective(s1: int, s2: int)
    requires s1 in HTTP_ERRORS && s2 in HTTP_ERRORS && HTTP_ERRORS[s1] == HTTP_ERRORS[s2]
    ensures s1 == s2
  {
    ErrorTableInverse(s1, GenericHttpError);
    ErrorTableInverse(s2, GenericHttpError);
  }

  /** What `ErrorSchema().load(...)` leaves in `data`: both fields, or
      neither when the body is not JSON or does not validate. */
  datatype ErrorBody = ErrorBody(error: Option<string>, errorCode: Option<string>)

  /** One optional string field: `Ok(None)` when absent or null, `Err` when
      it holds anything else than a string. */
  function OptionalStringField(fields: map<string, Json>, key: string): Result<Option<string>, string> {
    if key !in fields then Ok(None)
    else match fields[key]
      case JNull => Ok(None)
      case JString(s) => Ok(Some(s))
      case _ => Err("Not a valid string.")
  }

  /** `ErrorSchema().load(response.json())`, with the `ValueError` of a body
      that is not JSON (`body == None`) and the `ValidationError` of one that
      does not validate both giving `{}`. Other keys are excluded. */
  function LoadErrorBody(body: Option<Json>): (r: ErrorBody)
    ensures body.None? || !body.value.JObject? ==> r == ErrorBody(None, None)
  {
    if body.None? || !body.value.JObject? then ErrorBody(None, None)
    else
      var e := OptionalStringField(body.value.fields, "error");
      var c := OptionalStringField(body.value.fields, "errorCode");
      if e.Err? || c.Err? then ErrorBody(None, None) else ErrorBody(e.value, c.value)
  }

  /** A body with string `error` and `errorCode` gives exactly those. */
  lemma LoadErrorBodyFields(fields: map<string, Json>, error: string, code: string)
    requires "error" in fields && fields["error"] == JString(error)
    requires "errorCode" in fields && fields["errorCode"] == JString(code)
    ensures LoadErrorBody(Some(JObject(fields))) == ErrorBody(Some(error), Some(code))
  {
  }

  /** Keys other than `error` and `errorCode` do not change what is loaded. */
  lemma LoadErrorBodyIgnoresUnknown(fields: map<string, Json>, key: string, value: Json)
    requires key != "error" && key != "errorCode"
    ensures LoadErrorBody(Some(JObject(fields[key := value]))) == LoadErrorBody(Some(JObject(fields)))
  {
    assert OptionalStringField(fields[key := value], "error") == OptionalStringField(fields, "error");
    assert OptionalStringField(fields[key := value], "errorCode") == OptionalStringField(fields, "errorCode");
  }

  /** `_check_status`: the error raised for a response, if any. */
  function CheckStatus(status: int, body: Option<Json>): (r: Option<HttpError>)
    ensures r.Some? <==> status >= 400
    ensures r.Some? ==> r.value.cls == ErrorClassFor(status) && r.value.status == status
    ensures r.Some? ==> ErrorBody(r.value.error, r.value.errorCode) == LoadErrorBody(body)
  {
    if status >= 400 then
      var data := LoadErrorBody(body);
      Some(HttpError(ErrorClassFor(status), status, data.error, data.errorCode))
    else None
  }

  /** Statuses of 400 or more missing from the table raise the generic class. */
  lemma CheckStatusGeneric(status: int, body: Option<Json>)
    requires status >= 400 && status !in {400, 401, 403, 404, 405, 409, 500, 502, 503, 504}
    ensures CheckStatus(status, body).Some? && CheckStatus(status, body).value.cls == GenericHttpError
  {
  }

  /** `BaseClient.__init__`: a client class without `SERVICE_NAME` fails with
      `RuntimeError`. */
  function CheckServiceName(serviceName: Option<string>): (r: Result<string, string>)
    ensures r.Ok? <==> serviceName.Some?
    ensures r.Ok? ==> r.value == serviceName.value
  {
    if serviceName.None? then Err("must set SERVICE_NAME in subclasses of BaseClient")
    else Ok(serviceName.value)
  }

  /** `BaseClient`: its service name and the lazily created HTTP session;
      `S` stands for `requests.Session` objects. */
  class BaseClient<S> {
    const serviceName: string
    var httpSessionCache: Option<S>

    constructor (serviceName: string)
      ensures this.serviceName == serviceName && httpSessionCache == None
    {
      this.serviceName := serviceName;
      httpSessionCache := None;
    }

    /** The `http_session` property: `created` is the session a first access
        makes; every later access returns that same one. */
    method HttpSession(created: S) returns (s: S)
      modifies this
      ensures old(httpSessionCache).Some? ==> s == old(httpSessionCache).value && httpSessionCache == old(httpSessionCache)
      ensures old(httpSessionCache).None? ==> s == created && httpSessionCache == Some(created)
    {
      if httpSessionCache.None? {
        httpSessionCache := Some(created);
      }
      s := httpSessionCache.value;
    }

    /** `_request`: the response passes unless `checkStatus` is set and
        `_check_status` raises. */
    method Request(checkStatus: bool, status: int, body: Option<Json>, created: S) returns (r: Option<HttpError>)
      modifies this
      ensures !checkStatus ==> r.None?
      ensures checkStatus ==> r == CheckStatus(status, body)
      ensures httpSessionCache.Some?
    {
      var _ := HttpSession(created);
      r := if checkStatus then CheckStatus(status, body) else None;
    }
  }
}
