/** `sherlockml/clients/base.py`: the older client base. It shares the status
    table of `faculty/clients/base.py` but keeps only the `error` string of
    the body, and turns bodies that do not load into `InvalidResponse`. */
module SherlockBase {
  import opened Wrappers
  import opened Json
  import FacultyBase

  /** A raised `HTTPError` of this package: class, status and `error`. */
  datatype SherlockHttpError = SherlockHttpError(cls: FacultyBase.ErrorClass, status: int, error: Option<string>)

  /** `_extract_error`: `ErrorSchema` requires a string `error` and, as a
      marshmallow 3 schema without `unknown = EXCLUDE`, rejects other keys;
      a body that is not JSON (`None`) or does not load gives None. */
  function ExtractError(body: Option<Json>): (r: Option<string>)
    ensures r.Some? <==> body.Some? && body.value.JObject? && body.value.fields.Keys == {"error"}
                         && body.value.fields["error"].JString?
    ensures r.Some? ==> r.value == body.value.fields["error"].s
  {
    if body.Some? && body.value.JObject? && body.value.fields.Keys == {"error"} && body.value.fields["error"].JString?
    then Some(body.value.fields["error"].s)
    else None
  }

  /** `_check_status`: raises the mapped class, or the base `HTTPError`,
      exactly for statuses of 400 or more. */
  function CheckStatus(status: int, body: Option<Json>): (r: Option<SherlockHttpError>)
    ensures r.Some? <==> status >= 400
    ensures r.Some? ==> r.value.cls == FacultyBase.ErrorClassFor(status) && r.value.status == status && r.value.error == ExtractError(body)
  {
    if status >= 400 then Some(SherlockHttpError(FacultyBase.ErrorClassFor(status), status, ExtractError(body))) else None
  }

  /** The two packages raise the same class for every status. */
  lemma CheckStatusAgrees(status: int, body: Option<Json>)
    ensures CheckStatus(status, body).Some? <==> FacultyBase.CheckStatus(status, body).Some?
    ensures CheckStatus(status, body).Some? ==>
      CheckStatus(status, body).value.cls == FacultyBase.CheckStatus(status, body).value.cls
  {
  }

  /** `_deserialise_response`: `load` stands for `schema.load`. */
  function DeserialiseResponse<T>(body: Option<Json>, load: Json -> Result<T, string>): (r: Result<T, string>)
    ensures body.None? ==> r == Err("response body was not valid JSON")
    ensures body.Some? && load(body.value).Err? ==> r == Err("response content did not match expected format")
    ensures body.Some? && load(body.value).Ok? ==> r == load(body.value)
  {
    if body.None? then Err("response body was not valid JSON")
    else
      var data := load(body.value);
      if data.Err? then Err("response content did not match expected format") else data
  }
}
