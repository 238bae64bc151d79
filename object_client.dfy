/** `faculty/clients/object.py`: how the object store client shapes its
    requests (endpoints, query parameters, bodies) and how it turns the
    service's error codes into domain exceptions. */
module ObjectClient {
  import opened Wrappers
  import opened Strings
  import opened Json
  import opened PercentEncoding
  import opened Bytes
  import FacultyBase

  datatype CloudStorageProvider = S3 | GCS

  datatype CompletedUploadPart = CompletedUploadPart(partNumber: nat, etag: string)

  /** The exceptions the client raises; `Http` re-raises the original. */
  datatype ObjectError =
    | PathNotFound(path: string)
    | SourceIsADirectory(path: string)
    | TargetIsADirectory(path: string)
    | PathAlreadyExists(path: string)
    | Http(err: FacultyBase.HttpError)

  function Message(e: ObjectError): string {
    match e
    case PathNotFound(p) => "Path provided '" + p + "' cannot be found"
    case SourceIsADirectory(p) => "Source provided '" + p + "' is a directory and must be copied recursively"
    case TargetIsADirectory(p) => "Target provided '" + p + "' is a directory and must be deleted recursively"
    case PathAlreadyExists(p) => "Path provided '" + p + "' already exists"
    case Http(_) => ""
  }

  // ---------------------------------------------------------------------------
  // Endpoints
  // ---------------------------------------------------------------------------

  /** `urllib.parse.quote(path.lstrip("/"))`. */
  function EncodedPath(path: string): (r: string)
    ensures r == Quote(LStripChar(path, '/'))
    ensures r == "" || r[0] != '/'
  {
    var stripped := LStripChar(path, '/');
    if stripped == "" then Quote(stripped)
    else QuoteLeadingByte(stripped); Quote(stripped)
  }

  /** The first encoded character comes from the first byte, and is `/` only
      when the text starts with `/`. */
  lemma QuoteLeadingByte(s: string)
    requires s != ""
    ensures Quote(s) != "" && (Quote(s)[0] == '/' <==> s[0] == '/')
  {
    var bs := Utf8(s);
    assert bs == Utf8Char(s[0]) + Utf8(s[1..]);
    assert bs[0] == Utf8Char(s[0])[0];
    assert QuoteBytes(bs) == QuoteByte(bs[0]) + QuoteBytes(bs[1..]);
    if s[0] as int >= 0x80 {
      assert bs[0] as int >= 0xC0;
    }
  }

  /** Stripping makes the number of leading slashes irrelevant. */
  lemma EncodedPathLeadingSlashes(path: string)
    ensures EncodedPath("/" + path) == EncodedPath(path)
  {
    assert ("/" + path)[1..] == path;
  }

  function ObjectEndpoint(projectId: string, path: string): string {
    "/project/" + projectId + "/object/" + EncodedPath(path)
  }

  function ObjectListEndpoint(projectId: string, prefix: string): string {
    "/project/" + projectId + "/object-list/" + EncodedPath(prefix)
  }

  function DirectoryEndpoint(projectId: string, path: string): string {
    "/project/" + projectId + "/directory/" + EncodedPath(path)
  }

  /** The endpoint of the object at `path` names the object's path back,
      once decoded: different paths give different endpoints. */
  lemma ObjectEndpointInjective(projectId: string, p: string, q: string)
    requires ObjectEndpoint(projectId, p) == ObjectEndpoint(projectId, q)
    ensures Utf8(LStripChar(p, '/')) == Utf8(LStripChar(q, '/'))
  {
    var prefix := "/project/" + projectId + "/object/";
    assert ObjectEndpoint(projectId, p)[|prefix|..] == EncodedPath(p);
    assert ObjectEndpoint(projectId, q)[|prefix|..] == EncodedPath(q);
    QuoteInjective(LStripChar(p, '/'), LStripChar(q, '/'));
  }

  /** Text whose every character is kept by the encoding. */
  predicate AllKept(s: string) {
    forall i :: 0 <= i < |s| ==> KeptChar(s[i])
  }

  /** A path such as `"//test/path"`: the slashes in front are dropped and
      text made of kept characters is sent as it is. */
  lemma EncodedPathDoubleSlash(t: string)
    requires t != "" && t[0] != '/' && AllKept(t)
    ensures EncodedPath("//" + t) == t
  {
    assert "//" + t == "/" + ("/" + t);
    EncodedPathLeadingSlashes("/" + t);
    EncodedPathLeadingSlashes(t);
    assert LStripChar(t, '/') == t;
    QuoteUnchanged(t);
  }

  lemma QuoteBrackets(l: string, r: string)
    requires l == "[" && r == "]"
    ensures Quote(l) == "%5B" && Quote(r) == "%5D"
  {
    assert Utf8(l) == [91 as byte] by { assert l[1..] == ""; }
    assert Utf8(r) == [93 as byte] by { assert r[1..] == ""; }
    var lb, rb: Bytes := [91 as byte], [93 as byte];
    assert lb[1..] == [] && rb[1..] == [];
    assert QuoteBytes(lb) == QuoteByte(91 as byte) == "%5B";
    assert QuoteBytes(rb) == QuoteByte(93 as byte) == "%5D";
  }

  lemma QuoteFivePieces(a: string, b: string, c: string, d: string, e: string)
    ensures Quote(a + b + c + d + e) == Quote(a) + Quote(b) + Quote(c) + Quote(d) + Quote(e)
  {
    QuoteAppend(a + b + c + d, e);
    QuoteAppend(a + b + c, d);
    QuoteAppend(a + b, c);
    QuoteAppend(a, b);
  }

  /** A path of one leading slash and five pieces is sent as the five
      pieces encoded one by one. */
  lemma EncodedPathPieces(path: string, a: string, l: string, b: string, r: string, c: string)
    requires path == "/" + (a + l + b + r + c) && a != "" && a[0] != '/'
    ensures EncodedPath(path) == Quote(a) + Quote(l) + Quote(b) + Quote(r) + Quote(c)
  {
    var body := a + l + b + r + c;
    assert body[0] == a[0];
    assert path[1..] == body;
    assert LStripChar(path, '/') == LStripChar(body, '/') == body;
    QuoteFivePieces(a, l, b, r, c);
  }

  /** A path such as `"/test/[1].txt"`: brackets are sent as `%5B` and
      `%5D` and the kept text around them as it is. */
  lemma EncodedPathBrackets(path: string, a: string, b: string, c: string)
    requires path == "/" + a + "[" + b + "]" + c
    requires a != "" && a[0] != '/' && AllKept(a) && AllKept(b) && AllKept(c)
    ensures EncodedPath(path) == a + "%5B" + b + "%5D" + c
  {
    assert path == "/" + (a + "[" + b + "]" + c);
    EncodedPathPieces(path, a, "[", b, "]", c);
    QuoteUnchanged(a);
    QuoteUnchanged(b);
    QuoteUnchanged(c);
    QuoteBrackets("[", "]");
  }

  // ---------------------------------------------------------------------------
  // Parameters and bodies
  // ---------------------------------------------------------------------------

  /** `1 if flag else 0`. */
  function Flag(b: bool): (r: int)
    ensures r == 0 || r == 1
    ensures r == 1 <==> b
  {
    if b then 1 else 0
  }

  /** A key that is present only when its value is given. */
  function OptionalEntry(m: map<string, Json>, key: string, value: Option<Json>): (r: map<string, Json>)
    ensures value.None? ==> r == m
    ensures value.Some? ==> r == m[key := value.value]
  {
    if value.Some? then m[key := value.value] else m
  }

  function OptionalFlag(recursive: Option<bool>): Option<Json> {
    if recursive.Some? then Some(JInt(Flag(recursive.value))) else None
  }

  function OptionalString(s: Option<string>): Option<Json> {
    if s.Some? then Some(JString(s.value)) else None
  }

  /** `list`'s query parameters. */
  function ListParams(pageToken: Option<string>): (r: map<string, Json>)
    ensures "pageToken" in r <==> pageToken.Some?
    ensures pageToken.Some? ==> r == map["pageToken" := JString(pageToken.value)]
  {
    OptionalEntry(map[], "pageToken", OptionalString(pageToken))
  }

  /** `create_directory`'s query parameters. */
  function CreateDirectoryParams(parents: bool): (r: map<string, Json>)
    ensures r.Keys == {"parents"} && r["parents"] == JInt(Flag(parents))
  {
    map["parents" := JInt(Flag(parents))]
  }

  /** `copy`'s query parameters; `recursive` defaults to `Some(false)`. */
  function CopyParams(source: string, recursive: Option<bool>): (r: map<string, Json>)
    ensures "sourcePath" in r && r["sourcePath"] == JString(source)
    ensures "recursive" in r <==> recursive.Some?
    ensures recursive.Some? ==> r["recursive"] == JInt(Flag(recursive.value))
    ensures r.Keys <= {"sourcePath", "recursive"}
  {
    OptionalEntry(map["sourcePath" := JString(source)], "recursive", OptionalFlag(recursive))
  }

  /** `delete`'s query parameters; `recursive` defaults to `Some(false)`. */
  function DeleteParams(recursive: Option<bool>): (r: map<string, Json>)
    ensures "recursive" in r <==> recursive.Some?
    ensures recursive.Some? ==> r["recursive"] == JInt(Flag(recursive.value))
    ensures r.Keys <= {"recursive"}
  {
    OptionalEntry(map[], "recursive", OptionalFlag(recursive))
  }

  /** The default `recursive=False` sends `recursive=0`. */
  lemma DefaultRecursiveIsZero(source: string)
    ensures CopyParams(source, Some(false))["recursive"] == JInt(0)
    ensures DeleteParams(Some(false)) == map["recursive" := JInt(0)]
  {
  }

  /** `presign_download`'s body. */
  function PresignDownloadBody(path: string, disposition: Option<string>): (r: map<string, Json>)
    ensures "path" in r && r["path"] == JString(path)
    ensures "responseContentDisposition" in r <==> disposition.Some?
    ensures disposition.Some? ==> r["responseContentDisposition"] == JString(disposition.value)
    ensures r.Keys <= {"path", "responseContentDisposition"}
  {
    OptionalEntry(map["path" := JString(path)], "responseContentDisposition", OptionalString(disposition))
  }

  /** `presign_upload_part`'s body. */
  function PresignUploadPartBody(path: string, uploadId: string, partNumber: nat): map<string, Json> {
    map["path" := JString(path), "uploadId" := JString(uploadId), "partNumber" := JInt(partNumber)]
  }

  function PartJson(p: CompletedUploadPart): Json {
    JObject(map["partNumber" := JInt(p.partNumber), "etag" := JString(p.etag)])
  }

  /** `_CompleteMultipartUploadSchema().dump(...)`: the parts keep their
      order. */
  function CompleteMultipartUploadBody(path: string, uploadId: string, parts: seq<CompletedUploadPart>): (r: Json)
    ensures r.JObject? && r.fields.Keys == {"path", "uploadId", "parts"}
    ensures r.fields["path"] == JString(path) && r.fields["uploadId"] == JString(uploadId)
    ensures r.fields["parts"].JArray? && |r.fields["parts"].items| == |parts|
  {
    JObject(map["path" := JString(path), "uploadId" := JString(uploadId),
                "parts" := JArray(seq(|parts|, i requires 0 <= i < |parts| => PartJson(parts[i])))])
  }

  /** Reading one part back from its JSON. */
  function PartFromJson(j: Json): Option<CompletedUploadPart> {
    if j.JObject? && "partNumber" in j.fields && "etag" in j.fields
      && j.fields["partNumber"].JInt? && j.fields["partNumber"].i >= 0 && j.fields["etag"].JString?
    then Some(CompletedUploadPart(j.fields["partNumber"].i, j.fields["etag"].s))
    else None
  }

  /** The dumped body names the path and the upload, and lists exactly the
      given parts, in order. */
  lemma CompleteMultipartUploadParts(path: string, uploadId: string, parts: seq<CompletedUploadPart>)
    ensures var body := CompleteMultipartUploadBody(path, uploadId, parts).fields;
      && body["path"] == JString(path) && body["uploadId"] == JString(uploadId)
      && |body["parts"].items| == |parts|
      && forall i :: 0 <= i < |parts| ==> PartFromJson(body["parts"].items[i]) == Some(parts[i])
  {
  }

  // ---------------------------------------------------------------------------
  // Error mapping
  // ---------------------------------------------------------------------------

  predicate HasCode(err: FacultyBase.HttpError, cls: FacultyBase.ErrorClass, code: string) {
    err.cls == cls && err.errorCode == Some(code)
  }

  /** `create_directory`: a conflict with `object_already_exists` becomes
      `PathAlreadyExists`; every other error is re-raised. */
  function CreateDirectoryError(err: FacultyBase.HttpError, path: string): (r: ObjectError)
    ensures r == PathAlreadyExists(path) <==> HasCode(err, FacultyBase.Conflict, "object_already_exists")
    ensures r != PathAlreadyExists(path) ==> r == Http(err)
  {
    if HasCode(err, FacultyBase.Conflict, "object_already_exists") then PathAlreadyExists(path) else Http(err)
  }

  /** `copy`: `source_path_not_found` (not found) and `source_is_a_directory`
      (bad request) become domain errors about the source. */
  function CopyError(err: FacultyBase.HttpError, source: string): (r: ObjectError)
    ensures r == PathNotFound(source) <==> HasCode(err, FacultyBase.NotFound, "source_path_not_found")
    ensures r == SourceIsADirectory(source) <==> HasCode(err, FacultyBase.BadRequest, "source_is_a_directory")
    ensures r.PathNotFound? || r.SourceIsADirectory? || r == Http(err)
  {
    if HasCode(err, FacultyBase.NotFound, "source_path_not_found") then PathNotFound(source)
    else if HasCode(err, FacultyBase.BadRequest, "source_is_a_directory") then SourceIsADirectory(source)
    else Http(err)
  }

  /** `delete`: `object_not_found` (not found) and `target_is_a_directory`
      (bad request) become domain errors about the path. */
  function DeleteError(err: FacultyBase.HttpError, path: string): (r: ObjectError)
    ensures r == PathNotFound(path) <==> HasCode(err, FacultyBase.NotFound, "object_not_found")
    ensures r == TargetIsADirectory(path) <==> HasCode(err, FacultyBase.BadRequest, "target_is_a_directory")
    ensures r.PathNotFound? || r.TargetIsADirectory? || r == Http(err)
  {
    if HasCode(err, FacultyBase.NotFound, "object_not_found") then PathNotFound(path)
    else if HasCode(err, FacultyBase.BadRequest, "target_is_a_directory") then TargetIsADirectory(path)
    else Http(err)
  }

  /** The outcome of a request whose response had `status` and `body`:
      the status check, then the operation's own mapping. */
  function Outcome(status: int, body: Option<Json>, mapping: FacultyBase.HttpError -> ObjectError): Result<(), ObjectError> {
    match FacultyBase.CheckStatus(status, body)
    case None => Ok(())
    case Some(err) => Err(mapping(err))
  }

  /** A 409 response whose body carries `errorCode: object_already_exists`
      makes `create_directory` raise `PathAlreadyExists`; a 409 with any
      other code re-raises the conflict. */
  lemma CreateDirectoryConflict(path: string, fields: map<string, Json>, code: string)
    requires "errorCode" in fields && fields["errorCode"] == JString(code)
    requires "error" !in fields
    ensures var r := Outcome(409, Some(JObject(fields)), e => CreateDirectoryError(e, path));
      r.Err? && (r.error == PathAlreadyExists(path) <==> code == "object_already_exists")
      && (code != "object_already_exists" ==> r.error.Http? && r.error.err.cls == FacultyBase.Conflict)
  {
  }

  /** A 404 with `source_path_not_found` makes `copy` raise `PathNotFound`
      for the source, and a 400 with `source_is_a_directory` raises
      `SourceIsADirectory`. */
  lemma CopyErrorResponses(source: string)
    ensures Outcome(404, Some(JObject(map["errorCode" := JString("source_path_not_found")])), e => CopyError(e, source))
      == Err(PathNotFound(source))
    ensures Outcome(400, Some(JObject(map["errorCode" := JString("source_is_a_directory")])), e => CopyError(e, source))
      == Err(SourceIsADirectory(source))
  {
  }

  /** A 404 with `object_not_found` makes `delete` raise `PathNotFound`, and
      a 400 with `target_is_a_directory` raises `TargetIsADirectory`. */
  lemma DeleteErrorResponses(path: string)
    ensures Outcome(404, Some(JObject(map["errorCode" := JString("object_not_found")])), e => DeleteError(e, path))
      == Err(PathNotFound(path))
    ensures Outcome(400, Some(JObject(map["errorCode" := JString("target_is_a_directory")])), e => DeleteError(e, path))
      == Err(TargetIsADirectory(path))
  {
  }
}
