/** `faculty/context.py`: the platform context read from environment
    variables. The environment is a map; the parsing that `UUID(...)` and
    `int(...)` do is a parameter, `str(...)` never fails; the warning
    `warnings.warn` emits is returned alongside the value. */
module Context {
  import opened Wrappers

  /** A UUID, by its 128-bit value. */
  datatype Uuid = Uuid(value: int)

  datatype PlatformContext = PlatformContext(
    projectId: Option<Uuid>,
    serverId: Option<Uuid>,
    serverName: Option<string>,
    serverCpus: Option<int>,
    serverGpus: Option<int>,
    serverMemoryMb: Option<int>,
    appId: Option<Uuid>,
    apiId: Option<Uuid>,
    jobId: Option<Uuid>,
    jobName: Option<string>,
    jobRunId: Option<Uuid>,
    jobRunNumber: Option<int>,
    jobSubrunId: Option<Uuid>,
    jobSubrunNumber: Option<int>)

  /** What `_get_environ_as_type` gives: the value, if any, and the warning
      it emitted, if any. */
  datatype Lookup<T> = Lookup(value: Option<T>, warning: Option<string>)

  /** `_get_environ_as_type(key, cls)`, `parse` standing for `cls`: nothing
      for a missing variable, the parsed value for a good one, and for a bad
      one nothing with a warning that quotes the variable. */
  function GetEnvironAsType<T>(environ: map<string, string>, key: string, parse: string -> Option<T>): (r: Lookup<T>)
    ensures key !in environ ==> r == Lookup(None, None)
    ensures key in environ && parse(environ[key]).Some? ==> r == Lookup(parse(environ[key]), None)
    ensures key in environ && parse(environ[key]).None? ==>
      r.value.None? && r.warning == Some(BadlyFormatted(key, environ[key]))
    ensures r.warning.Some? ==> r.value.None?
  {
    if key !in environ then Lookup(None, None)
    else
      match parse(environ[key])
      case Some(v) => Lookup(Some(v), None)
      case None => Lookup(None, Some(BadlyFormatted(key, environ[key])))
  }

  function BadlyFormatted(key: string, value: string): string {
    "Error interpreting badly formatted environment variable " + key + "=" + value
  }

  /** `str(...)`. */
  function ParseStr(s: string): Option<string> { Some(s) }

  function Value<T>(environ: map<string, string>, key: string, parse: string -> Option<T>): Option<T> {
    GetEnvironAsType(environ, key, parse).value
  }

  /** `get_context()`: each field from its own variable. */
  function GetContext(environ: map<string, string>, parseUuid: string -> Option<Uuid>, parseInt: string -> Option<int>): (r: PlatformContext)
    ensures r.projectId == GetEnvironAsType(environ, "FACULTY_PROJECT_ID", parseUuid).value
    ensures r.serverId == GetEnvironAsType(environ, "FACULTY_SERVER_ID", parseUuid).value
    ensures r.serverName == GetEnvironAsType(environ, "FACULTY_SERVER_NAME", ParseStr).value
    ensures r.serverCpus == GetEnvironAsType(environ, "NUM_CPUS", parseInt).value
    ensures r.serverGpus == GetEnvironAsType(environ, "NUM_GPUS", parseInt).value
    ensures r.serverMemoryMb == GetEnvironAsType(environ, "AVAILABLE_MEMORY_MB", parseInt).value
    ensures r.appId == GetEnvironAsType(environ, "FACULTY_APP_ID", parseUuid).value
    ensures r.apiId == GetEnvironAsType(environ, "FACULTY_API_ID", parseUuid).value
    ensures r.jobId == GetEnvironAsType(environ, "FACULTY_JOB_ID", parseUuid).value
    ensures r.jobName == GetEnvironAsType(environ, "FACULTY_JOB_NAME", ParseStr).value
    ensures r.jobRunId == GetEnvironAsType(environ, "FACULTY_RUN_ID", parseUuid).value
    ensures r.jobRunNumber == GetEnvironAsType(environ, "FACULTY_RUN_NUMBER", parseInt).value
    ensures r.jobSubrunId == GetEnvironAsType(environ, "FACULTY_SUBRUN_ID", parseUuid).value
    ensures r.jobSubrunNumber == GetEnvironAsType(environ, "FACULTY_SUBRUN_NUMBER", parseInt).value
  {
    PlatformContext(
      Value(environ, "FACULTY_PROJECT_ID", parseUuid),
      Value(environ, "FACULTY_SERVER_ID", parseUuid),
      Value(environ, "FACULTY_SERVER_NAME", ParseStr),
      Value(environ, "NUM_CPUS", parseInt),
      Value(environ, "NUM_GPUS", parseInt),
      Value(environ, "AVAILABLE_MEMORY_MB", parseInt),
      Value(environ, "FACULTY_APP_ID", parseUuid),
      Value(environ, "FACULTY_API_ID", parseUuid),
      Value(environ, "FACULTY_JOB_ID", parseUuid),
      Value(environ, "FACULTY_JOB_NAME", ParseStr),
      Value(environ, "FACULTY_RUN_ID", parseUuid),
      Value(environ, "FACULTY_RUN_NUMBER", parseInt),
      Value(environ, "FACULTY_SUBRUN_ID", parseUuid),
      Value(environ, "FACULTY_SUBRUN_NUMBER", parseInt))
  }

  const NoneContext := PlatformContext(None, None, None, None, None, None, None, None, None, None, None, None, None, None)

  /** Outside the platform, with no variables set, every field is empty. */
  lemma EmptyEnvironment(parseUuid: string -> Option<Uuid>, parseInt: string -> Option<int>)
    ensures GetContext(map[], parseUuid, parseInt) == NoneContext
  {
  }

  /** A string variable is taken as it is, so it is never badly formatted. */
  lemma StringVariablesParse(environ: map<string, string>, key: string)
    requires key in environ
    ensures GetEnvironAsType(environ, key, ParseStr) == Lookup(Some(environ[key]), None)
  {
  }

  /** A badly formatted project id leaves the project unknown, as if it
      were not set. */
  lemma BadProjectId(environ: map<string, string>, parseUuid: string -> Option<Uuid>, parseInt: string -> Option<int>)
    requires "FACULTY_PROJECT_ID" in environ && parseUuid(environ["FACULTY_PROJECT_ID"]).None?
    ensures GetContext(environ, parseUuid, parseInt).projectId
            == GetContext(environ - {"FACULTY_PROJECT_ID"}, parseUuid, parseInt).projectId
            == None
  {
  }
}
