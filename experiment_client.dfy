/** `ExperimentClient` (`faculty/clients/experiment.py` and
    `faculty/clients/experiment/_client.py`): the endpoint and JSON payload
    each operation sends, the answers given without a request, and the
    mapping of conflict errors to the client's own exceptions. The HTTP
    exchange itself is not modelled: an operation yields the request to
    send, and the handling of the response is a separate function. */
module ExperimentClient {
  import opened Wrappers
  import opened Strings
  import opened Json
  import opened FacultyBase
  import opened ExperimentModels
  import opened ExperimentSchemas

  /** What an operation does: answer at once, send `payload` to `endpoint`,
      or fail while serialising the payload. */
  datatype Call<T> = Answered(result: T) | Send(endpoint: string, payload: Json) | Invalid(message: string)

  datatype DeleteExperimentRunsResponse = DeleteExperimentRunsResponse(deletedRunIds: seq<string>, conflictedRunIds: seq<string>)

  datatype RestoreExperimentRunsResponse = RestoreExperimentRunsResponse(restoredRunIds: seq<string>, conflictedRunIds: seq<string>)

  /** The client's exceptions, and an `HttpError` re-raised as it is. */
  datatype ExperimentError =
    | ExperimentNameConflict(message: string)
    | ExperimentDeleted(detail: Option<string>, experimentId: Json)
    | ParamConflict(detail: Option<string>, conflictingParams: Json)
    | Raised(error: HttpError)
    | BodyError(message: string)

  function NullOr(s: Option<string>): Json {
    if s.Some? then JString(s.value) else JNull
  }

  /** The list of dumps of `xs`, or `null` for None. */
  function ListOrNull<T>(xs: Option<seq<T>>, dump: T -> Json): (r: Json)
    ensures r == JNull <==> xs.None?
    ensures xs.Some? ==> r.JArray? && |r.items| == |xs.value| && forall i | 0 <= i < |xs.value| :: r.items[i] == dump(xs.value[i])
  {
    if xs.None? then JNull else JArray(seq(|xs.value|, i requires 0 <= i < |xs.value| => dump(xs.value[i])))
  }

  function DumpTag(t: Tag): Json {
    JObject(map["key" := JString(t.key), "value" := JString(t.value)])
  }

  function DumpParam(p: Param): Json {
    JObject(map["key" := JString(p.key), "value" := JString(p.value)])
  }

  function DumpMetric(m: Metric): Json {
    JObject(map["key" := JString(m.key), "value" := JInt(m.value), "timestamp" := JString(m.timestamp), "step" := JInt(m.step)])
  }

  // Experiments

  /** `create`: the endpoint and the payload, with `null` for absent fields. */
  function CreateExperiment(projectId: string, name: string, description: Option<string>, artifactLocation: Option<string>)
    : (r: Call<()>)
    ensures r.Send? && r.endpoint == "/project/" + projectId + "/experiment"
    ensures r.payload.JObject? && r.payload.fields.Keys == {"name", "description", "artifactLocation"}
    ensures r.payload.fields["name"] == JString(name)
    ensures r.payload.fields["description"] == JNull <==> description.None?
    ensures r.payload.fields["artifactLocation"] == JNull <==> artifactLocation.None?
  {
    Send("/project/" + projectId + "/experiment",
         JObject(map["name" := JString(name), "description" := NullOr(description),
                     "artifactLocation" := NullOr(artifactLocation)]))
  }

  /** `update`: name and description, `null` when not given. */
  function UpdateExperiment(projectId: string, experimentId: int, name: Option<string>, description: Option<string>)
    : (r: Call<()>)
    ensures r.Send? && r.endpoint == "/project/" + projectId + "/experiment/" + IntToString(experimentId)
    ensures r.payload.JObject? && r.payload.fields.Keys == {"name", "description"}
    ensures r.payload.fields["name"] == JNull <==> name.None?
    ensures r.payload.fields["description"] == JNull <==> description.None?
  {
    Send("/project/" + projectId + "/experiment/" + IntToString(experimentId),
         JObject(map["name" := NullOr(name), "description" := NullOr(description)]))
  }

  function NameConflictMessage(name: string): string {
    "An experiment with name '" + name + "' already exists in that project"
  }

  /** The `except Conflict` of `create` and `update`: a name conflict becomes
      `ExperimentNameConflict(name)`, anything else is re-raised. */
  function NameConflictError(e: HttpError, name: string): (r: ExperimentError)
    ensures r.ExperimentNameConflict? <==> e.cls == Conflict && e.errorCode == Some("experiment_name_conflict")
    ensures r.ExperimentNameConflict? ==> r.message == NameConflictMessage(name)
    ensures !r.ExperimentNameConflict? ==> r == Raised(e)
  {
    if e.cls == Conflict && e.errorCode == Some("experiment_name_conflict") then ExperimentNameConflict(NameConflictMessage(name))
    else Raised(e)
  }

  // Runs

  /** `create_run`: the `_CreateRunSchema` dump, with no tags meaning `[]`. */
  function CreateRun(projectId: string, experimentId: int, name: string, startedAt: string,
                     parentRunId: Option<string>, artifactLocation: Option<string>, tags: Option<seq<Tag>>)
    : (r: Call<()>)
    ensures r.Send? && r.endpoint == "/project/" + projectId + "/experiment/" + IntToString(experimentId) + "/run"
    ensures r.payload.JObject?
    ensures r.payload.fields.Keys == {"name", "parentRunId", "startedAt", "artifactLocation", "tags"}
    ensures r.payload.fields["name"] == JString(name) && r.payload.fields["startedAt"] == JString(startedAt)
    ensures r.payload.fields["parentRunId"] == NullOr(parentRunId)
    ensures r.payload.fields["artifactLocation"] == NullOr(artifactLocation)
    ensures r.payload.fields["tags"] == ListOrNull(Some(if tags.Some? then tags.value else []), DumpTag)
  {
    var tagList := if tags.Some? then tags.value else [];
    Send("/project/" + projectId + "/experiment/" + IntToString(experimentId) + "/run",
         JObject(map["name" := JString(name), "parentRunId" := NullOr(parentRunId), "startedAt" := JString(startedAt),
                     "artifactLocation" := NullOr(artifactLocation), "tags" := ListOrNull(Some(tagList), DumpTag)]))
  }

  /** `err.response.json()[key]`: fails when the body is not a JSON object
      holding `key`. */
  function BodyKey(body: Option<Json>, key: string): (r: Result<Json, string>)
    ensures r.Ok? <==> body.Some? && body.value.JObject? && key in body.value.fields
    ensures r.Ok? ==> r.value == body.value.fields[key]
  {
    if body.Some? && body.value.JObject? && key in body.value.fields then Ok(body.value.fields[key])
    else Err("KeyError: '" + key + "'")
  }

  /** The `except Conflict` of `create_run`: `experiment_deleted` becomes
      `ExperimentDeleted` with the body's `experimentId`. */
  function CreateRunError(e: HttpError, body: Option<Json>): (r: ExperimentError)
    ensures r.ExperimentDeleted? || r.BodyError? <==> e.cls == Conflict && e.errorCode == Some("experiment_deleted")
    ensures r.ExperimentDeleted? ==> r.detail == e.error && BodyKey(body, "experimentId") == Ok(r.experimentId)
    ensures r.BodyError? ==> BodyKey(body, "experimentId").Err?
    ensures !(r.ExperimentDeleted? || r.BodyError?) ==> r == Raised(e)
  {
    if e.cls == Conflict && e.errorCode == Some("experiment_deleted") then
      match BodyKey(body, "experimentId")
      case Ok(id) => ExperimentDeleted(e.error, id)
      case Err(m) => BodyError(m)
    else Raised(e)
  }

  /** `Page(start, limit)` only when both are given. */
  function QueryPage(start: Option<int>, limit: Option<int>): (r: Option<Page>)
    ensures r.Some? <==> start.Some? && limit.Some?
    ensures r.Some? ==> r.value == Page(start.value, limit.value)
  {
    if start.Some? && limit.Some? then Some(Page(start.value, limit.value)) else None
  }

  /** `query_runs`: post the dumped query; a filter that does not dump fails
      before anything is sent. */
  function QueryRuns(projectId: string, filter: Option<Filter>, sort: Option<seq<Sort>>, start: Option<int>, limit: Option<int>)
    : (r: Call<ListExperimentRunsResponse>)
    ensures !r.Answered?
    ensures r.Invalid? <==> filter.Some? && !Serialisable(filter.value)
    ensures r.Send? ==>
      r.endpoint == "/project/" + projectId + "/run/query"
      && r.payload == DumpRunQuery(RunQuery(filter, sort, QueryPage(start, limit))).value
  {
    match DumpRunQuery(RunQuery(filter, sort, QueryPage(start, limit)))
    case Ok(payload) => Send("/project/" + projectId + "/run/query", payload)
    case Err(m) => Invalid(m)
  }

  /** `OR` of `ExperimentIdFilter(EQUAL_TO, id)`, one per id, in order. */
  function ExperimentIdsFilter(ids: seq<int>): (r: Filter)
    ensures r.CompoundFilter? && r.logical == Or && |r.conditions| == |ids|
    ensures forall i | 0 <= i < |ids| :: r.conditions[i] == ExperimentIdFilter(EqualTo, VInt(ids[i]))
    ensures Serialisable(r)
  {
    CompoundFilter(Or, seq(|ids|, i requires 0 <= i < |ids| => ExperimentIdFilter(EqualTo, VInt(ids[i]))))
  }

  /** `DeletedAtFilter(DEFINED, stage == DELETED)`: it dumps to a boolean
      that is true exactly for the deleted stage. */
  function LifecycleFilter(stage: LifecycleStage): (r: Filter)
    ensures Serialisable(r)
    ensures DumpFilter(r) == Ok(JObject(map["operator" := JString("defined"), "value" := JBool(stage == Deleted),
                                            "by" := JString("deletedAt")]))
  {
    DeletedAtFilter(Defined, VBool(stage == Deleted))
  }

  /** The filter `list_runs` queries with: both parts joined by AND, or the
      part that is present, or none. */
  function ListRunsFilter(experimentIds: Option<seq<int>>, stage: Option<LifecycleStage>): (r: Option<Filter>)
    ensures r.None? <==> experimentIds.None? && stage.None?
    ensures experimentIds.Some? && stage.Some? ==>
      r == Some(CompoundFilter(And, [ExperimentIdsFilter(experimentIds.value), LifecycleFilter(stage.value)]))
    ensures experimentIds.Some? && stage.None? ==> r == Some(ExperimentIdsFilter(experimentIds.value))
    ensures experimentIds.None? && stage.Some? ==> r == Some(LifecycleFilter(stage.value))
    ensures r.Some? ==> Serialisable(r.value)
  {
    var ids := if experimentIds.Some? then Some(ExperimentIdsFilter(experimentIds.value)) else None;
    var lifecycle := if stage.Some? then Some(LifecycleFilter(stage.value)) else None;
    if ids.Some? && lifecycle.Some? then
      var both := CompoundFilter(And, [ids.value, lifecycle.value]);
      assert forall i | 0 <= i < 2 :: Serialisable(both.conditions[i]);
      Some(both)
    else if ids.Some? then ids
    else lifecycle
  }

  /** `list_runs`: no experiment ids at all answers with an empty page and
      no request; otherwise it is `query_runs` without a sort, and it never
      fails to serialise. */
  function ListRuns(projectId: string, experimentIds: Option<seq<int>>, stage: Option<LifecycleStage>,
                    start: Option<int>, limit: Option<int>)
    : (r: Call<ListExperimentRunsResponse>)
    ensures r.Answered? <==> experimentIds == Some([])
    ensures r.Answered? ==> r.result == ListExperimentRunsResponse([], Pagination(0, 0, None, None))
    ensures !r.Invalid?
    ensures r.Send? ==> r == QueryRuns(projectId, ListRunsFilter(experimentIds, stage), None, start, limit)
  {
    if experimentIds == Some([]) then Answered(ListExperimentRunsResponse([], Pagination(0, 0, None, None)))
    else QueryRuns(projectId, ListRunsFilter(experimentIds, stage), None, start, limit)
  }

  /** `OR` of `RunIdFilter(EQUAL_TO, id)`, one per id, in order. */
  function RunIdsFilter(runIds: seq<string>): (r: Filter)
    ensures r.CompoundFilter? && r.logical == Or && |r.conditions| == |runIds|
    ensures forall i | 0 <= i < |runIds| :: r.conditions[i] == RunIdFilter(EqualTo, VUuid(runIds[i]))
    ensures Serialisable(r)
  {
    CompoundFilter(Or, seq(|runIds|, i requires 0 <= i < |runIds| => RunIdFilter(EqualTo, VUuid(runIds[i]))))
  }

  /** The body of a delete or restore query: `{}` selects every run of the
      project, otherwise the dumped run-id filter. */
  function RunsSelection(runIds: Option<seq<string>>): (r: Json)
    ensures r.JObject?
    ensures runIds.None? <==> r.fields == map[]
    ensures runIds.Some? ==>
      r.fields.Keys == {"filter"} && r.fields["filter"] == DumpFilter(RunIdsFilter(runIds.value)).value
  {
    if runIds.None? then JObject(map[])
    else
      var fields := map["filter" := DumpFilter(RunIdsFilter(runIds.value)).value];
      assert "filter" in fields;
      JObject(fields)
  }

  /** `delete_runs`: an empty list answers with empty lists and no request. */
  function DeleteRuns(projectId: string, runIds: Option<seq<string>>): (r: Call<DeleteExperimentRunsResponse>)
    ensures r.Answered? <==> runIds == Some([])
    ensures r.Answered? ==> r.result == DeleteExperimentRunsResponse([], [])
    ensures !r.Invalid?
    ensures r.Send? ==> r.endpoint == "/project/" + projectId + "/run/delete/query" && r.payload == RunsSelection(runIds)
  {
    if runIds == Some([]) then Answered(DeleteExperimentRunsResponse([], []))
    else Send("/project/" + projectId + "/run/delete/query", RunsSelection(runIds))
  }

  /** `restore_runs`: an empty list answers with empty lists and no request. */
  function RestoreRuns(projectId: string, runIds: Option<seq<string>>): (r: Call<RestoreExperimentRunsResponse>)
    ensures r.Answered? <==> runIds == Some([])
    ensures r.Answered? ==> r.result == RestoreExperimentRunsResponse([], [])
    ensures !r.Invalid?
    ensures r.Send? ==> r.endpoint == "/project/" + projectId + "/run/restore/query" && r.payload == RunsSelection(runIds)
  {
    if runIds == Some([]) then Answered(RestoreExperimentRunsResponse([], []))
    else Send("/project/" + projectId + "/run/restore/query", RunsSelection(runIds))
  }

  /** A run-id selection names each run by an `eq` condition on `runId`,
      in the order given. */
  lemma RunsSelectionNamesRuns(runIds: seq<string>, k: nat)
    requires k < |runIds|
    ensures var cond := RunsSelection(Some(runIds)).fields["filter"].fields["conditions"].items[k];
      cond == JObject(map["operator" := JString("eq"), "value" := JString(runIds[k]), "by" := JString("runId")])
  {
    var f := RunIdsFilter(runIds);
    DumpCompound(Or, f.conditions, k);
    var c := f.conditions[k];
    assert c == RunIdFilter(EqualTo, VUuid(runIds[k]));
    assert DumpSingle(c).value == map["operator" := JString("eq"), "value" := JString(runIds[k]), "by" := JString("runId")];
  }

  /** `log_run_data`: nothing is sent when metrics, params and tags are all
      None; otherwise each is a list of dumps or `null`. */
  function LogRunData(projectId: string, runId: string, metrics: Option<seq<Metric>>, params: Option<seq<Param>>,
                      tags: Option<seq<Tag>>)
    : (r: Call<()>)
    ensures r.Answered? <==> metrics.None? && params.None? && tags.None?
    ensures !r.Invalid?
    ensures r.Send? ==>
      r.endpoint == "/project/" + projectId + "/run/" + runId + "/data"
      && r.payload.JObject? && r.payload.fields.Keys == {"metrics", "params", "tags"}
      && r.payload.fields["metrics"] == ListOrNull(metrics, DumpMetric)
      && r.payload.fields["params"] == ListOrNull(params, DumpParam)
      && r.payload.fields["tags"] == ListOrNull(tags, DumpTag)
  {
    if metrics.None? && params.None? && tags.None? then Answered(())
    else Send("/project/" + projectId + "/run/" + runId + "/data",
              JObject(map["metrics" := ListOrNull(metrics, DumpMetric), "params" := ListOrNull(params, DumpParam),
                          "tags" := ListOrNull(tags, DumpTag)]))
  }

  /** The `except Conflict` of `log_run_data`: `conflicting_params` becomes
      `ParamConflict` with the body's `parameterKeys`, a `null` standing for
      the empty list. */
  function LogRunDataError(e: HttpError, body: Option<Json>): (r: ExperimentError)
    ensures r.ParamConflict? || r.BodyError? <==> e.cls == Conflict && e.errorCode == Some("conflicting_params")
    ensures r.ParamConflict? ==>
      r.detail == e.error
      && BodyKey(body, "parameterKeys").Ok?
      && r.conflictingParams == (if BodyKey(body, "parameterKeys").value == JNull then JArray([]) else BodyKey(body, "parameterKeys").value)
    ensures r.BodyError? ==> BodyKey(body, "parameterKeys").Err?
    ensures !(r.ParamConflict? || r.BodyError?) ==> r == Raised(e)
  {
    if e.cls == Conflict && e.errorCode == Some("conflicting_params") then
      match BodyKey(body, "parameterKeys")
      case Ok(keys) => ParamConflict(e.error, if keys == JNull then JArray([]) else keys)
      case Err(m) => BodyError(m)
    else Raised(e)
  }

  /** `get_metric_history`'s result: one metric per data point, in order,
      each carrying the history's key. */
  function MetricsOf(h: MetricHistory): (r: seq<Metric>)
    ensures |r| == |h.history|
    ensures forall i | 0 <= i < |r| ::
      r[i].key == h.key && MetricDataPoint(r[i].value, r[i].timestamp, r[i].step) == h.history[i]
  {
    seq(|h.history|, i requires 0 <= i < |h.history| => Metric(h.key, h.history[i].value, h.history[i].timestamp, h.history[i].step))
  }

  /** The data points are recovered from the metrics, so none is lost. */
  lemma MetricsOfLossless(h: MetricHistory)
    ensures seq(|MetricsOf(h)|, i requires 0 <= i < |MetricsOf(h)| =>
              MetricDataPoint(MetricsOf(h)[i].value, MetricsOf(h)[i].timestamp, MetricsOf(h)[i].step)) == h.history
  {
  }
}
