/** The values of the experiment service client (`faculty/clients/experiment.py`
    and its successor package `faculty/clients/experiment/_models.py`):
    lifecycle stages, run statuses, filter and sort trees, pages and runs.
    UUIDs and datetimes are kept as their string forms, and metric values
    (floats) as integers. */
module ExperimentModels {
  import opened Wrappers

  datatype LifecycleStage = Active | Deleted

  datatype ExperimentRunStatus = Running | Finished | Failed | Scheduled | Killed

  /** The wire value of a run status. */
  function StatusWire(s: ExperimentRunStatus): string {
    match s
    case Running => "running"
    case Finished => "finished"
    case Failed => "failed"
    case Scheduled => "scheduled"
    case Killed => "killed"
  }

  datatype ComparisonOperator =
    | Defined | EqualTo | NotEqualTo | LessThan | LessThanOrEqualTo | GreaterThan | GreaterThanOrEqualTo

  /** The wire value of a comparison operator. */
  function ComparisonWire(op: ComparisonOperator): string {
    match op
    case Defined => "defined"
    case EqualTo => "eq"
    case NotEqualTo => "ne"
    case LessThan => "lt"
    case LessThanOrEqualTo => "le"
    case GreaterThan => "gt"
    case GreaterThanOrEqualTo => "ge"
  }

  /** Looking an operator up by its wire value, as `ComparisonOperator(s)` does. */
  function ComparisonFromWire(s: string): (r: Option<ComparisonOperator>)
    ensures r.Some? ==> ComparisonWire(r.value) == s
  {
    if s == "defined" then Some(Defined)
    else if s == "eq" then Some(EqualTo)
    else if s == "ne" then Some(NotEqualTo)
    else if s == "lt" then Some(LessThan)
    else if s == "le" then Some(LessThanOrEqualTo)
    else if s == "gt" then Some(GreaterThan)
    else if s == "ge" then Some(GreaterThanOrEqualTo)
    else None
  }

  /** Every operator is found again from its wire value, so no two
      operators share one. */
  lemma ComparisonWireRoundTrip(op: ComparisonOperator)
    ensures ComparisonFromWire(ComparisonWire(op)) == Some(op)
  {
  }

  datatype LogicalOperator = And | Or

  function LogicalWire(op: LogicalOperator): string {
    match op
    case And => "and"
    case Or => "or"
  }

  datatype SortOrder = Asc | Desc

  function OrderWire(o: SortOrder): string {
    match o
    case Asc => "asc"
    case Desc => "desc"
  }

  /** The Python value a filter carries, by its type: `bool`, `int`, `str`,
      `uuid.UUID`, `ExperimentRunStatus` or `datetime`. */
  datatype FilterValue =
    | VBool(b: bool)
    | VInt(i: int)
    | VString(s: string)
    | VUuid(uuid: string)
    | VStatus(status: ExperimentRunStatus)
    | VTime(time: string)

  /** The single filters and `CompoundFilter`. */
  datatype Filter =
    | ProjectIdFilter(operator: ComparisonOperator, value: FilterValue)
    | ExperimentIdFilter(operator: ComparisonOperator, value: FilterValue)
    | RunIdFilter(operator: ComparisonOperator, value: FilterValue)
    | RunStatusFilter(operator: ComparisonOperator, value: FilterValue)
    | DeletedAtFilter(operator: ComparisonOperator, value: FilterValue)
    | TagFilter(key: string, operator: ComparisonOperator, value: FilterValue)
    | ParamFilter(key: string, operator: ComparisonOperator, value: FilterValue)
    | MetricFilter(key: string, operator: ComparisonOperator, value: FilterValue)
    | CompoundFilter(logical: LogicalOperator, conditions: seq<Filter>)

  /** The filters that name a tag, param or metric by key. */
  predicate Keyed(f: Filter) {
    f.TagFilter? || f.ParamFilter? || f.MetricFilter?
  }

  datatype Sort =
    | StartedAtSort(order: SortOrder)
    | RunNumberSort(order: SortOrder)
    | DurationSort(order: SortOrder)
    | TagSort(key: string, order: SortOrder)
    | ParamSort(key: string, order: SortOrder)
    | MetricSort(key: string, order: SortOrder)

  datatype Page = Page(start: int, limit: int)

  datatype Pagination = Pagination(start: int, size: int, previous: Option<Page>, next: Option<Page>)

  datatype Metric = Metric(key: string, value: int, timestamp: string, step: int)

  datatype Param = Param(key: string, value: string)

  datatype Tag = Tag(key: string, value: string)

  datatype RunQuery = RunQuery(filter: Option<Filter>, sort: Option<seq<Sort>>, page: Option<Page>)

  /** The client's `ExperimentRun`. */
  datatype ClientRun = ClientRun(
    id: string, runNumber: int, experimentId: int, name: string, parentRunId: Option<string>,
    artifactLocation: string, status: ExperimentRunStatus, startedAt: string, endedAt: Option<string>,
    deletedAt: Option<string>, tags: seq<Tag>, params: seq<Param>, metrics: seq<Metric>)

  datatype ListExperimentRunsResponse = ListExperimentRunsResponse(runs: seq<ClientRun>, pagination: Pagination)

  datatype MetricDataPoint = MetricDataPoint(value: int, timestamp: string, step: int)

  datatype MetricHistory = MetricHistory(originalSize: int, subsampled: bool, key: string, history: seq<MetricDataPoint>)
}
