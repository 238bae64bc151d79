/** The marshmallow schemas that serialise filters, sorts and run queries for
    the experiment service (`faculty/clients/experiment.py` and
    `faculty/clients/experiment/_schemas.py`): the discrete-operator rule,
    the value field that switches to a boolean under DEFINED, and the
    one-of schemas whose `"type"` key is removed after dumping. */
module ExperimentSchemas {
  import opened Wrappers
  import opened Json
  import opened ExperimentModels

  const DiscreteError := "Not a discrete operator."

  const ParamValueError := "Param values must be of type " + "str, int or float."

  /** The operators that make sense on values without an order. */
  predicate IsDiscrete(op: ComparisonOperator) {
    op == Defined || op == EqualTo || op == NotEqualTo
  }

  /** `_validate_discrete(operator)`. */
  function ValidateDiscrete(op: ComparisonOperator): (r: Result<(), string>)
    ensures r.Ok? <==> op in {Defined, EqualTo, NotEqualTo}
    ensures r.Err? ==> r.error == DiscreteError
  {
    if IsDiscrete(op) then Ok(()) else Err(DiscreteError)
  }

  /** The `other_field_type` each single filter's `_FilterValueField` wraps. */
  datatype ValueField = UuidField | IntegerField | StatusField | DateTimeField | StringField | ParamValueField | FloatField

  function FieldOf(f: Filter): ValueField
    requires !f.CompoundFilter?
  {
    match f
    case ProjectIdFilter(_, _) => UuidField
    case ExperimentIdFilter(_, _) => IntegerField
    case RunIdFilter(_, _) => UuidField
    case RunStatusFilter(_, _) => StatusField
    case DeletedAtFilter(_, _) => DateTimeField
    case TagFilter(_, _, _) => StringField
    case ParamFilter(_, _, _) => ParamValueField
    case MetricFilter(_, _, _) => FloatField
  }

  /** The constant `by` field of each single filter schema. */
  function FilterBy(f: Filter): string
    requires !f.CompoundFilter?
  {
    match f
    case ProjectIdFilter(_, _) => "projectId"
    case ExperimentIdFilter(_, _) => "experimentId"
    case RunIdFilter(_, _) => "runId"
    case RunStatusFilter(_, _) => "status"
    case DeletedAtFilter(_, _) => "deletedAt"
    case TagFilter(_, _, _) => "tag"
    case ParamFilter(_, _, _) => "param"
    case MetricFilter(_, _, _) => "metric"
  }

  /** The `pre_dump` hook's rule: which filters insist on a discrete
      operator. A param filter does so only for a string value. */
  predicate ChecksDiscrete(f: Filter)
    requires !f.CompoundFilter?
  {
    match f
    case ParamFilter(_, _, v) => v.VString?
    case DeletedAtFilter(_, _) => false
    case MetricFilter(_, _, _) => false
    case _ => true
  }

  /** The strings marshmallow's `Boolean` field maps to false. */
  const FalsyStrings: set<string> :=
    {"f", "F", "false", "False", "FALSE", "off", "Off", "OFF", "n", "N", "no", "No", "NO", "0"}

  /** `fields.Boolean()._serialize(value)`: the truthy and falsy tables,
      falling back to Python's `bool(value)`; this never fails. */
  function BooleanOf(v: FilterValue): bool {
    match v
    case VBool(b) => b
    case VInt(i) => i != 0
    case VString(s) => s != "" && s !in FalsyStrings
    case _ => true
  }

  /** The values a field serialises. A param value is a `str` or an `int`
      (Python's `bool` is an `int`). */
  predicate Fits(field: ValueField, v: FilterValue) {
    match field
    case UuidField => v.VUuid?
    case IntegerField => v.VInt?
    case StatusField => v.VStatus?
    case DateTimeField => v.VTime?
    case StringField => v.VString?
    case ParamValueField => v.VString? || v.VInt? || v.VBool?
    case FloatField => v.VInt?
  }

  /** The wrapped field's `_serialize(value)`. */
  function SerialiseAs(field: ValueField, v: FilterValue): (r: Result<Json, string>)
    ensures r.Ok? <==> Fits(field, v)
    ensures field == ParamValueField && r.Err? ==> r.error == ParamValueError
    ensures r.Ok? && v.VString? ==> r.value == JString(v.s)
    ensures r.Ok? && v.VInt? ==> r.value == JInt(v.i)
  {
    match (field, v)
    case (UuidField, VUuid(u)) => Ok(JString(u))
    case (IntegerField, VInt(i)) => Ok(JInt(i))
    case (StatusField, VStatus(s)) => Ok(JString(StatusWire(s)))
    case (DateTimeField, VTime(t)) => Ok(JString(t))
    case (StringField, VString(s)) => Ok(JString(s))
    case (ParamValueField, VString(s)) => Ok(JString(s))
    case (ParamValueField, VInt(i)) => Ok(JInt(i))
    case (ParamValueField, VBool(b)) => Ok(JInt(if b then 1 else 0))
    case (ParamValueField, _) => Err(ParamValueError)
    case (FloatField, VInt(i)) => Ok(JInt(i))
    case _ => Err("Not a valid value for this field.")
  }

  /** `_FilterValueField._serialize`: a boolean under DEFINED, the wrapped
      field otherwise. */
  function SerialiseValue(f: Filter): (r: Result<Json, string>)
    requires !f.CompoundFilter?
    ensures f.operator == Defined ==> r == Ok(JBool(BooleanOf(f.value)))
    ensures f.operator != Defined ==> r == SerialiseAs(FieldOf(f), f.value)
  {
    if f.operator == Defined then Ok(JBool(BooleanOf(f.value))) else SerialiseAs(FieldOf(f), f.value)
  }

  /** Reference definition of the filters `_FilterSchema().dump` accepts:
      every single filter in the tree passes its discreteness check, and its
      value fits its field unless the operator is DEFINED. */
  predicate Serialisable(f: Filter)
    decreases f
  {
    match f
    case CompoundFilter(_, cs) => forall i | 0 <= i < |cs| :: Serialisable(cs[i])
    case _ =>
      (ChecksDiscrete(f) ==> IsDiscrete(f.operator))
      && (f.operator == Defined || Fits(FieldOf(f), f.value))
  }

  /** `{k: v for k, v in data.items() if k != "type"}`. */
  function WithoutType(fields: map<string, Json>): (r: map<string, Json>)
    ensures "type" !in r
    ensures forall k | k in fields && k != "type" :: k in r && r[k] == fields[k]
    ensures forall k | k in r :: k in fields
  {
    map k | k in fields && k != "type" :: fields[k]
  }

  /** `OneOfSchema`'s dump of an object as `fields`, with its class name
      recorded under `"type"`, and then that key removed again. */
  function OneOfDump(fields: map<string, Json>, typeName: string): (r: map<string, Json>)
    ensures "type" !in r
    ensures "type" !in fields ==> r == fields
  {
    WithoutType(fields["type" := JString(typeName)])
  }

  /** The class name `OneOfSchema` records under `"type"`. */
  function FilterTypeName(f: Filter): string {
    match f
    case ProjectIdFilter(_, _) => "ProjectIdFilter"
    case ExperimentIdFilter(_, _) => "ExperimentIdFilter"
    case RunIdFilter(_, _) => "RunIdFilter"
    case RunStatusFilter(_, _) => "RunStatusFilter"
    case DeletedAtFilter(_, _) => "DeletedAtFilter"
    case TagFilter(_, _, _) => "TagFilter"
    case ParamFilter(_, _, _) => "ParamFilter"
    case MetricFilter(_, _, _) => "MetricFilter"
    case CompoundFilter(_, _) => "CompoundFilter"
  }

  /** A single filter's schema dump: the `pre_dump` check first, then the
      value, `by` and `operator` fields, and `key` for keyed filters. */
  function DumpSingle(f: Filter): (r: Result<map<string, Json>, string>)
    requires !f.CompoundFilter?
    ensures r.Ok? <==> Serialisable(f)
    ensures ChecksDiscrete(f) && !IsDiscrete(f.operator) ==> r == Err(DiscreteError)
    ensures r.Ok? ==>
      r.value.Keys == (if Keyed(f) then {"key", "operator", "value", "by"} else {"operator", "value", "by"})
      && r.value["by"] == JString(FilterBy(f))
      && r.value["operator"] == JString(ComparisonWire(f.operator))
      && r.value["value"] == SerialiseValue(f).value
      && (Keyed(f) ==> r.value["key"] == JString(f.key))
  {
    if ChecksDiscrete(f) && ValidateDiscrete(f.operator).Err? then Err(DiscreteError)
    else
      var v :- SerialiseValue(f);
      var fields := map["operator" := JString(ComparisonWire(f.operator)), "value" := v, "by" := JString(FilterBy(f))];
      Ok(if Keyed(f) then fields["key" := JString(f.key)] else fields)
  }

  /** `_FilterSchema().dump(f)`, recursing into compound conditions. */
  function DumpFilter(f: Filter): (r: Result<Json, string>)
    decreases f, 1
    ensures r.Ok? <==> Serialisable(f)
    ensures r.Ok? ==> r.value.JObject? && "type" !in r.value.fields
    ensures r.Ok? && f.CompoundFilter? ==>
      r.value.fields.Keys == {"operator", "conditions"}
      && r.value.fields["operator"] == JString(LogicalWire(f.logical))
      && r.value.fields["conditions"].JArray?
      && |r.value.fields["conditions"].items| == |f.conditions|
    ensures r.Ok? && !f.CompoundFilter? ==> r.value.fields == DumpSingle(f).value
  {
    if f.CompoundFilter? then
      var cs :- DumpConditions(f, 0);
      var fields := map["operator" := JString(LogicalWire(f.logical)), "conditions" := JArray(cs)];
      Ok(JObject(OneOfDump(fields, FilterTypeName(f))))
    else
      var fields :- DumpSingle(f);
      Ok(JObject(OneOfDump(fields, FilterTypeName(f))))
  }

  /** The dumps of `f.conditions[i..]`, in order. */
  function DumpConditions(f: Filter, i: nat): (r: Result<seq<Json>, string>)
    requires f.CompoundFilter? && i <= |f.conditions|
    decreases f, 0, |f.conditions| - i
    ensures r.Ok? <==> forall k | i <= k < |f.conditions| :: Serialisable(f.conditions[k])
    ensures r.Ok? ==> |r.value| == |f.conditions| - i
  {
    if i == |f.conditions| then Ok([])
    else
      assert (forall k | i <= k < |f.conditions| :: Serialisable(f.conditions[k]))
        <==> Serialisable(f.conditions[i]) && forall k | i + 1 <= k < |f.conditions| :: Serialisable(f.conditions[k]);
      var head :- DumpFilter(f.conditions[i]);
      var tail :- DumpConditions(f, i + 1);
      Ok([head] + tail)
  }

  /** One step of `DumpConditions`: its `k`-th dump is the head's dump when
      `k` is 0, and the rest's `k - 1`-th otherwise. */
  lemma DumpConditionsUnfold(f: Filter, i: nat, k: nat)
    requires f.CompoundFilter? && i < |f.conditions|
    requires DumpConditions(f, i).Ok? && k < |f.conditions| - i
    ensures DumpFilter(f.conditions[i]).Ok? && DumpConditions(f, i + 1).Ok?
    ensures k == 0 ==> DumpConditions(f, i).value[k] == DumpFilter(f.conditions[i]).value
    ensures k > 0 ==> DumpConditions(f, i).value[k] == DumpConditions(f, i + 1).value[k - 1]
  {
    assert Serialisable(f.conditions[i]);
    assert DumpConditions(f, i).value == [DumpFilter(f.conditions[i]).value] + DumpConditions(f, i + 1).value;
  }

  /** The `k`-th dumped condition is the dump of the `k`-th condition. */
  lemma {:induction false} DumpConditionsInOrder(f: Filter, i: nat, k: nat)
    requires f.CompoundFilter? && i <= |f.conditions|
    requires DumpConditions(f, i).Ok? && k < |f.conditions| - i
    ensures DumpFilter(f.conditions[i + k]).Ok?
    ensures DumpConditions(f, i).value[k] == DumpFilter(f.conditions[i + k]).value
    decreases |f.conditions| - i
  {
    DumpConditionsUnfold(f, i, k);
    if k > 0 {
      DumpConditionsInOrder(f, i + 1, k - 1);
      assert (i + 1) + (k - 1) == i + k;
    }
  }

  /** A compound filter dumps to its logical operator and the dumps of its
      conditions, in order. */
  lemma DumpCompound(op: LogicalOperator, cs: seq<Filter>, k: nat)
    requires DumpFilter(CompoundFilter(op, cs)).Ok? && k < |cs|
    ensures DumpFilter(cs[k]).Ok?
    ensures DumpFilter(CompoundFilter(op, cs)).value.fields["conditions"].items[k] == DumpFilter(cs[k]).value
  {
    var f := CompoundFilter(op, cs);
    DumpConditionsInOrder(f, 0, k);
  }

  /** The constant `by` of each sort schema. */
  function SortBy(s: Sort): string {
    match s
    case StartedAtSort(_) => "startedAt"
    case RunNumberSort(_) => "runNumber"
    case DurationSort(_) => "duration"
    case TagSort(_, _) => "tag"
    case ParamSort(_, _) => "param"
    case MetricSort(_, _) => "metric"
  }

  predicate SortKeyed(s: Sort) {
    s.TagSort? || s.ParamSort? || s.MetricSort?
  }

  function SortTypeName(s: Sort): string {
    match s
    case StartedAtSort(_) => "StartedAtSort"
    case RunNumberSort(_) => "RunNumberSort"
    case DurationSort(_) => "DurationSort"
    case TagSort(_, _) => "TagSort"
    case ParamSort(_, _) => "ParamSort"
    case MetricSort(_, _) => "MetricSort"
  }

  /** `_SortSchema().dump(s)`: `{by, [key], order}`. */
  function DumpSort(s: Sort): (r: Json)
    ensures r.JObject?
    ensures r.fields.Keys == (if SortKeyed(s) then {"key", "order", "by"} else {"order", "by"})
    ensures r.fields["by"] == JString(SortBy(s)) && r.fields["order"] == JString(OrderWire(s.order))
    ensures SortKeyed(s) ==> r.fields["key"] == JString(s.key)
  {
    var fields := map["order" := JString(OrderWire(s.order)), "by" := JString(SortBy(s))];
    var keyed := if SortKeyed(s) then fields["key" := JString(s.key)] else fields;
    JObject(OneOfDump(keyed, SortTypeName(s)))
  }

  /** No two sorts dump alike. */
  lemma DumpSortInjective(a: Sort, b: Sort)
    requires DumpSort(a) == DumpSort(b)
    ensures a == b
  {
    var fa := DumpSort(a).fields;
    assert fa["by"] == JString(SortBy(a)) == JString(SortBy(b));
    assert fa["order"] == JString(OrderWire(a.order)) == JString(OrderWire(b.order));
    assert a.order == b.order;
    if SortKeyed(a) {
      assert fa["key"] == JString(a.key) == JString(b.key);
    }
  }

  function DumpPage(p: Page): (r: Json)
    ensures r.JObject? && r.fields.Keys == {"start", "limit"}
    ensures r.fields["start"] == JInt(p.start) && r.fields["limit"] == JInt(p.limit)
  {
    JObject(map["start" := JInt(p.start), "limit" := JInt(p.limit)])
  }

  /** `_RunQuerySchema().dump(q)`: every absent part is `null`. */
  function DumpRunQuery(q: RunQuery): (r: Result<Json, string>)
    ensures r.Ok? <==> q.filter.None? || Serialisable(q.filter.value)
    ensures r.Ok? ==> r.value.JObject? && r.value.fields.Keys == {"filter", "sort", "page"}
    ensures r.Ok? ==>
      r.value.fields["filter"] == (if q.filter.Some? then DumpFilter(q.filter.value).value else JNull)
    ensures r.Ok? ==> (r.value.fields["sort"] == JNull <==> q.sort.None?)
    ensures r.Ok? && q.sort.Some? ==>
      r.value.fields["sort"].JArray? && |r.value.fields["sort"].items| == |q.sort.value|
      && forall i | 0 <= i < |q.sort.value| :: r.value.fields["sort"].items[i] == DumpSort(q.sort.value[i])
    ensures r.Ok? ==> r.value.fields["page"] == (if q.page.Some? then DumpPage(q.page.value) else JNull)
  {
    var filter :- if q.filter.Some? then DumpFilter(q.filter.value) else Ok(JNull);
    var sort := if q.sort.Some? then JArray(seq(|q.sort.value|, i requires 0 <= i < |q.sort.value| => DumpSort(q.sort.value[i]))) else JNull;
    var page := if q.page.Some? then DumpPage(q.page.value) else JNull;
    Ok(JObject(map["filter" := filter, "sort" := sort, "page" := page]))
  }

  /** An empty query dumps to three nulls. */
  lemma EmptyRunQuery()
    ensures DumpRunQuery(RunQuery(None, None, None)) == Ok(JObject(map["filter" := JNull, "sort" := JNull, "page" := JNull]))
  {
  }
}
