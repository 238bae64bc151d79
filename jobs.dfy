/** `faculty/clients/job.py`: the job definition schema with its
    instance-size rule, and the bodies and query parameters the job client
    sends. UUIDs and dates are not modelled here; the schemas that hold
    them are left out. A load is `None` where marshmallow raises a
    `ValidationError`. */
module Jobs {
  import opened Wrappers
  import opened Json

  // ---------------------------------------------------------------------------
  // The job definition
  // ---------------------------------------------------------------------------

  datatype InstanceSize = InstanceSize(milliCpus: int, memoryMb: int)

  datatype ParameterType = Text | Number

  datatype JobParameter = JobParameter(name: string, paramType: ParameterType, default: string, required: bool)

  datatype JobCommand = JobCommand(name: string, parameters: seq<JobParameter>)

  datatype ImageType = PythonImage | RImage

  datatype JobDefinition = JobDefinition(
    workingDir: string,
    command: JobCommand,
    imageType: ImageType,
    environmentIds: seq<string>,
    instanceSizeType: string,
    instanceSize: Option<InstanceSize>,
    maxRuntimeSeconds: int)

  const NeedInstanceSize := "need to specify instance size for custom instances"

  const NoInstanceSize := "instance_size must be None for non-custom instances "

  /** `_JobDefinitionSchema.validate_instance_size`: a size is given exactly
      for the `"custom"` instance type. */
  function ValidateInstanceSize(sizeType: string, size: Option<InstanceSize>): (r: Result<(), string>)
    ensures r.Ok? <==> (sizeType == "custom" <==> size.Some?)
    ensures r.Err? && sizeType == "custom" ==> r.error == NeedInstanceSize
    ensures r.Err? && sizeType != "custom" ==> r.error == NoInstanceSize
  {
    var custom := sizeType == "custom";
    if custom && size.None? then Err(NeedInstanceSize)
    else if !custom && size.Some? then Err(NoInstanceSize)
    else Ok(())
  }

  predicate HasString(fields: map<string, Json>, key: string) {
    key in fields && fields[key].JString?
  }

  predicate HasInt(fields: map<string, Json>, key: string) {
    key in fields && fields[key].JInt?
  }

  /** `_InstanceSizeSchema().load`. */
  function LoadInstanceSize(j: Json): (r: Option<InstanceSize>)
    ensures r.Some? <==> j.JObject? && HasInt(j.fields, "milliCpus") && HasInt(j.fields, "memoryMb")
  {
    if j.JObject? && HasInt(j.fields, "milliCpus") && HasInt(j.fields, "memoryMb") then
      Some(InstanceSize(j.fields["milliCpus"].i, j.fields["memoryMb"].i))
    else None
  }

  function DumpInstanceSize(s: InstanceSize): Json {
    JObject(map["milliCpus" := JInt(s.milliCpus), "memoryMb" := JInt(s.memoryMb)])
  }

  function ParameterTypeText(t: ParameterType): string {
    match t
    case Text => "text"
    case Number => "number"
  }

  function ParameterTypeFromText(s: string): (r: Option<ParameterType>)
    ensures r.Some? ==> ParameterTypeText(r.value) == s
  {
    if s == "text" then Some(Text) else if s == "number" then Some(Number) else None
  }

  /** `_JobParameterSchema().load`. */
  function LoadJobParameter(j: Json): (r: Option<JobParameter>)
    ensures r.Some? ==> j.JObject? && HasString(j.fields, "name") && HasString(j.fields, "default")
                        && "required" in j.fields && j.fields["required"].JBool?
  {
    if j.JObject? && HasString(j.fields, "name") && HasString(j.fields, "type") && HasString(j.fields, "default")
       && "required" in j.fields && j.fields["required"].JBool?
    then
      match ParameterTypeFromText(j.fields["type"].s)
      case None => None
      case Some(t) => Some(JobParameter(j.fields["name"].s, t, j.fields["default"].s, j.fields["required"].b))
    else None
  }

  function DumpJobParameter(p: JobParameter): Json {
    JObject(map["name" := JString(p.name), "type" := JString(ParameterTypeText(p.paramType)),
                "default" := JString(p.default), "required" := JBool(p.required)])
  }

  /** A list of items, or nothing if one fails to load. */
  function LoadEach<T>(items: seq<Json>, load: Json -> Option<T>): (r: Option<seq<T>>)
    ensures r.Some? <==> forall i | 0 <= i < |items| :: load(items[i]).Some?
    ensures r.Some? ==> |r.value| == |items| && forall i | 0 <= i < |items| :: r.value[i] == load(items[i]).value
    decreases |items|
  {
    if |items| == 0 then Some([])
    else match (load(items[0]), LoadEach(items[1..], load))
      case (Some(x), Some(rest)) => Some([x] + rest)
      case (None, _) => None
      case (_, None) =>
        assert forall i | 1 <= i < |items| :: items[1..][i - 1] == items[i];
        None
  }

  function DumpEach<T>(xs: seq<T>, dump: T -> Json): (r: seq<Json>)
    ensures |r| == |xs| && forall i | 0 <= i < |xs| :: r[i] == dump(xs[i])
  {
    seq(|xs|, i requires 0 <= i < |xs| => dump(xs[i]))
  }

  lemma LoadDumpEach<T>(xs: seq<T>, load: Json -> Option<T>, dump: T -> Json)
    requires forall i | 0 <= i < |xs| :: load(dump(xs[i])) == Some(xs[i])
    ensures LoadEach(DumpEach(xs, dump), load) == Some(xs)
  {
    var js := DumpEach(xs, dump);
    assert forall i | 0 <= i < |js| :: load(js[i]) == Some(xs[i]);
    assert LoadEach(js, load).value == xs;
  }

  function LoadString(j: Json): Option<string> { if j.JString? then Some(j.s) else None }

  function DumpString(s: string): Json { JString(s) }

  /** `_JobCommandSchema().load`. */
  function LoadJobCommand(j: Json): (r: Option<JobCommand>)
    ensures r.Some? ==> j.JObject? && HasString(j.fields, "name") && "parameters" in j.fields
  {
    if j.JObject? && HasString(j.fields, "name") && "parameters" in j.fields && j.fields["parameters"].JArray? then
      match LoadEach(j.fields["parameters"].items, LoadJobParameter)
      case None => None
      case Some(ps) => Some(JobCommand(j.fields["name"].s, ps))
    else None
  }

  function DumpJobCommand(c: JobCommand): Json {
    JObject(map["name" := JString(c.name), "parameters" := JArray(DumpEach(c.parameters, DumpJobParameter))])
  }

  function ImageTypeText(t: ImageType): string {
    match t
    case PythonImage => "python"
    case RImage => "r"
  }

  function ImageTypeFromText(s: string): (r: Option<ImageType>)
    ensures r.Some? ==> ImageTypeText(r.value) == s
  {
    if s == "python" then Some(PythonImage) else if s == "r" then Some(RImage) else None
  }

  /** `instanceSize`: missing or `null` is `None`. */
  function LoadOptionalInstanceSize(fields: map<string, Json>): (r: Option<Option<InstanceSize>>)
    ensures "instanceSize" !in fields ==> r == Some(None)
  {
    if "instanceSize" !in fields || fields["instanceSize"] == JNull then Some(None)
    else match LoadInstanceSize(fields["instanceSize"])
      case None => None
      case Some(s) => Some(Some(s))
  }

  /** The fields of a job definition, before the schema validation. */
  function LoadDefinitionFields(j: Json): Option<JobDefinition> {
    if j.JObject? && HasString(j.fields, "workingDir") && "command" in j.fields && HasString(j.fields, "imageType")
       && "environmentIds" in j.fields && j.fields["environmentIds"].JArray?
       && HasString(j.fields, "instanceSizeType") && HasInt(j.fields, "maxRuntimeSeconds")
    then
      match (LoadJobCommand(j.fields["command"]), ImageTypeFromText(j.fields["imageType"].s),
             LoadEach(j.fields["environmentIds"].items, LoadString), LoadOptionalInstanceSize(j.fields))
      case (Some(command), Some(image), Some(envs), Some(size)) =>
        Some(JobDefinition(j.fields["workingDir"].s, command, image, envs, j.fields["instanceSizeType"].s,
                           size, j.fields["maxRuntimeSeconds"].i))
      case _ => None
    else None
  }

  /** `_JobDefinitionSchema().load`: the fields, then `validate_instance_size`. */
  function LoadJobDefinition(j: Json): (r: Option<JobDefinition>)
    ensures r.Some? ==> ValidateInstanceSize(r.value.instanceSizeType, r.value.instanceSize).Ok?
    ensures r.Some? <==> LoadDefinitionFields(j).Some?
                         && ValidateInstanceSize(LoadDefinitionFields(j).value.instanceSizeType,
                                                 LoadDefinitionFields(j).value.instanceSize).Ok?
  {
    match LoadDefinitionFields(j)
    case None => None
    case Some(d) => if ValidateInstanceSize(d.instanceSizeType, d.instanceSize).Ok? then Some(d) else None
  }

  /** `_JobDefinitionSchema().dump`; marshmallow does not validate on dump. */
  function DumpJobDefinition(d: JobDefinition): Json {
    JObject(map[
      "workingDir" := JString(d.workingDir),
      "command" := DumpJobCommand(d.command),
      "imageType" := JString(ImageTypeText(d.imageType)),
      "environmentIds" := JArray(DumpEach(d.environmentIds, DumpString)),
      "instanceSizeType" := JString(d.instanceSizeType),
      "instanceSize" := if d.instanceSize.Some? then DumpInstanceSize(d.instanceSize.value) else JNull,
      "maxRuntimeSeconds" := JInt(d.maxRuntimeSeconds)])
  }

  lemma ParameterRoundTrip(p: JobParameter)
    ensures LoadJobParameter(DumpJobParameter(p)) == Some(p)
  {
    assert ParameterTypeFromText(ParameterTypeText(p.paramType)) == Some(p.paramType) by {
      if p.paramType == Text { assert "text" != "number"; }
    }
  }

  lemma CommandRoundTrip(c: JobCommand)
    ensures LoadJobCommand(DumpJobCommand(c)) == Some(c)
  {
    forall i | 0 <= i < |c.parameters| {
      ParameterRoundTrip(c.parameters[i]);
    }
    LoadDumpEach(c.parameters, LoadJobParameter, DumpJobParameter);
  }

  /** The members of a dumped definition. */
  lemma DumpedMembers(d: JobDefinition)
    ensures var m := DumpJobDefinition(d).fields;
      && m.Keys == {"workingDir", "command", "imageType", "environmentIds", "instanceSizeType",
                    "instanceSize", "maxRuntimeSeconds"}
      && m["workingDir"] == JString(d.workingDir)
      && m["command"] == DumpJobCommand(d.command)
      && m["imageType"] == JString(ImageTypeText(d.imageType))
      && m["environmentIds"] == JArray(DumpEach(d.environmentIds, DumpString))
      && m["instanceSizeType"] == JString(d.instanceSizeType)
      && m["instanceSize"] == (if d.instanceSize.Some? then DumpInstanceSize(d.instanceSize.value) else JNull)
      && m["maxRuntimeSeconds"] == JInt(d.maxRuntimeSeconds)
  {
  }

  /** Any object with those members loads as the definition. */
  lemma LoadMembers(m: map<string, Json>, d: JobDefinition)
    requires "workingDir" in m && m["workingDir"] == JString(d.workingDir)
    requires "command" in m && m["command"] == DumpJobCommand(d.command)
    requires "imageType" in m && m["imageType"] == JString(ImageTypeText(d.imageType))
    requires "environmentIds" in m && m["environmentIds"] == JArray(DumpEach(d.environmentIds, DumpString))
    requires "instanceSizeType" in m && m["instanceSizeType"] == JString(d.instanceSizeType)
    requires "instanceSize" in m
    requires m["instanceSize"] == (if d.instanceSize.Some? then DumpInstanceSize(d.instanceSize.value) else JNull)
    requires "maxRuntimeSeconds" in m && m["maxRuntimeSeconds"] == JInt(d.maxRuntimeSeconds)
    ensures LoadDefinitionFields(JObject(m)) == Some(d)
  {
    CommandRoundTrip(d.command);
    assert ImageTypeFromText(ImageTypeText(d.imageType)) == Some(d.imageType) by {
      if d.imageType == PythonImage { assert "python" != "r"; }
    }
    LoadDumpEach(d.environmentIds, LoadString, DumpString);
    assert LoadOptionalInstanceSize(m) == Some(d.instanceSize);
  }

  lemma DefinitionFieldsRoundTrip(d: JobDefinition)
    ensures LoadDefinitionFields(DumpJobDefinition(d)) == Some(d)
  {
    DumpedMembers(d);
    LoadMembers(DumpJobDefinition(d).fields, d);
  }

  /** A definition that keeps the instance-size rule loads back from its
      dump as itself; one that breaks it is refused. */
  lemma DefinitionRoundTrip(d: JobDefinition)
    ensures ValidateInstanceSize(d.instanceSizeType, d.instanceSize).Ok? ==>
      LoadJobDefinition(DumpJobDefinition(d)) == Some(d)
    ensures ValidateInstanceSize(d.instanceSizeType, d.instanceSize).Err? ==>
      LoadJobDefinition(DumpJobDefinition(d)).None?
  {
    DefinitionFieldsRoundTrip(d);
  }

  /** Every job schema here refuses the empty object. */
  lemma EmptyObjectRejected()
    ensures LoadInstanceSize(JObject(map[])).None?
    ensures LoadJobParameter(JObject(map[])).None?
    ensures LoadJobCommand(JObject(map[])).None?
    ensures LoadJobDefinition(JObject(map[])).None?
    ensures LoadPage(JObject(map[])).None?
    ensures LoadPagination(JObject(map[])).None?
  {
  }

  // ---------------------------------------------------------------------------
  // Pagination
  // ---------------------------------------------------------------------------

  datatype Page = Page(start: int, limit: int)

  datatype Pagination = Pagination(start: int, size: int, previous: Option<Page>, next: Option<Page>)

  /** `_PageSchema().load`. */
  function LoadPage(j: Json): (r: Option<Page>)
    ensures r.Some? <==> j.JObject? && HasInt(j.fields, "start") && HasInt(j.fields, "limit")
  {
    if j.JObject? && HasInt(j.fields, "start") && HasInt(j.fields, "limit") then
      Some(Page(j.fields["start"].i, j.fields["limit"].i))
    else None
  }

  /** An optional page: missing or `null` is `None`. */
  function LoadOptionalPage(fields: map<string, Json>, key: string): (r: Option<Option<Page>>)
    ensures key !in fields ==> r == Some(None)
  {
    if key !in fields || fields[key] == JNull then Some(None)
    else match LoadPage(fields[key])
      case None => None
      case Some(p) => Some(Some(p))
  }

  /** `_PaginationSchema().load`: `previous` and `next` default to `None`. */
  function LoadPagination(j: Json): (r: Option<Pagination>)
    ensures r.Some? ==> j.JObject? && HasInt(j.fields, "start") && HasInt(j.fields, "size")
    ensures r.Some? && "next" !in j.fields ==> r.value.next.None?
    ensures r.Some? && "previous" !in j.fields ==> r.value.previous.None?
  {
    if j.JObject? && HasInt(j.fields, "start") && HasInt(j.fields, "size") then
      match (LoadOptionalPage(j.fields, "previous"), LoadOptionalPage(j.fields, "next"))
      case (Some(prev), Some(next)) => Some(Pagination(j.fields["start"].i, j.fields["size"].i, prev, next))
      case _ => None
    else None
  }

  function DumpPage(p: Page): Json {
    JObject(map["start" := JInt(p.start), "limit" := JInt(p.limit)])
  }

  /** A pagination as the job service sends it, absent pages as `null`. */
  function DumpPagination(p: Pagination): Json {
    JObject(map["start" := JInt(p.start), "size" := JInt(p.size),
                "previous" := if p.previous.Some? then DumpPage(p.previous.value) else JNull,
                "next" := if p.next.Some? then DumpPage(p.next.value) else JNull])
  }

  /** A pagination reads back as itself, its pages included. */
  lemma PaginationRoundTrip(p: Pagination)
    ensures LoadPagination(DumpPagination(p)) == Some(p)
  {
    var m := DumpPagination(p).fields;
    assert LoadOptionalPage(m, "previous") == Some(p.previous);
    assert LoadOptionalPage(m, "next") == Some(p.next);
  }

  // ---------------------------------------------------------------------------
  // Requests
  // ---------------------------------------------------------------------------

  /** `JobClient.create`: the metadata and the dumped definition. */
  function CreatePayload(name: string, description: string, d: JobDefinition): (r: Json)
    ensures r.JObject? && r.fields.Keys == {"meta", "definition"}
  {
    JObject(map["meta" := JObject(map["name" := JString(name), "description" := JString(description)]),
                "definition" := DumpJobDefinition(d)])
  }

  /** What the job service reads back from a create payload. */
  lemma CreatePayloadReadBack(name: string, description: string, d: JobDefinition)
    requires ValidateInstanceSize(d.instanceSizeType, d.instanceSize).Ok?
    ensures var p := CreatePayload(name, description, d).fields;
      && p["meta"] == JObject(map["name" := JString(name), "description" := JString(description)])
      && LoadJobDefinition(p["definition"]) == Some(d)
  {
    DefinitionRoundTrip(d);
  }

  /** One parameter value set: the entries of a dictionary, in its order. */
  type ParameterValues = seq<(string, Json)>

  function EntryJson(name: string, value: Json): Json {
    JObject(map["name" := JString(name), "value" := value])
  }

  function SetJson(values: ParameterValues): Json {
    JArray(seq(|values|, k requires 0 <= k < |values| => EntryJson(values[k].0, values[k].1)))
  }

  /** `JobClient.create_run`'s body: one inner list per value set, and in
      it one `{name, value}` object per entry; no sets given means a single
      empty one. */
  function CreateRunPayload(sets: Option<seq<ParameterValues>>): (r: Json)
    ensures sets.None? ==> r == JObject(map["parameterValues" := JArray([JArray([])])])
  {
    var s := if sets.None? then [[]] else sets.value;
    var items := seq(|s|, i requires 0 <= i < |s| => SetJson(s[i]));
    assert sets.None? ==> items == [SetJson([])] && SetJson([]) == JArray([]);
    JObject(map["parameterValues" := JArray(items)])
  }

  function ReadEntry(j: Json): Option<(string, Json)> {
    if j.JObject? && HasString(j.fields, "name") && "value" in j.fields then Some((j.fields["name"].s, j.fields["value"]))
    else None
  }

  function ReadSet(j: Json): Option<ParameterValues> {
    if j.JArray? then LoadEach(j.items, ReadEntry) else None
  }

  /** The value sets a create-run body carries, as the job service reads
      them. */
  function ReadParameterValues(j: Json): Option<seq<ParameterValues>> {
    if j.JObject? && "parameterValues" in j.fields && j.fields["parameterValues"].JArray? then
      LoadEach(j.fields["parameterValues"].items, ReadSet)
    else None
  }

  lemma SetRoundTrip(values: ParameterValues)
    ensures ReadSet(SetJson(values)) == Some(values)
  {
    var js := SetJson(values).items;
    assert forall k | 0 <= k < |js| :: ReadEntry(js[k]) == Some(values[k]);
    assert LoadEach(js, ReadEntry).value == values;
  }

  lemma SetsRoundTrip(s: seq<ParameterValues>)
    ensures ReadParameterValues(CreateRunPayload(Some(s))) == Some(s)
  {
    var items := CreateRunPayload(Some(s)).fields["parameterValues"].items;
    forall i | 0 <= i < |s| ensures ReadSet(items[i]) == Some(s[i]) {
      SetRoundTrip(s[i]);
    }
    assert LoadEach(items, ReadSet).value == s;
  }

  /** The body carries exactly the given value sets, each entry in its own
      object and in order; no sets is one empty set. */
  lemma CreateRunRoundTrip(sets: seq<ParameterValues>)
    ensures ReadParameterValues(CreateRunPayload(Some(sets))) == Some(sets)
    ensures ReadParameterValues(CreateRunPayload(None)) == Some([[]])
  {
    SetsRoundTrip(sets);
    SetsRoundTrip([[]]);
    assert CreateRunPayload(None) == CreateRunPayload(Some([[]]));
  }

  /** `JobClient.list_runs`' query parameters. */
  function ListRunsParams(start: Option<int>, limit: Option<int>): (r: map<string, int>)
    ensures "start" in r <==> start.Some?
    ensures "limit" in r <==> limit.Some?
    ensures start.Some? ==> r["start"] == start.value
    ensures limit.Some? ==> r["limit"] == limit.value
    ensures r.Keys <= {"start", "limit"}
  {
    var p := if start.Some? then map["start" := start.value] else map[];
    if limit.Some? then p["limit" := limit.value] else p
  }
}
