/** `faculty/cli/hound.py`: the server's environment executions and the log
    stream of an execution step. A log stream is followed over reconnects:
    after a broken connection the stream is opened again from the start,
    and only lines numbered above the last line yielded are yielded. */
module Hound {
  import opened Wrappers
  import opened Strings
  import opened Json
  import CliClient
  import ServerSentEvents

  // ---------------------------------------------------------------------------
  // Executions
  // ---------------------------------------------------------------------------

  datatype ExecutionStep = ExecutionStep(command: Json, status: string, logPath: Json)

  datatype EnvironmentExecution = EnvironmentExecution(steps: seq<ExecutionStep>)

  datatype Execution = Execution(status: string, environments: seq<EnvironmentExecution>)

  /** No ASCII capital letter. */
  predicate LowerCase(s: string) {
    forall i | 0 <= i < |s| :: !('A' <= s[i] <= 'Z')
  }

  /** `EnvironmentExecutionStep.from_json`: the status is lower-cased. A
      missing key or a status that is not a string raises. */
  function StepFromJson(j: Json): (r: Option<ExecutionStep>)
    ensures r.Some? <==> j.JObject? && "command" in j.fields && "status" in j.fields
                         && j.fields["status"].JString? && "logUriPath" in j.fields
    ensures r.Some? ==> r.value.status == AsciiLower(j.fields["status"].s)
                        && r.value.command == j.fields["command"] && r.value.logPath == j.fields["logUriPath"]
  {
    if j.JObject? && "command" in j.fields && "status" in j.fields && j.fields["status"].JString?
       && "logUriPath" in j.fields
    then Some(ExecutionStep(j.fields["command"], AsciiLower(j.fields["status"].s), j.fields["logUriPath"]))
    else None
  }

  /** The list comprehension over the steps: all of them, or the first
      failure. */
  function StepsFromJson(js: seq<Json>): (r: Option<seq<ExecutionStep>>)
    ensures r.Some? <==> forall i | 0 <= i < |js| :: StepFromJson(js[i]).Some?
    ensures r.Some? ==> |r.value| == |js| && forall i | 0 <= i < |js| :: r.value[i] == StepFromJson(js[i]).value
    decreases |js|
  {
    if |js| == 0 then Some([])
    else match (StepFromJson(js[0]), StepsFromJson(js[1..]))
      case (Some(s), Some(rest)) => Some([s] + rest)
      case _ => None
  }

  /** `[EnvironmentExecutionStep.from_json(s) for s in value]` for any
      JSON value: a list's items are read one by one; `{}` and `""` iterate
      as nothing; the keys of any other object and the characters of any
      other string are strings, which no step is read from; other values are
      not iterable. */
  function StepsIn(j: Json): (r: Option<seq<ExecutionStep>>)
    ensures j.JArray? ==> r == StepsFromJson(j.items)
    ensures j == JObject(map[]) || j == JString("") ==> r == Some([])
    ensures r.Some? <==> (j.JArray? && StepsFromJson(j.items).Some?) || j == JObject(map[]) || j == JString("")
    ensures j.JObject? ==> forall k | k in j.fields :: StepFromJson(JString(k)).None?
  {
    match Iterate(j)
    case Items(items) =>
      assert j.JString? && items != [] ==> StepFromJson(items[0]).None?;
      StepsFromJson(items)
    case Keys(keys) => if keys == {} then Some([]) else None
    case NotIterable => None
  }

  /** `EnvironmentExecution.from_json`. */
  function EnvironmentFromJson(j: Json): (r: Option<EnvironmentExecution>)
    ensures r.Some? <==> j.JObject? && "steps" in j.fields && StepsIn(j.fields["steps"]).Some?
    ensures r.Some? ==> r.value.steps == StepsIn(j.fields["steps"]).value
  {
    if j.JObject? && "steps" in j.fields then
      match StepsIn(j.fields["steps"])
      case Some(steps) => Some(EnvironmentExecution(steps))
      case None => None
    else None
  }

  function EnvironmentsFromJson(js: seq<Json>): (r: Option<seq<EnvironmentExecution>>)
    ensures r.Some? <==> forall i | 0 <= i < |js| :: EnvironmentFromJson(js[i]).Some?
    ensures r.Some? ==> |r.value| == |js| && forall i | 0 <= i < |js| :: r.value[i] == EnvironmentFromJson(js[i]).value
    decreases |js|
  {
    if |js| == 0 then Some([])
    else match (EnvironmentFromJson(js[0]), EnvironmentsFromJson(js[1..]))
      case (Some(e), Some(rest)) => Some([e] + rest)
      case _ => None
  }

  /** `[EnvironmentExecution.from_json(e) for e in value]` for any JSON
      value, iterated as for the steps. */
  function EnvironmentsIn(j: Json): (r: Option<seq<EnvironmentExecution>>)
    ensures j.JArray? ==> r == EnvironmentsFromJson(j.items)
    ensures j == JObject(map[]) || j == JString("") ==> r == Some([])
    ensures r.Some? <==> (j.JArray? && EnvironmentsFromJson(j.items).Some?) || j == JObject(map[]) || j == JString("")
    ensures j.JObject? ==> forall k | k in j.fields :: EnvironmentFromJson(JString(k)).None?
  {
    match Iterate(j)
    case Items(items) =>
      assert j.JString? && items != [] ==> EnvironmentFromJson(items[0]).None?;
      EnvironmentsFromJson(items)
    case Keys(keys) => if keys == {} then Some([]) else None
    case NotIterable => None
  }

  /** `Execution.from_json`: the status is lower-cased and the
      environments are read. */
  function ExecutionFromJson(j: Json): (r: Option<Execution>)
    ensures r.Some? <==> j.JObject? && "status" in j.fields && j.fields["status"].JString?
                         && "environments" in j.fields && EnvironmentsIn(j.fields["environments"]).Some?
    ensures r.Some? ==> r.value.status == AsciiLower(j.fields["status"].s)
                        && r.value.environments == EnvironmentsIn(j.fields["environments"]).value
  {
    if j.JObject? && "status" in j.fields && j.fields["status"].JString? && "environments" in j.fields then
      match EnvironmentsIn(j.fields["environments"])
      case Some(envs) => Some(Execution(AsciiLower(j.fields["status"].s), envs))
      case None => None
    else None
  }

  lemma AsciiLowerIsLower(s: string)
    ensures LowerCase(AsciiLower(s))
  {
  }

  /** Every status of a parsed execution, its own and each step's, is in
      lower case. */
  lemma ExecutionStatusesLower(j: Json)
    requires ExecutionFromJson(j).Some?
    ensures LowerCase(ExecutionFromJson(j).value.status)
    ensures forall e, k | 0 <= e < |ExecutionFromJson(j).value.environments|
                          && 0 <= k < |ExecutionFromJson(j).value.environments[e].steps| ::
      LowerCase(ExecutionFromJson(j).value.environments[e].steps[k].status)
  {
    var x := ExecutionFromJson(j).value;
    var ev := j.fields["environments"];
    AsciiLowerIsLower(j.fields["status"].s);
    forall e, k | 0 <= e < |x.environments| && 0 <= k < |x.environments[e].steps|
      ensures LowerCase(x.environments[e].steps[k].status)
    {
      assert ev.JArray?;
      var ej := ev.items[e];
      assert x.environments[e] == EnvironmentFromJson(ej).value;
      var st := ej.fields["steps"];
      assert st.JArray?;
      var sj := st.items[k];
      assert x.environments[e].steps[k] == StepFromJson(sj).value;
      AsciiLowerIsLower(sj.fields["status"].s);
    }
  }

  /** `latest_environment_execution()`, from the status and JSON body of
      `GET /execution/latest`: no execution on 404, the error re-raised on
      any other error status, else the parsed execution (`Err` with status
      0 when the body does not parse). */
  function LatestEnvironmentExecution(status: int, body: Option<Json>): (r: Result<Option<Execution>, CliClient.FacultyServiceError>)
    ensures status == 404 ==> r == Ok(None)
    ensures CliClient.IsErrorStatus(status) && status != 404 ==> r == Err(CliClient.CheckResponse(status, body).error)
    ensures !CliClient.IsErrorStatus(status) && body.Some? && ExecutionFromJson(body.value).Some? ==>
      r == Ok(Some(ExecutionFromJson(body.value).value))
  {
    match CliClient.CheckResponse(status, body)
    case Err(e) => if e.statusCode == 404 then Ok(None) else Err(e)
    case Ok(_) =>
      if body.Some? && ExecutionFromJson(body.value).Some? then Ok(Some(ExecutionFromJson(body.value).value))
      else Err(CliClient.FacultyServiceError(JString("invalid execution"), 0))
  }

  // ---------------------------------------------------------------------------
  // Server resources
  // ---------------------------------------------------------------------------

  /** The CLI keeps whatever values the update holds: nothing is checked. */
  datatype CpuUsage = CpuUsage(used: Json, total: Json)

  datatype MemoryUsage = MemoryUsage(used: Json, rss: Json, cache: Json, total: Json)

  datatype ServerResources = ServerResources(milliCpus: CpuUsage, memoryMb: MemoryUsage)

  /** What indexing JSON with a key raises: `KeyError` for a mapping
      without the key, `TypeError` for anything that is not a mapping. */
  datatype LookupError = KeyError(key: string) | TypeError

  /** `json_object[key]`. */
  function Lookup(j: Json, key: string): (r: Result<Json, LookupError>)
    ensures r.Ok? <==> j.JObject? && key in j.fields
    ensures r.Ok? ==> r.value == j.fields[key]
    ensures r.Err? ==> r.error == if j.JObject? then KeyError(key) else TypeError
  {
    if !j.JObject? then Err(TypeError)
    else if key !in j.fields then Err(KeyError(key))
    else Ok(j.fields[key])
  }

  /** A mapping that holds every key of `keys`. */
  predicate HasKeys(j: Json, keys: seq<string>) {
    j.JObject? && forall k | k in keys :: k in j.fields
  }

  /** `CpuUsage.from_json`: `used`, then `total`. */
  function CpuUsageFromJson(j: Json): (r: Result<CpuUsage, LookupError>)
    ensures r.Ok? <==> HasKeys(j, ["used", "total"])
    ensures r.Ok? ==> r.value == CpuUsage(j.fields["used"], j.fields["total"])
    ensures r.Err? ==> r.error == if !j.JObject? then TypeError
                                  else if "used" !in j.fields then KeyError("used") else KeyError("total")
  {
    var used :- Lookup(j, "used");
    var total :- Lookup(j, "total");
    Ok(CpuUsage(used, total))
  }

  /** `MemoryUsage.from_json`: `used`, `rss`, `cache`, then `total`. */
  function MemoryUsageFromJson(j: Json): (r: Result<MemoryUsage, LookupError>)
    ensures r.Ok? <==> HasKeys(j, ["used", "rss", "cache", "total"])
    ensures r.Ok? ==> r.value == MemoryUsage(j.fields["used"], j.fields["rss"], j.fields["cache"], j.fields["total"])
    ensures r.Err? ==> r.error == if !j.JObject? then TypeError
                                  else if "used" !in j.fields then KeyError("used")
                                  else if "rss" !in j.fields then KeyError("rss")
                                  else if "cache" !in j.fields then KeyError("cache")
                                  else KeyError("total")
  {
    var used :- Lookup(j, "used");
    var rss :- Lookup(j, "rss");
    var cache :- Lookup(j, "cache");
    var total :- Lookup(j, "total");
    Ok(MemoryUsage(used, rss, cache, total))
  }

  /** `ServerResources.from_json`: `milliCpus` is read and loaded before
      `memoryMB` is. */
  function ResourcesFromJson(j: Json): (r: Result<ServerResources, LookupError>)
    ensures r.Ok? <==> HasKeys(j, ["milliCpus", "memoryMB"]) && CpuUsageFromJson(j.fields["milliCpus"]).Ok?
                       && MemoryUsageFromJson(j.fields["memoryMB"]).Ok?
    ensures r.Ok? ==> r.value == ServerResources(CpuUsageFromJson(j.fields["milliCpus"]).value,
                                                 MemoryUsageFromJson(j.fields["memoryMB"]).value)
    ensures HasKeys(j, ["milliCpus"]) && CpuUsageFromJson(j.fields["milliCpus"]).Err? ==>
      r == Err(CpuUsageFromJson(j.fields["milliCpus"]).error)
  {
    var cpuJson :- Lookup(j, "milliCpus");
    var cpu :- CpuUsageFromJson(cpuJson);
    var memoryJson :- Lookup(j, "memoryMB");
    var memory :- MemoryUsageFromJson(memoryJson);
    Ok(ServerResources(cpu, memory))
  }

  /** The update the server agent sends for given figures. */
  function ResourcesJson(r: ServerResources): Json {
    JObject(map["milliCpus" := JObject(map["used" := r.milliCpus.used, "total" := r.milliCpus.total]),
                "memoryMB" := JObject(map["used" := r.memoryMb.used, "rss" := r.memoryMb.rss,
                                          "cache" := r.memoryMb.cache, "total" := r.memoryMb.total])])
  }

  /** Every update reads back as the figures it carries. */
  lemma ResourcesRoundTrip(r: ServerResources)
    ensures ResourcesFromJson(ResourcesJson(r)) == Ok(r)
  {
    var f := ResourcesJson(r).fields;
    assert CpuUsageFromJson(f["milliCpus"]) == Ok(r.milliCpus);
    assert MemoryUsageFromJson(f["memoryMB"]) == Ok(r.memoryMb);
  }

  /** Every update the server agent's client loads, the CLI reads as the
      same figures. */
  lemma AgentLoadedIsRead(d: map<string, Json>)
    requires ServerSentEvents.LoadServerResources(d).Ok?
    ensures var a := ServerSentEvents.LoadServerResources(d).value;
      ResourcesFromJson(JObject(d))
      == Ok(ServerResources(CpuUsage(JInt(a.milliCpus.used), JInt(a.milliCpus.total)),
                            MemoryUsage(JInt(a.memoryMb.used), JInt(a.memoryMb.rss),
                                        JInt(a.memoryMb.cache), JInt(a.memoryMb.total))))
  {
    var cpu, memory := d["milliCpus"], d["memoryMB"];
    assert CpuUsageFromJson(cpu).Ok?;
    assert MemoryUsageFromJson(memory).Ok?;
  }

  /** The data of a CLI message whose event is a resource update; a message
      without an event has none. */
  function ResourcesUpdate(m: ServerSentEvents.RawMessage): Option<Json> {
    if m.event == Some(ServerSentEvents.ServerResourcesEvent) then Some(m.data) else None
  }

  /** Why the CLI's resources stream stopped early. */
  datatype StreamFailure = MessageFailure(message: string) | ResourcesFailure(error: LookupError)

  /** `stream_server_resources()`: the Hound events stream, reading the data
      of each resource-update message; the first update that does not read
      raises and ends the stream. */
  method StreamServerResources(lines: seq<string>, decode: string -> Option<Json>)
    returns (updates: seq<ServerResources>, failure: Option<StreamFailure>)
    ensures var p := ServerSentEvents.Parsed(ServerSentEvents.Frame(lines).groups, ServerSentEvents.CliParser(decode));
      var l := ServerSentEvents.LoadUntilFailure(ServerSentEvents.Selected(p.0, ResourcesUpdate), ResourcesFromJson);
      && updates == l.0
      && failure == (if l.1.Some? then Some(ResourcesFailure(l.1.value))
                     else if p.1.Some? then Some(MessageFailure(p.1.value)) else None)
  {
    var messages, streamFailure := ServerSentEvents.CliStream(lines, decode);
    var readFailure;
    updates, readFailure := ServerSentEvents.LoadSelected(messages, ResourcesUpdate, ResourcesFromJson);
    failure := if readFailure.Some? then Some(ResourcesFailure(readFailure.value))
               else if streamFailure.Some? then Some(MessageFailure(streamFailure.value)) else None;
  }

  // ---------------------------------------------------------------------------
  // Step logs over reconnects
  // ---------------------------------------------------------------------------

  datatype LogLine = LogLine(lineNumber: int, content: string)

  /** A message of the log stream: its event and, for `log` events, the
      lines it carries. */
  datatype LogMessage = LogMessage(event: string, lines: seq<LogLine>)

  /** One connection to the log stream: the messages it delivered, and
      whether it ended with a `ChunkedEncodingError`. */
  datatype Connection = Connection(messages: seq<LogMessage>, broken: bool)

  predicate IsFinished(m: LogMessage) { AsciiLower(m.event) == "finished" }

  predicate IsLog(m: LogMessage) { AsciiLower(m.event) == "log" }

  /** The log lines a connection delivers before a `finished` event. */
  function ConnectionLines(ms: seq<LogMessage>): seq<LogLine>
    decreases |ms|
  {
    if |ms| == 0 then []
    else if IsFinished(ms[0]) then []
    else (if IsLog(ms[0]) then ms[0].lines else []) + ConnectionLines(ms[1..])
  }

  predicate Finishes(ms: seq<LogMessage>) {
    exists i | 0 <= i < |ms| :: IsFinished(ms[i])
  }

  /** The log lines read over the connections: a connection is followed by
      the next only when it broke before a `finished` event. */
  function ProcessedLines(cs: seq<Connection>): seq<LogLine>
    decreases |cs|
  {
    if |cs| == 0 then []
    else ConnectionLines(cs[0].messages)
         + (if cs[0].broken && !Finishes(cs[0].messages) then ProcessedLines(cs[1..]) else [])
  }

  function Max(a: int, b: int): int { if a < b then b else a }

  /** The highest line number seen, starting from `last`. */
  function MaxFrom(xs: seq<LogLine>, last: int): int
    decreases |xs|
  {
    if |xs| == 0 then last else MaxFrom(xs[1..], Max(last, xs[0].lineNumber))
  }

  /** Reference definition of the de-duplication: a line is kept when its
      number is above every number seen before it. */
  function Fresh(xs: seq<LogLine>, last: int): seq<LogLine>
    decreases |xs|
  {
    if |xs| == 0 then []
    else if xs[0].lineNumber > last then [xs[0]] + Fresh(xs[1..], xs[0].lineNumber)
    else Fresh(xs[1..], last)
  }

  lemma {:induction false} FreshAppend(a: seq<LogLine>, b: seq<LogLine>, last: int)
    ensures Fresh(a + b, last) == Fresh(a, last) + Fresh(b, MaxFrom(a, last))
    ensures MaxFrom(a + b, last) == MaxFrom(b, MaxFrom(a, last))
    decreases |a|
  {
    if |a| == 0 {
      assert a + b == b;
    } else {
      assert (a + b)[0] == a[0] && (a + b)[1..] == a[1..] + b;
      FreshAppend(a[1..], b, Max(last, a[0].lineNumber));
      if a[0].lineNumber > last {
        FreshAppend(a[1..], b, a[0].lineNumber);
      } else {
        FreshAppend(a[1..], b, last);
      }
    }
  }

  /** The loop state after one more batch of lines. */
  lemma FreshAdvance(seen: seq<LogLine>, xs: seq<LogLine>, base: int, out: seq<LogLine>, last: int,
                     more: seq<LogLine>, last': int)
    requires out == Fresh(seen, base) && last == MaxFrom(seen, base)
    requires more == Fresh(xs, last) && last' == MaxFrom(xs, last)
    ensures out + more == Fresh(seen + xs, base) && last' == MaxFrom(seen + xs, base)
  {
    FreshAppend(seen, xs, base);
  }

  /** The kept lines have strictly increasing numbers, all above `last`. */
  lemma {:induction false} FreshIncreasing(xs: seq<LogLine>, last: int)
    ensures forall i | 0 <= i < |Fresh(xs, last)| :: Fresh(xs, last)[i].lineNumber > last
    ensures forall i, j | 0 <= i < j < |Fresh(xs, last)| :: Fresh(xs, last)[i].lineNumber < Fresh(xs, last)[j].lineNumber
    decreases |xs|
  {
    if |xs| > 0 {
      if xs[0].lineNumber > last {
        FreshIncreasing(xs[1..], xs[0].lineNumber);
      } else {
        FreshIncreasing(xs[1..], last);
      }
    }
  }

  /** Nothing new is dropped: every line seen is numbered at most the
      highest number seen, and that is `last` or the last line kept. */
  lemma {:induction false} FreshKeepsMax(xs: seq<LogLine>, last: int)
    ensures forall i | 0 <= i < |xs| :: xs[i].lineNumber <= MaxFrom(xs, last)
    ensures last <= MaxFrom(xs, last)
    ensures |Fresh(xs, last)| == 0 ==> MaxFrom(xs, last) == last
    ensures |Fresh(xs, last)| > 0 ==> MaxFrom(xs, last) == Fresh(xs, last)[|Fresh(xs, last)| - 1].lineNumber
    decreases |xs|
  {
    if |xs| > 0 {
      var m := Max(last, xs[0].lineNumber);
      FreshKeepsMax(xs[1..], m);
      assert forall i | 1 <= i < |xs| :: xs[i] == xs[1..][i - 1];
    }
  }

  /** The inner `for line in message.data` loop on one message's lines. */
  method YieldFresh(xs: seq<LogLine>, last0: int) returns (out: seq<LogLine>, last: int)
    ensures out == Fresh(xs, last0) && last == MaxFrom(xs, last0)
  {
    out := [];
    last := last0;
    for j := 0 to |xs|
      invariant out + Fresh(xs[j..], last) == Fresh(xs, last0)
      invariant MaxFrom(xs[j..], last) == MaxFrom(xs, last0)
    {
      assert xs[j..][0] == xs[j] && xs[j..][1..] == xs[j + 1..];
      if xs[j].lineNumber > last {
        out := out + [xs[j]];
        last := xs[j].lineNumber;
      }
    }
  }

  /** One message's share of a connection's lines. */
  lemma ConnectionStep(ms: seq<LogMessage>, i: int)
    requires 0 <= i < |ms|
    ensures IsFinished(ms[i]) ==> ConnectionLines(ms[i..]) == []
    ensures !IsFinished(ms[i]) && IsLog(ms[i]) ==>
      ConnectionLines(ms[i..]) == ms[i].lines + ConnectionLines(ms[i + 1..])
    ensures !IsFinished(ms[i]) && !IsLog(ms[i]) ==> ConnectionLines(ms[i..]) == ConnectionLines(ms[i + 1..])
  {
    assert ms[i..][0] == ms[i] && ms[i..][1..] == ms[i + 1..];
    assert [] + ConnectionLines(ms[i + 1..]) == ConnectionLines(ms[i + 1..]);
  }

  /** `for message in stream` on one connection: stops at a `finished`
      event, and passes the lines of `log` events through `YieldFresh`. */
  method FollowConnection(ms: seq<LogMessage>, last0: int) returns (out: seq<LogLine>, last: int, finished: bool)
    ensures out == Fresh(ConnectionLines(ms), last0) && last == MaxFrom(ConnectionLines(ms), last0)
    ensures finished == Finishes(ms)
  {
    out := [];
    last := last0;
    finished := false;
    ghost var seen: seq<LogLine> := [];
    var i := 0;
    while i < |ms|
      invariant 0 <= i <= |ms|
      invariant ConnectionLines(ms) == seen + ConnectionLines(ms[i..])
      invariant out == Fresh(seen, last0) && last == MaxFrom(seen, last0)
      invariant forall k | 0 <= k < i :: !IsFinished(ms[k])
    {
      var m := ms[i];
      if AsciiLower(m.event) == "finished" {
        finished := true;
        assert ConnectionLines(ms) == seen by {
          ConnectionStep(ms, i);
          assert seen + [] == seen;
        }
        return;
      }
      if AsciiLower(m.event) == "log" {
        var more, last';
        more, last' := YieldFresh(m.lines, last);
        FreshAdvance(seen, m.lines, last0, out, last, more, last');
        assert ConnectionLines(ms) == (seen + m.lines) + ConnectionLines(ms[i + 1..]) by {
          ConnectionStep(ms, i);
        }
        out, last := out + more, last';
        seen := seen + m.lines;
      } else {
        assert ConnectionLines(ms[i..]) == ConnectionLines(ms[i + 1..]) by {
          ConnectionStep(ms, i);
        }
      }
      i := i + 1;
    }
    assert ConnectionLines(ms) == seen by {
      assert ms[i..] == [];
      assert seen + [] == seen;
    }
  }

  /** One connection's share of the lines: the connections after it count
      only when it broke before the end of its stream. */
  lemma StreamStep(cs: seq<Connection>, c: int, seen: seq<LogLine>)
    requires 0 <= c < |cs|
    requires ProcessedLines(cs) == seen + ProcessedLines(cs[c..])
    ensures !(cs[c].broken && !Finishes(cs[c].messages)) ==>
      ProcessedLines(cs) == seen + ConnectionLines(cs[c].messages)
    ensures cs[c].broken && !Finishes(cs[c].messages) ==>
      ProcessedLines(cs) == (seen + ConnectionLines(cs[c].messages)) + ProcessedLines(cs[c + 1..])
  {
    var lines := ConnectionLines(cs[c].messages);
    ProcessedStep(cs, c);
    if cs[c].broken && !Finishes(cs[c].messages) {
      assert seen + (lines + ProcessedLines(cs[c + 1..])) == (seen + lines) + ProcessedLines(cs[c + 1..]);
    }
  }

  lemma ProcessedStep(cs: seq<Connection>, c: int)
    requires 0 <= c < |cs|
    ensures !(cs[c].broken && !Finishes(cs[c].messages)) ==>
      ProcessedLines(cs[c..]) == ConnectionLines(cs[c].messages)
    ensures cs[c].broken && !Finishes(cs[c].messages) ==>
      ProcessedLines(cs[c..]) == ConnectionLines(cs[c].messages) + ProcessedLines(cs[c + 1..])
  {
    assert cs[c..][0] == cs[c] && cs[c..][1..] == cs[c + 1..];
    assert ConnectionLines(cs[c].messages) + [] == ConnectionLines(cs[c].messages);
  }

  /** `stream_environment_execution_step_logs(execution_step)`: the
      connections are opened one after another while each breaks before
      the end of its stream, and `last_line` is kept across them. */
  method StreamStepLogs(cs: seq<Connection>) returns (out: seq<LogLine>)
    ensures out == Fresh(ProcessedLines(cs), -1)
  {
    out := [];
    var last := -1;
    ghost var seen: seq<LogLine> := [];
    var c := 0;
    while c < |cs|
      invariant 0 <= c <= |cs|
      invariant ProcessedLines(cs) == seen + ProcessedLines(cs[c..])
      invariant out == Fresh(seen, -1) && last == MaxFrom(seen, -1)
    {
      var more, last', finished := FollowConnection(cs[c].messages, last);
      FreshAdvance(seen, ConnectionLines(cs[c].messages), -1, out, last, more, last');
      StreamStep(cs, c, seen);
      out, last := out + more, last';
      seen := seen + ConnectionLines(cs[c].messages);
      if finished || !cs[c].broken {
        return;
      }
      c := c + 1;
    }
    assert ProcessedLines(cs) == seen by {
      assert cs[c..] == [];
      assert seen + [] == seen;
    }
  }

  /** The yielded line numbers strictly increase, across reconnects too. */
  lemma StepLogsIncreasing(cs: seq<Connection>)
    ensures forall i, j | 0 <= i < j < |Fresh(ProcessedLines(cs), -1)| ::
      Fresh(ProcessedLines(cs), -1)[i].lineNumber < Fresh(ProcessedLines(cs), -1)[j].lineNumber
  {
    FreshIncreasing(ProcessedLines(cs), -1);
  }
}
