/** `faculty/cli/galleon.py`: the CLI's own server record, whose constructor
    enforces the rule tying the machine type to the size fields; reading a
    server from the server service's JSON, with the fallback for services
    that predate instance size types; picking a service by name; listing
    servers by status; and the body `create_server` sends. Values the JSON
    carries are kept as JSON, `null` standing for Python's `None`; the
    creation date is kept as sent. */
module Galleon {
  import opened Wrappers
  import opened Json
  import opened Truthiness
  import opened CliClient
  import Servers

  /** The exceptions this code raises or lets through. */
  datatype Failure =
    | KeyError(key: string)
    | TypeError
    | ValueError(message: string)
    | RuntimeError(message: string)
    | GalleonError(message: string)
    | ServiceError(error: FacultyServiceError)
    | InvalidJson

  datatype Service = Service(name: Json, host: Json, port: Json, scheme: Json)

  datatype Server = Server(
    id: Json, projectId: Json, ownerId: Json, name: Json, serverType: Json,
    machineType: Json, milliCpus: Json, memoryMb: Json,
    createdAt: Json, status: Json, services: seq<Service>)

  const Custom := JString("custom")

  const SizeNeeded := "milli_cpus and memory_mb cannot be None if machine_type is custom"

  const SizeForbidden := "milli_cpus and memory_mb must be None if machine_type is not custom"

  /** The rule every server keeps: a custom machine has both sizes, any
      other machine neither. */
  predicate SizeRule(machineType: Json, milliCpus: Json, memoryMb: Json) {
    if machineType == Custom then milliCpus != JNull && memoryMb != JNull
    else milliCpus == JNull && memoryMb == JNull
  }

  predicate ValidServer(s: Server) {
    SizeRule(s.machineType, s.milliCpus, s.memoryMb)
  }

  /** `Server.__init__`: the fields as given, or the `ValueError` for sizes
      that break the rule. */
  function NewServer(id: Json, projectId: Json, ownerId: Json, name: Json, serverType: Json,
                     machineType: Json, milliCpus: Json, memoryMb: Json,
                     createdAt: Json, status: Json, services: seq<Service>): (r: Result<Server, Failure>)
    ensures r.Ok? <==> SizeRule(machineType, milliCpus, memoryMb)
    ensures r.Ok? ==> r.value == Server(id, projectId, ownerId, name, serverType, machineType,
                                        milliCpus, memoryMb, createdAt, status, services)
    ensures r.Ok? ==> ValidServer(r.value)
    ensures r.Err? && machineType == Custom ==> r.error == ValueError(SizeNeeded)
    ensures r.Err? && machineType != Custom ==> r.error == ValueError(SizeForbidden)
  {
    if machineType == Custom && (milliCpus == JNull || memoryMb == JNull) then Err(ValueError(SizeNeeded))
    else if machineType != Custom && (milliCpus != JNull || memoryMb != JNull) then Err(ValueError(SizeForbidden))
    else Ok(Server(id, projectId, ownerId, name, serverType, machineType, milliCpus, memoryMb,
                   createdAt, status, services))
  }

  /** `json_object[key]`: a `TypeError` unless an object, a `KeyError`
      unless the key is there. */
  function Get(j: Json, key: string): (r: Result<Json, Failure>)
    ensures r.Ok? <==> j.JObject? && key in j.fields
    ensures r.Ok? ==> r.value == j.fields[key]
    ensures j.JObject? && key !in j.fields ==> r == Err(KeyError(key))
    ensures !j.JObject? ==> r == Err(TypeError)
  {
    if !j.JObject? then Err(TypeError)
    else if key !in j.fields then Err(KeyError(key))
    else Ok(j.fields[key])
  }

  /** `Service.from_json`. */
  function ServiceFromJson(j: Json): (r: Result<Service, Failure>)
    ensures r.Ok? <==> j.JObject? && "name" in j.fields && "host" in j.fields && "port" in j.fields
                       && "scheme" in j.fields
    ensures r.Ok? ==> r.value == Service(j.fields["name"], j.fields["host"], j.fields["port"], j.fields["scheme"])
  {
    var name :- Get(j, "name");
    var host :- Get(j, "host");
    var port :- Get(j, "port");
    var scheme :- Get(j, "scheme");
    Ok(Service(name, host, port, scheme))
  }

  /** `[Service.from_json(o) for o in items]`: the first failure, if any. */
  function ServicesFromJson(items: seq<Json>): (r: Result<seq<Service>, Failure>)
    ensures r.Ok? <==> forall i | 0 <= i < |items| :: ServiceFromJson(items[i]).Ok?
    ensures r.Ok? ==> |r.value| == |items| && forall i | 0 <= i < |items| :: r.value[i] == ServiceFromJson(items[i]).value
    decreases |items|
  {
    if |items| == 0 then Ok([])
    else
      match ServiceFromJson(items[0])
      case Err(e) => Err(e)
      case Ok(s) =>
        match ServicesFromJson(items[1..])
        case Err(e) =>
          assert forall i | 1 <= i < |items| :: items[1..][i - 1] == items[i];
          Err(e)
        case Ok(rest) => Ok([s] + rest)
  }

  /** `[Service.from_json(o) for o in value]` for any JSON value: a list's
      items are read one by one; `{}` and `""` iterate as nothing; the
      keys of any other object and the characters of any other string are
      strings, which `Service.from_json` refuses with `TypeError`
      whichever comes first; other values are not iterable. */
  function ServicesIn(j: Json): (r: Result<seq<Service>, Failure>)
    ensures j.JArray? ==> r == ServicesFromJson(j.items)
    ensures j == JObject(map[]) || j == JString("") ==> r == Ok([])
    ensures r.Ok? ==> j.JArray? || j == JObject(map[]) || j == JString("")
    ensures j.JObject? ==> forall k | k in j.fields :: ServiceFromJson(JString(k)).Err? && r == Err(ServiceFromJson(JString(k)).error)
    ensures !j.JArray? && j != JObject(map[]) && j != JString("") ==> r == Err(TypeError)
  {
    match Iterate(j)
    case Items(items) =>
      assert j.JString? && items != [] ==> ServiceFromJson(items[0]) == Err(TypeError);
      ServicesFromJson(items)
    case Keys(keys) => if keys == {} then Ok([]) else Err(TypeError)
    case NotIterable => Err(TypeError)
  }

  /** The `try` block of `Server.from_json`: the size type and, for a
      custom machine, the two sizes of `instanceSize`. */
  function LatestSize(j: Json): Result<(Json, Json, Json), Failure> {
    var machineType :- Get(j, "instanceSizeType");
    if machineType == Custom then
      var size :- Get(j, "instanceSize");
      var milliCpus :- Get(size, "milliCpus");
      var memoryMb :- Get(size, "memoryMb");
      Ok((machineType, milliCpus, memoryMb))
    else Ok((machineType, JNull, JNull))
  }

  /** The `except KeyError` block: a custom machine with the sizes at the
      top level. */
  function LegacySize(j: Json): Result<(Json, Json, Json), Failure> {
    var milliCpus :- Get(j, "milliCpus");
    var memoryMb :- Get(j, "memoryMb");
    Ok((Custom, milliCpus, memoryMb))
  }

  /** The machine type and sizes `Server.from_json` settles on: those of
      the current format, or the legacy ones when a key of the current
      format is missing. */
  function SizeFields(j: Json): (r: Result<(Json, Json, Json), Failure>)
    ensures LatestSize(j).Ok? ==> r == LatestSize(j)
    ensures LatestSize(j).Err? && LatestSize(j).error.KeyError? ==> r == LegacySize(j)
    ensures LatestSize(j).Err? && !LatestSize(j).error.KeyError? ==> r == LatestSize(j)
  {
    match LatestSize(j)
    case Err(KeyError(_)) => LegacySize(j)
    case other => other
  }

  /** A server from a service without instance size types is a custom
      machine with the sizes at the top level of its JSON. */
  lemma LegacyServer(fields: map<string, Json>)
    requires "instanceSizeType" !in fields
    ensures SizeFields(JObject(fields)) == LegacySize(JObject(fields))
    ensures SizeFields(JObject(fields)).Ok? ==> SizeFields(JObject(fields)).value.0 == Custom
  {
  }

  /** A custom machine whose `instanceSize` lacks a size falls back to the
      top-level sizes too; one whose `instanceSize` is not an object does
      not, and fails. */
  lemma CustomWithoutSizes(fields: map<string, Json>)
    requires "instanceSizeType" in fields && fields["instanceSizeType"] == Custom
    requires "instanceSize" in fields
    ensures fields["instanceSize"].JObject? && "milliCpus" !in fields["instanceSize"].fields ==>
      SizeFields(JObject(fields)) == LegacySize(JObject(fields))
    ensures !fields["instanceSize"].JObject? ==> SizeFields(JObject(fields)) == Err(TypeError)
  {
  }

  /** `Server.from_json`: the services, the size fields, the remaining
      members in argument order, then the constructor. */
  function ServerFromJson(j: Json): (r: Result<Server, Failure>)
    ensures r.Ok? ==> ValidServer(r.value)
    ensures r.Ok? ==> SizeFields(j).Ok?
                      && (r.value.machineType, r.value.milliCpus, r.value.memoryMb) == SizeFields(j).value
    ensures r.Ok? ==> j.JObject? && "services" in j.fields && ServicesIn(j.fields["services"]) == Ok(r.value.services)
    ensures r.Ok? ==> "status" in j.fields && r.value.status == j.fields["status"]
    ensures r.Ok? ==> "instanceId" in j.fields && r.value.id == j.fields["instanceId"]
  {
    var servicesJson :- Get(j, "services");
    var services :- ServicesIn(servicesJson);
    var size :- SizeFields(j);
    var id :- Get(j, "instanceId");
    var projectId :- Get(j, "projectId");
    var ownerId :- Get(j, "ownerId");
    var name :- Get(j, "name");
    var serverType :- Get(j, "instanceType");
    var createdAt :- Get(j, "createdAt");
    var status :- Get(j, "status");
    NewServer(id, projectId, ownerId, name, serverType, size.0, size.1, size.2, createdAt, status, services)
  }

  /** `[Server.from_json(o) for o in items]`. */
  function ServersFromJson(items: seq<Json>): (r: Result<seq<Server>, Failure>)
    ensures r.Ok? <==> forall i | 0 <= i < |items| :: ServerFromJson(items[i]).Ok?
    ensures r.Ok? ==> |r.value| == |items| && forall i | 0 <= i < |items| :: r.value[i] == ServerFromJson(items[i]).value
    decreases |items|
  {
    if |items| == 0 then Ok([])
    else
      match ServerFromJson(items[0])
      case Err(e) => Err(e)
      case Ok(s) =>
        match ServersFromJson(items[1..])
        case Err(e) =>
          assert forall i | 1 <= i < |items| :: items[1..][i - 1] == items[i];
          Err(e)
        case Ok(rest) => Ok([s] + rest)
  }

  /** `[Server.from_json(o) for o in value]` for any JSON value, iterated
      as for the services. */
  function ServersIn(j: Json): (r: Result<seq<Server>, Failure>)
    ensures j.JArray? ==> r == ServersFromJson(j.items)
    ensures j == JObject(map[]) || j == JString("") ==> r == Ok([])
    ensures r.Ok? ==> j.JArray? || j == JObject(map[]) || j == JString("")
    ensures r.Ok? ==> forall s | s in r.value :: ValidServer(s)
    ensures j.JObject? ==> forall k | k in j.fields :: ServerFromJson(JString(k)).Err? && r == Err(ServerFromJson(JString(k)).error)
    ensures !j.JArray? && j != JObject(map[]) && j != JString("") ==> r == Err(TypeError)
  {
    match Iterate(j)
    case Items(items) =>
      assert j.JString? && items != [] ==> ServerFromJson(items[0]) == Err(TypeError);
      ServersFromJson(items)
    case Keys(keys) => if keys == {} then Ok([]) else Err(TypeError)
    case NotIterable => Err(TypeError)
  }

  /** `[s for s in servers if s.status == status]`. */
  function WithStatus(servers: seq<Server>, status: Json): seq<Server>
    decreases |servers|
  {
    if |servers| == 0 then []
    else (if servers[0].status == status then [servers[0]] else []) + WithStatus(servers[1..], status)
  }

  /** The filter keeps exactly the servers with that status, in their
      order. */
  lemma {:induction false} WithStatusKeeps(servers: seq<Server>, status: Json)
    ensures forall s :: s in WithStatus(servers, status) <==> s in servers && s.status == status
    ensures |WithStatus(servers, status)| <= |servers|
    ensures (forall i | 0 <= i < |servers| :: servers[i].status == status) ==> WithStatus(servers, status) == servers
    decreases |servers|
  {
    if |servers| > 0 {
      WithStatusKeeps(servers[1..], status);
      assert servers == [servers[0]] + servers[1..];
      if forall i | 0 <= i < |servers| :: servers[i].status == status {
        assert forall i | 0 <= i < |servers[1..]| :: servers[1..][i].status == status by {
          forall i | 0 <= i < |servers[1..]| ensures servers[1..][i].status == status {
            assert servers[1..][i] == servers[i + 1];
          }
        }
      }
    }
  }

  /** One step of the filter, on a server put in front. */
  lemma WithStatusCons(x: Server, rest: seq<Server>, status: Json)
    ensures WithStatus([x] + rest, status) == (if x.status == status then [x] else []) + WithStatus(rest, status)
  {
    assert ([x] + rest)[0] == x && ([x] + rest)[1..] == rest;
  }

  /** Filtering distributes over concatenation, so the order of the
      servers is kept. */
  lemma {:induction false} WithStatusAppend(a: seq<Server>, b: seq<Server>, status: Json)
    ensures WithStatus(a + b, status) == WithStatus(a, status) + WithStatus(b, status)
    decreases |a|
  {
    if |a| == 0 {
      assert a + b == b;
    } else {
      var x, rest := a[0], a[1..];
      assert a == [x] + rest && a + b == [x] + (rest + b);
      WithStatusAppend(rest, b, status);
      WithStatusCons(x, rest + b, status);
      WithStatusCons(x, rest, status);
      var head := if x.status == status then [x] else [];
      assert head + (WithStatus(rest, status) + WithStatus(b, status))
          == (head + WithStatus(rest, status)) + WithStatus(b, status);
    }
  }

  /** `Galleon.get_servers` after its request: the response checked, its
      JSON read as servers, then kept by status when one is given. */
  function GetServers(responseStatus: int, body: Option<Json>, status: Option<Json>): (r: Result<seq<Server>, Failure>)
    ensures IsErrorStatus(responseStatus) ==> r == Err(ServiceError(CheckResponse(responseStatus, body).error))
    ensures !IsErrorStatus(responseStatus) && body.None? ==> r == Err(InvalidJson)
    ensures r.Ok? <==> !IsErrorStatus(responseStatus) && body.Some? && ServersIn(body.value).Ok?
    ensures r.Ok? ==> r.value == (if status.None? then ServersIn(body.value).value
                                  else WithStatus(ServersIn(body.value).value, status.value))
    ensures !IsErrorStatus(responseStatus) && body.Some? && ServersIn(body.value).Err? ==> r == ServersIn(body.value)
    ensures r.Ok? ==> forall s | s in r.value :: ValidServer(s)
    ensures r.Ok? && status.Some? ==> forall s | s in r.value :: s.status == status.value
  {
    match CheckResponse(responseStatus, body)
    case Err(e) => Err(ServiceError(e))
    case Ok(_) =>
      if body.None? then Err(InvalidJson)
      else
        var servers :- ServersIn(body.value);
        if status.None? then Ok(servers)
        else
          WithStatusKeeps(servers, status.value);
          Ok(WithStatus(servers, status.value))
  }

  /** With a status, exactly the servers of the response with that status
      come back, in order; without one, all of them. */
  lemma GetServersKeeps(responseStatus: int, body: Option<Json>, status: Option<Json>)
    requires GetServers(responseStatus, body, status).Ok?
    ensures var all := ServersIn(body.value).value; var r := GetServers(responseStatus, body, status).value;
      if status.None? then r == all
      else forall s :: s in r <==> s in all && s.status == status.value
  {
    if status.Some? {
      WithStatusKeeps(ServersIn(body.value).value, status.value);
    }
  }

  /** `Server._get_service`: the first service of that name, or the
      `RuntimeError` when there is none. */
  method GetService(services: seq<Service>, name: string) returns (r: Result<Service, Failure>)
    ensures r.Ok? <==> exists i | 0 <= i < |services| :: services[i].name == JString(name)
    ensures r.Ok? ==> exists i | 0 <= i < |services| ::
      services[i] == r.value && r.value.name == JString(name)
      && forall k | 0 <= k < i :: services[k].name != JString(name)
    ensures r.Err? ==> r.error == RuntimeError("cube has no service called " + name)
  {
    var i := 0;
    while i < |services|
      invariant 0 <= i <= |services|
      invariant forall k | 0 <= k < i :: services[k].name != JString(name)
    {
      if services[i].name == JString(name) {
        return Ok(services[i]);
      }
      i := i + 1;
    }
    return Err(RuntimeError("cube has no service called " + name));
  }

  function SizeJson(size: Option<int>): Json {
    if size.Some? then JInt(size.value) else JNull
  }

  /** `Galleon.create_server`'s body, or the `ValueError` for sizes that
      break the rule. A custom machine sends both sizes, any other machine
      a `null` size; a name, a type version and environment ids are sent
      only when truthy. Read back the way `Server.from_json` reads a
      server, the body gives the machine type and sizes it was made from. */
  method CreateServerPayload(serverType: string, machineType: string, milliCpus: Option<int>, memoryMb: Option<int>,
                             name: Option<string>, typeVersion: Option<string>, environmentIds: Option<seq<string>>)
    returns (r: Result<map<string, Json>, Failure>)
    ensures r.Ok? <==> SizeRule(JString(machineType), SizeJson(milliCpus), SizeJson(memoryMb))
    ensures r.Err? && machineType == "custom" ==> r.error == ValueError(SizeNeeded)
    ensures r.Err? && machineType != "custom" ==> r.error == ValueError(SizeForbidden)
    ensures r.Ok? ==> "instanceType" in r.value && r.value["instanceType"] == JString(serverType)
    ensures r.Ok? ==> "instanceSizeType" in r.value && r.value["instanceSizeType"] == JString(machineType)
    ensures r.Ok? && machineType != "custom" ==> "instanceSize" in r.value && r.value["instanceSize"] == JNull
    ensures r.Ok? && machineType == "custom" ==>
      "instanceSize" in r.value && r.value["instanceSize"] == JObject(map["memoryMb" := SizeJson(memoryMb), "milliCpus" := SizeJson(milliCpus)])
    ensures r.Ok? ==> ("name" in r.value <==> Truthy(name))
    ensures r.Ok? && Truthy(name) ==> r.value["name"] == JString(name.value)
    ensures r.Ok? ==> ("typeVersion" in r.value <==> Truthy(typeVersion))
    ensures r.Ok? && Truthy(typeVersion) ==> r.value["typeVersion"] == JString(typeVersion.value)
    ensures r.Ok? ==> ("environmentIds" in r.value <==> Servers.NonEmpty(environmentIds))
    ensures r.Ok? && Servers.NonEmpty(environmentIds) ==>
      r.value["environmentIds"] == Servers.Strings(environmentIds.value)
    ensures r.Ok? ==> r.value.Keys <= {"instanceType", "instanceSizeType", "instanceSize", "name",
                                        "typeVersion", "environmentIds"}
    ensures r.Ok? ==> SizeFields(JObject(r.value))
                      == Ok((JString(machineType), SizeJson(milliCpus), SizeJson(memoryMb)))
  {
    var instanceSize: Json;
    if machineType == "custom" {
      if milliCpus.None? || memoryMb.None? {
        return Err(ValueError(SizeNeeded));
      }
      instanceSize := JObject(map["memoryMb" := JInt(memoryMb.value), "milliCpus" := JInt(milliCpus.value)]);
    } else {
      if milliCpus.Some? || memoryMb.Some? {
        return Err(ValueError(SizeForbidden));
      }
      instanceSize := JNull;
    }
    var payload := map["instanceType" := JString(serverType), "instanceSizeType" := JString(machineType),
                       "instanceSize" := instanceSize];
    if Truthy(name) {
      payload := payload["name" := JString(name.value)];
    }
    if Truthy(typeVersion) {
      payload := payload["typeVersion" := JString(typeVersion.value)];
    }
    if Servers.NonEmpty(environmentIds) {
      payload := payload["environmentIds" := Servers.Strings(environmentIds.value)];
    }
    SizeMembersReadBack(payload, machineType, instanceSize);
    r := Ok(payload);
  }

  /** The size members `create_server` sends read back as its arguments. */
  lemma SizeMembersReadBack(fields: map<string, Json>, machineType: string, instanceSize: Json)
    requires "instanceSizeType" in fields && fields["instanceSizeType"] == JString(machineType)
    requires "instanceSize" in fields && fields["instanceSize"] == instanceSize
    requires machineType == "custom" ==>
      instanceSize.JObject? && "milliCpus" in instanceSize.fields && "memoryMb" in instanceSize.fields
    ensures machineType == "custom" ==>
      SizeFields(JObject(fields)) == Ok((Custom, instanceSize.fields["milliCpus"], instanceSize.fields["memoryMb"]))
    ensures machineType != "custom" ==> SizeFields(JObject(fields)) == Ok((JString(machineType), JNull, JNull))
  {
  }

  const NoInstanceId := "Server created but could not retrieve ID"

  /** The end of `create_server`: the response checked, then the
      `instanceId` of its JSON object, or the `GalleonError` when the
      object has none. */
  function CreatedServerId(responseStatus: int, body: Option<Json>): (r: Result<Json, Failure>)
    ensures r.Ok? <==> !IsErrorStatus(responseStatus) && body.Some? && body.value.JObject?
                       && "instanceId" in body.value.fields
    ensures r.Ok? ==> r.value == body.value.fields["instanceId"]
    ensures !IsErrorStatus(responseStatus) && body.Some? && body.value.JObject? && "instanceId" !in body.value.fields ==>
      r == Err(GalleonError(NoInstanceId))
  {
    match CheckResponse(responseStatus, body)
    case Err(e) => Err(ServiceError(e))
    case Ok(_) =>
      if body.None? then Err(InvalidJson)
      else if !body.value.JObject? then Err(TypeError)
      else if "instanceId" !in body.value.fields then Err(GalleonError(NoInstanceId))
      else Ok(body.value.fields["instanceId"])
  }
}
