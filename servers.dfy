/** `faculty/clients/server.py`: the body `ServerClient.create` sends for
    each kind of server resources, the query of `ServerClient.list`, and how
    `_ServerSchema.make_server` turns the size fields of a server back into
    resources. */
module Servers {
  import opened Wrappers
  import opened Json
  import opened Truthiness

  /** The resources a server is created with. `OtherResources` is any other
      value a caller passes, carried with its `str`. */
  datatype ServerResources =
    | SharedResources(milliCpus: int, memoryMb: int)
    | DedicatedResources(nodeType: string)
    | OtherResources(text: string)

  datatype ServerSize = ServerSize(milliCpus: int, memoryMb: int)

  const MissingServerSize := "server_size must be provided for custom server_size_type"

  /** `make_server`: a `"custom"` size type needs a size and gives shared
      resources of that size; any other size type names a dedicated node
      type, whatever size comes with it. */
  function MakeResources(sizeType: string, size: Option<ServerSize>): (r: Result<ServerResources, string>)
    ensures r.Err? <==> sizeType == "custom" && size.None?
    ensures r.Err? ==> r.error == MissingServerSize
    ensures r.Ok? && sizeType == "custom" ==>
      r.value == SharedResources(size.value.milliCpus, size.value.memoryMb)
    ensures r.Ok? && sizeType != "custom" ==> r.value == DedicatedResources(sizeType)
  {
    if sizeType == "custom" then
      if size.Some? then Ok(SharedResources(size.value.milliCpus, size.value.memoryMb))
      else Err(MissingServerSize)
    else Ok(DedicatedResources(sizeType))
  }

  /** `_ServerSizeSchema().load`. */
  function LoadServerSize(j: Json): (r: Option<ServerSize>)
    ensures r.Some? <==> j.JObject? && "milliCpus" in j.fields && j.fields["milliCpus"].JInt?
                         && "memoryMb" in j.fields && j.fields["memoryMb"].JInt?
  {
    if j.JObject? && "milliCpus" in j.fields && j.fields["milliCpus"].JInt?
       && "memoryMb" in j.fields && j.fields["memoryMb"].JInt?
    then Some(ServerSize(j.fields["milliCpus"].i, j.fields["memoryMb"].i))
    else None
  }

  /** The resources `_ServerSchema` loads from a server's members: the
      string `instanceSizeType`, and `instanceSize`, which may be missing
      but not `null`; `None` where the schema refuses the members. */
  function LoadResources(fields: map<string, Json>): (r: Option<ServerResources>)
    ensures r.Some? ==> "instanceSizeType" in fields && fields["instanceSizeType"].JString?
    ensures r.Some? ==> !r.value.OtherResources?
    ensures r.Some? && "instanceSize" !in fields ==> r.value.DedicatedResources?
  {
    if "instanceSizeType" in fields && fields["instanceSizeType"].JString? then
      var size := if "instanceSize" in fields then LoadServerSize(fields["instanceSize"]) else None;
      if "instanceSize" in fields && size.None? then None
      else match MakeResources(fields["instanceSizeType"].s, size)
        case Ok(res) => Some(res)
        case Err(_) => None
    else None
  }

  /** Shared resources read back from the size members `create` sends. */
  lemma SharedReadBack(fields: map<string, Json>, cpus: int, memory: int)
    requires "instanceSizeType" in fields && fields["instanceSizeType"] == JString("custom")
    requires "instanceSize" in fields
    requires fields["instanceSize"] == JObject(map["milliCpus" := JInt(cpus), "memoryMb" := JInt(memory)])
    ensures LoadResources(fields) == Some(SharedResources(cpus, memory))
  {
    assert LoadServerSize(fields["instanceSize"]) == Some(ServerSize(cpus, memory));
  }

  /** A dedicated node type read back from the one size member `create`
      sends, unless that node type is `"custom"`, which then lacks a size. */
  lemma DedicatedReadBack(fields: map<string, Json>, nodeType: string)
    requires "instanceSizeType" in fields && fields["instanceSizeType"] == JString(nodeType)
    requires "instanceSize" !in fields
    ensures nodeType != "custom" ==> LoadResources(fields) == Some(DedicatedResources(nodeType))
    ensures nodeType == "custom" ==> LoadResources(fields) == None
  {
  }

  /** A Python value that is truthy: a non-empty list. */
  predicate NonEmpty(ids: Option<seq<string>>) {
    ids.Some? && |ids.value| > 0
  }

  function Strings(xs: seq<string>): (r: Json)
    ensures r.JArray? && |r.items| == |xs| && forall i | 0 <= i < |xs| :: r.items[i] == JString(xs[i])
  {
    JArray(seq(|xs|, i requires 0 <= i < |xs| => JString(xs[i])))
  }

  /** `ServerClient.create`'s body, or the `ValueError` it raises for
      resources of neither kind. The size members follow the resources'
      kind; a name, an image version and environment ids are sent only when
      truthy. The size members read back, by the rule the server schema
      uses, as the resources they were sent for, unless a dedicated node
      type is itself called `"custom"`. */
  method CreatePayload(serverType: string, resources: ServerResources, name: Option<string>,
                       imageVersion: Option<string>, environmentIds: Option<seq<string>>)
    returns (r: Result<map<string, Json>, string>)
    ensures r.Err? <==> resources.OtherResources?
    ensures r.Err? ==> r.error == "Invalid server_resources " + resources.text
    ensures r.Ok? ==> "instanceType" in r.value && r.value["instanceType"] == JString(serverType)
    ensures r.Ok? ==> "instanceSizeType" in r.value
    ensures r.Ok? && resources.SharedResources? ==>
      && r.value["instanceSizeType"] == JString("custom")
      && "instanceSize" in r.value
      && r.value["instanceSize"] == JObject(map["milliCpus" := JInt(resources.milliCpus),
                                                "memoryMb" := JInt(resources.memoryMb)])
    ensures r.Ok? && resources.DedicatedResources? ==>
      r.value["instanceSizeType"] == JString(resources.nodeType) && "instanceSize" !in r.value
    ensures r.Ok? ==> ("name" in r.value <==> Truthy(name))
    ensures r.Ok? && Truthy(name) ==> r.value["name"] == JString(name.value)
    ensures r.Ok? ==> ("typeVersion" in r.value <==> Truthy(imageVersion))
    ensures r.Ok? && Truthy(imageVersion) ==> r.value["typeVersion"] == JString(imageVersion.value)
    ensures r.Ok? ==> ("environmentIds" in r.value <==> NonEmpty(environmentIds))
    ensures r.Ok? && NonEmpty(environmentIds) ==> r.value["environmentIds"] == Strings(environmentIds.value)
    ensures r.Ok? ==> r.value.Keys <= {"instanceType", "instanceSizeType", "instanceSize", "name",
                                        "typeVersion", "environmentIds"}
    ensures r.Ok? && !(resources.DedicatedResources? && resources.nodeType == "custom") ==>
      LoadResources(r.value) == Some(resources)
    ensures r.Ok? && resources.DedicatedResources? && resources.nodeType == "custom" ==>
      LoadResources(r.value) == None
  {
    var payload := map["instanceType" := JString(serverType)];
    match resources {
      case SharedResources(cpus, memory) =>
        payload := payload["instanceSizeType" := JString("custom")];
        payload := payload["instanceSize" := JObject(map["milliCpus" := JInt(cpus), "memoryMb" := JInt(memory)])];
      case DedicatedResources(nodeType) =>
        payload := payload["instanceSizeType" := JString(nodeType)];
      case OtherResources(text) =>
        return Err("Invalid server_resources " + text);
    }
    if Truthy(name) {
      payload := payload["name" := JString(name.value)];
    }
    if Truthy(imageVersion) {
      payload := payload["typeVersion" := JString(imageVersion.value)];
    }
    if NonEmpty(environmentIds) {
      payload := payload["environmentIds" := Strings(environmentIds.value)];
    }
    if resources.SharedResources? {
      SharedReadBack(payload, resources.milliCpus, resources.memoryMb);
    } else {
      DedicatedReadBack(payload, resources.nodeType);
    }
    r := Ok(payload);
  }

  /** The query of `ServerClient.list`: none, or the name to match. */
  function ListParams(name: Option<string>): (r: Option<map<string, string>>)
    ensures r.Some? <==> name.Some?
    ensures r.Some? ==> r.value.Keys == {"name"} && r.value["name"] == name.value
  {
    if name.Some? then Some(map["name" := name.value]) else None
  }
}
