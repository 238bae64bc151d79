/** `faculty/clients/workspace.py`: the file tree the workspace service
    lists. A node is a file or a directory, told apart by its `type` and
    checked to carry exactly that kind's fields; a directory's content is
    loaded node by node with the same schema. The modification time is kept
    as the text sent. */
module Workspace {
  import opened Wrappers
  import opened Json

  datatype FileNode =
    | File(path: string, name: string, lastModified: string, size: int)
    | Directory(path: string, name: string, lastModified: string, size: int, truncated: bool,
                content: seq<FileNode>)

  datatype NodeType = FileType | DirectoryType

  /** The fields of `File` and of `Directory`, by their JSON names. */
  const FileFields: set<string> := {"path", "name", "last_modified", "size"}

  const DirectoryFields: set<string> := FileFields + {"truncated", "content"}

  /** Every field `_FileNodeSchema` declares; the schema drops any other
      member before it validates. */
  const SchemaFields: set<string> := DirectoryFields + {"type"}

  function NodeTypeText(t: NodeType): string {
    match t
    case FileType => "file"
    case DirectoryType => "directory"
  }

  function NodeTypeFromText(s: string): (r: Option<NodeType>)
    ensures r.Some? <==> s == "file" || s == "directory"
    ensures r.Some? ==> NodeTypeText(r.value) == s
  {
    if s == "file" then Some(FileType) else if s == "directory" then Some(DirectoryType) else None
  }

  /** `validate_type`: the fields loaded are exactly the kind's fields and
      `type`. */
  predicate FieldsFit(t: NodeType, present: set<string>) {
    present * SchemaFields == (if t == DirectoryType then DirectoryFields else FileFields) + {"type"}
  }

  /** Only the two optional fields tell the kinds apart: a directory has
      both, a file neither. */
  lemma FieldsFitIff(t: NodeType, present: set<string>)
    requires FileFields + {"type"} <= present
    ensures t == DirectoryType ==> (FieldsFit(t, present) <==> "truncated" in present && "content" in present)
    ensures t == FileType ==> (FieldsFit(t, present) <==> "truncated" !in present && "content" !in present)
  {
    var known := present * SchemaFields;
    if t == DirectoryType && "truncated" in present && "content" in present {
      assert known == DirectoryFields + {"type"};
    }
    if t == FileType && "truncated" !in present && "content" !in present {
      assert known == FileFields + {"type"};
    }
    if t == FileType && FieldsFit(t, present) {
      assert "truncated" !in FileFields + {"type"};
      assert "content" !in FileFields + {"type"};
    }
  }

  predicate Required(f: map<string, Json>) {
    && "path" in f && f["path"].JString?
    && "name" in f && f["name"].JString?
    && "type" in f && f["type"].JString? && NodeTypeFromText(f["type"].s).Some?
    && "last_modified" in f && f["last_modified"].JString?
    && "size" in f && f["size"].JInt?
  }

  /** `_FileNodeSchema().load`: the required fields, an optional boolean
      `truncated`, an optional list of nodes `content` each loaded the same
      way, then `validate_type`, then `make_file_node`. */
  function LoadNode(j: Json): (r: Option<FileNode>)
    ensures r.Some? ==> j.JObject? && Required(j.fields)
    ensures r.Some? ==> (r.value.Directory? <==> j.fields["type"] == JString("directory"))
    ensures r.Some? ==> FieldsFit(NodeTypeFromText(j.fields["type"].s).value, j.fields.Keys)
    ensures r.Some? && r.value.Directory? ==>
      && "content" in j.fields && j.fields["content"].JArray?
      && |r.value.content| == |j.fields["content"].items|
      && forall i | 0 <= i < |r.value.content| :: LoadNode(j.fields["content"].items[i]) == Some(r.value.content[i])
    decreases j
  {
    if j.JObject? && Required(j.fields) then
      var f := j.fields;
      var t := NodeTypeFromText(f["type"].s).value;
      var truncatedOk := "truncated" !in f || f["truncated"].JBool?;
      var contentOk := "content" !in f || f["content"].JArray?;
      if !truncatedOk || !contentOk then None
      else
        var items := if "content" in f then f["content"].items else [];
        var loaded := seq(|items|, i requires 0 <= i < |items| => LoadNode(items[i]));
        if (exists i | 0 <= i < |loaded| :: loaded[i].None?) || !FieldsFit(t, f.Keys) then None
        else
          var content := seq(|loaded|, i requires 0 <= i < |loaded| => loaded[i].value);
          match t
          case DirectoryType =>
            Some(Directory(f["path"].s, f["name"].s, f["last_modified"].s, f["size"].i, f["truncated"].b, content))
          case FileType =>
            Some(File(f["path"].s, f["name"].s, f["last_modified"].s, f["size"].i))
    else None
  }

  /** A node as the workspace service sends it. */
  function DumpNode(n: FileNode): Json
    decreases n
  {
    match n
    case File(path, name, modified, size) =>
      JObject(map["path" := JString(path), "name" := JString(name), "type" := JString("file"),
                  "last_modified" := JString(modified), "size" := JInt(size)])
    case Directory(path, name, modified, size, truncated, content) =>
      JObject(map["path" := JString(path), "name" := JString(name), "type" := JString("directory"),
                  "last_modified" := JString(modified), "size" := JInt(size),
                  "truncated" := JBool(truncated),
                  "content" := JArray(seq(|content|, i requires 0 <= i < |content| => DumpNode(content[i])))])
  }

  /** Every file tree loads back from its JSON as itself, at every depth. */
  lemma {:induction false} NodeRoundTrip(n: FileNode)
    ensures LoadNode(DumpNode(n)) == Some(n)
    decreases n
  {
    var f := DumpNode(n).fields;
    match n
    case File(path, name, modified, size) =>
      assert f.Keys == FileFields + {"type"};
      assert FieldsFit(FileType, f.Keys);
    case Directory(path, name, modified, size, truncated, content) =>
      assert f.Keys == DirectoryFields + {"type"};
      assert FieldsFit(DirectoryType, f.Keys);
      var items := f["content"].items;
      forall i | 0 <= i < |content| ensures LoadNode(items[i]) == Some(content[i]) {
        NodeRoundTrip(content[i]);
      }
      var loaded := seq(|items|, i requires 0 <= i < |items| => LoadNode(items[i]));
      assert seq(|loaded|, i requires 0 <= i < |loaded| => loaded[i].value) == content;
  }

  /** A file carrying a directory's field, or a directory missing one, is
      refused. */
  lemma WrongFieldsRejected(f: map<string, Json>)
    requires Required(f)
    ensures f["type"] == JString("file") && ("truncated" in f || "content" in f) ==> LoadNode(JObject(f)).None?
    ensures f["type"] == JString("directory") && ("truncated" !in f || "content" !in f) ==>
      LoadNode(JObject(f)).None?
  {
    var t := NodeTypeFromText(f["type"].s).value;
    FieldsFitIff(t, f.Keys);
  }

  /** The query `WorkspaceClient.list` sends. */
  function ListParams(prefix: string, depth: int): (r: map<string, Json>)
    ensures r.Keys == {"depth", "prefix"} && r["depth"] == JInt(depth) && r["prefix"] == JString(prefix)
  {
    map["depth" := JInt(depth), "prefix" := JString(prefix)]
  }

  /** `WorkspaceClient.list` after its request: the list response's
      `content`, every node of which must load. */
  function ListContent(body: Json): (r: Option<seq<FileNode>>)
    ensures r.Some? ==>
      && body.JObject? && "content" in body.fields && body.fields["content"].JArray?
      && |r.value| == |body.fields["content"].items|
      && forall i | 0 <= i < |r.value| :: LoadNode(body.fields["content"].items[i]) == Some(r.value[i])
  {
    if body.JObject? && "project_id" in body.fields && body.fields["project_id"].JString?
       && "path" in body.fields && body.fields["path"].JString?
       && "content" in body.fields && body.fields["content"].JArray?
    then
      var items := body.fields["content"].items;
      if forall i | 0 <= i < |items| :: LoadNode(items[i]).Some? then
        Some(seq(|items|, i requires 0 <= i < |items| => LoadNode(items[i]).value))
      else None
    else None
  }

  /** A listing of dumped nodes gives those nodes back. */
  lemma ListRoundTrip(projectId: string, path: string, nodes: seq<FileNode>)
    ensures ListContent(JObject(map["project_id" := JString(projectId), "path" := JString(path),
                                    "content" := JArray(seq(|nodes|, i requires 0 <= i < |nodes| => DumpNode(nodes[i])))]))
            == Some(nodes)
  {
    var items := seq(|nodes|, i requires 0 <= i < |nodes| => DumpNode(nodes[i]));
    forall i | 0 <= i < |nodes| ensures LoadNode(items[i]) == Some(nodes[i]) {
      NodeRoundTrip(nodes[i]);
    }
    var body := JObject(map["project_id" := JString(projectId), "path" := JString(path), "content" := JArray(items)]);
    assert body.fields["content"].items == items;
    assert body.fields["project_id"] == JString(projectId) && body.fields["path"] == JString(path);
    assert seq(|items|, i requires 0 <= i < |items| => LoadNode(items[i]).value) == nodes;
  }
}
