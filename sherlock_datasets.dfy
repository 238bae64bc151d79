/** `sherlockml/datasets/__init__.py`: the decisions the S3-backed datasets
    functions take around their storage calls. Listings are inputs: the
    pages `list_objects_v2` answers, or `listing(prefix)` for
    `ls(prefix, show_hidden=True)`. `_isdir` and `_isfile` are the same
    tests as in the faculty datasets module and are modelled by
    `FacultyDatasets.IsDir` and `FacultyDatasets.IsFile`. A project id is
    taken as already resolved. */
module SherlockDatasets {
  import opened Wrappers
  import opened Strings
  import opened PosixPath
  import opened DatasetsUtil
  import opened SherlockPath
  import opened FacultyDatasets

  /** The bucket key of a project path, `projectpath_to_bucketpath`. */
  function Key(projectId: string, projectPath: string): string {
    projectId + Rationalise(projectPath)
  }

  /** A key ends with `/` exactly when its rationalised project path does. */
  lemma KeyTrailingSlash(projectId: string, projectPath: string)
    ensures EndsWith(Key(projectId, projectPath), "/") <==> EndsWith(Rationalise(projectPath), "/")
  {
    var r := Rationalise(projectPath);
    RationaliseAbsolute(projectPath);
    assert |r| >= 1;
    var k := projectId + r;
    assert k[|k| - 1] == r[|r| - 1];
    EndsWithChar(k, '/');
    EndsWithChar(r, '/');
  }

  // ---------------------------------------------------------------------------
  // ls
  // ---------------------------------------------------------------------------

  /** One page from the `list_objects_v2` paginator: its object keys, or
      None for a page without `Contents`. */
  datatype ObjectsPage = ObjectsPage(contents: Option<seq<string>>)

  /** The project paths of some keys, re-rooted and without the project root. */
  function PagePaths(keys: seq<string>): seq<string>
  {
    if keys == [] then []
    else
      var p := BucketToProject(keys[|keys| - 1]);
      PagePaths(keys[..|keys| - 1]) + (if p != "/" then [p] else [])
  }

  /** A page contributes exactly the re-rooted keys other than the root. */
  lemma {:induction false} PagePathsMembers(keys: seq<string>)
    ensures forall p :: p in PagePaths(keys) <==> p != "/" && exists i :: 0 <= i < |keys| && BucketToProject(keys[i]) == p
  {
    if keys != [] {
      var init := keys[..|keys| - 1];
      PagePathsMembers(init);
      assert forall i :: 0 <= i < |init| ==> init[i] == keys[i];
    }
  }

  /** The paths of every page, in order; pages without contents add nothing. */
  function ListedPaths(pages: seq<ObjectsPage>): seq<string>
  {
    if pages == [] then []
    else
      var init := ListedPaths(pages[..|pages| - 1]);
      match pages[|pages| - 1].contents
      case None => init
      case Some(keys) => init + PagePaths(keys)
  }

  /** The listing holds exactly the paths of the pages with contents, and
      never the project root. */
  lemma {:induction false} ListedPathsMembers(pages: seq<ObjectsPage>)
    ensures "/" !in ListedPaths(pages)
    ensures forall p :: p in ListedPaths(pages) <==>
      exists i :: 0 <= i < |pages| && pages[i].contents.Some? && p in PagePaths(pages[i].contents.value)
  {
    if pages != [] {
      var init := pages[..|pages| - 1];
      ListedPathsMembers(init);
      assert forall i :: 0 <= i < |init| ==> init[i] == pages[i];
      if pages[|pages| - 1].contents.Some? {
        PagePathsMembers(pages[|pages| - 1].contents.value);
      }
    }
  }

  /** The last page's paths follow the earlier pages'. */
  lemma ListedPathsSnoc(pages: seq<ObjectsPage>, page: ObjectsPage)
    ensures ListedPaths(pages + [page]) ==
      ListedPaths(pages) + (if page.contents.Some? then PagePaths(page.contents.value) else [])
  {
    assert (pages + [page])[..|pages|] == pages;
  }

  /** The inner loop of `ls`: one page's keys appended to `acc`. */
  method AppendPagePaths(acc: seq<string>, objects: seq<string>) returns (all: seq<string>)
    ensures all == acc + PagePaths(objects)
  {
    all := acc;
    for j := 0 to |objects|
      invariant all == acc + PagePaths(objects[..j])
    {
      assert objects[..j + 1][..j] == objects[..j];
      var projectPath := BucketToProject(objects[j]);
      if projectPath != "/" {
        all := all + [projectPath];
      }
    }
    assert objects[..|objects|] == objects;
  }

  /** `ls(prefix, show_hidden)` over the paginator's pages. */
  method Ls(pages: seq<ObjectsPage>, showHidden: bool) returns (paths: seq<string>)
    ensures paths == Visible(ListedPaths(pages), showHidden)
    ensures "/" !in paths
    ensures forall p :: p in paths ==> p in ListedPaths(pages)
    ensures !showHidden ==> forall p :: p in paths ==> !DotAfterSlash(p)
  {
    var all: seq<string> := [];
    for i := 0 to |pages|
      invariant all == ListedPaths(pages[..i])
    {
      ListedPathsSnoc(pages[..i], pages[i]);
      assert pages[..i + 1] == pages[..i] + [pages[i]];
      match pages[i].contents
      case None =>
      case Some(objects) =>
        all := AppendPagePaths(all, objects);
    }
    assert pages[..|pages|] == pages;
    paths := Visible(all, showHidden);
    ListedPathsMembers(pages);
  }

  // ---------------------------------------------------------------------------
  // Parent directories
  // ---------------------------------------------------------------------------

  /** The parents that need a placeholder: not the root, and not listed. */
  function MissingParents(parents: seq<string>, existing: set<string>): seq<string>
  {
    if parents == [] then []
    else
      var d := parents[|parents| - 1];
      MissingParents(parents[..|parents| - 1], existing)
        + (if d != "/" && d !in existing then [d] else [])
  }

  /** Exactly the parents other than the root that are not listed. */
  lemma {:induction false} MissingParentsMembers(parents: seq<string>, existing: set<string>)
    ensures forall d :: d in MissingParents(parents, existing) <==> d in parents && d != "/" && d !in existing
  {
    if parents != [] {
      var init := parents[..|parents| - 1];
      MissingParentsMembers(init, existing);
      assert parents == init + [parents[|parents| - 1]];
    }
  }

  /** The loop of `_create_parent_directories` over the parent directories:
      `existing` is the one up-front `set(ls("/", show_hidden=True))`;
      `created` are the directories given a placeholder and `keys` the keys
      put. */
  method CreatePlaceholders(parents: seq<string>, projectId: string, existing: set<string>)
    returns (created: seq<string>, keys: seq<string>)
    ensures created == MissingParents(parents, existing)
    ensures forall d :: d in created <==> d in parents && d != "/" && d !in existing
    ensures |keys| == |created| && forall i :: 0 <= i < |keys| ==> keys[i] == Key(projectId, created[i])
  {
    created, keys := [], [];
    for i := 0 to |parents|
      invariant created == MissingParents(parents[..i], existing)
      invariant |keys| == |created| && forall k :: 0 <= k < |keys| ==> keys[k] == Key(projectId, created[k])
    {
      assert parents[..i + 1][..i] == parents[..i];
      var dirname := parents[i];
      if dirname == "/" {
        continue;
      }
      if dirname !in existing {
        created := created + [dirname];
        keys := keys + [Key(projectId, dirname)];
      }
    }
    assert parents[..|parents|] == parents;
    MissingParentsMembers(parents, existing);
  }

  /** `_create_parent_directories(project_path, project_id, s3_client)`,
      `listing` being the one up-front `ls("/", show_hidden=True)`. */
  method CreateParentDirectories(projectPath: string, projectId: string, listing: seq<string>)
    returns (created: seq<string>, keys: seq<string>)
    ensures created == MissingParents(Prefixes(CorrectedParts(projectPath)), set p | p in listing)
    ensures |keys| == |created| && forall i :: 0 <= i < |keys| ==> keys[i] == Key(projectId, created[i])
    ensures var j := Join("/", projectPath);
      InitialSlashes(j) == 1 && NormComps(j) != [] ==>
        forall d :: d in created <==> d in Ancestors(NormComps(j)) && d != "/" && d !in listing
  {
    var allObjects := set p | p in listing;
    var parents := ProjectParentDirectories(projectPath);
    created, keys := CreatePlaceholders(parents, projectId, allObjects);
  }

  // ---------------------------------------------------------------------------
  // Guards
  // ---------------------------------------------------------------------------

  /** `_put_file`: a destination key ending in `/` names a directory and is
      refused; otherwise the file is uploaded under that key. */
  function PutFile(localPath: string, projectPath: string, projectId: string): (r: Result<string, string>)
    ensures r.Err? <==> EndsWith(Join("/", projectPath), "/") || NormComps(Join("/", projectPath)) == []
    ensures r.Ok? ==> r.value == Key(projectId, projectPath)
  {
    KeyTrailingSlash(projectId, projectPath);
    RationaliseTrailingSlash(projectPath);
    var bucketPath := Key(projectId, projectPath);
    if EndsWith(bucketPath, "/") then
      Err("the destination path '" + projectPath + "' indicates a directory but the source path '"
          + localPath + "' is a normal file - please provide a full destination path")
    else Ok(bucketPath)
  }

  /** `_get_file`'s guard, refusing a local destination ending in `/`; the
      message names the project path as the destination, as written. */
  function GetFileGuard(projectPath: string, localPath: string): (r: Result<(), string>)
    ensures r.Err? <==> EndsWith(localPath, "/")
  {
    if EndsWith(localPath, "/") then
      Err("the destination path '" + projectPath + "' indicates a directory but the source path '"
          + localPath + "' is a normal file - please provide a full destination path")
    else Ok(())
  }

  /** The request `cp` sends: copy one key to another. */
  datatype CopyRequest = CopyRequest(sourceKey: string, destinationKey: string)

  /** `cp(source_path, destination_path)`. */
  function Cp(sourcePath: string, destinationPath: string, projectId: string, listing: string -> seq<string>)
    : (r: Result<CopyRequest, string>)
    ensures r.Ok? <==> IsFile(sourcePath, listing) && !EndsWith(destinationPath, "/")
    ensures r.Ok? ==> !IsDir(sourcePath, listing) && Rationalise(sourcePath) in listing(sourcePath)
    ensures r.Ok? ==> r.value == CopyRequest(Key(projectId, sourcePath), Key(projectId, destinationPath))
    ensures !IsFile(sourcePath, listing) ==> r == Err("source_path must be a file")
    ensures IsFile(sourcePath, listing) && EndsWith(destinationPath, "/") ==>
      r == Err("destination_path must be a file path")
  {
    if !IsFile(sourcePath, listing) then Err("source_path must be a file")
    else if EndsWith(destinationPath, "/") then Err("destination_path must be a file path")
    else Ok(CopyRequest(Key(projectId, sourcePath), Key(projectId, destinationPath)))
  }

  /** `rm(project_path)`: the key deleted, once the path is known to be a file. */
  function Rm(projectPath: string, projectId: string, listing: string -> seq<string>): (r: Result<string, string>)
    ensures r.Ok? <==> IsFile(projectPath, listing)
    ensures r.Ok? ==> !IsDir(projectPath, listing) && r.value == Key(projectId, projectPath)
    ensures r.Err? ==> r.error == "not a file"
  {
    if !IsFile(projectPath, listing) then Err("not a file") else Ok(Key(projectId, projectPath))
  }

  /** `rmdir(project_path)`: a directory whose listing holds exactly one
      entry, its own placeholder, is deleted under its `/`-terminated key. */
  function Rmdir(projectPath: string, projectId: string, listing: string -> seq<string>): (r: Result<string, string>)
    ensures r.Ok? <==> IsDir(projectPath, listing) && |listing(projectPath)| == 1
    ensures r.Ok? ==> r.value == Key(projectId, AsDirectory(projectPath)) && EndsWith(r.value, "/")
    ensures !IsDir(projectPath, listing) ==> r == Err("not a directory")
    ensures IsDir(projectPath, listing) && |listing(projectPath)| != 1 ==> r == Err("directory is not empty")
  {
    if !IsDir(projectPath, listing) then Err("not a directory")
    else if |listing(projectPath)| != 1 then Err("directory is not empty")
    else
      var d := AsDirectory(projectPath);
      DirectoryKeyTrailingSlash(projectId, d);
      Ok(Key(projectId, d))
  }

  /** The key of a `/`-terminated path is `/`-terminated. */
  lemma DirectoryKeyTrailingSlash(projectId: string, d: string)
    requires EndsWith(d, "/")
    ensures EndsWith(Key(projectId, d), "/")
  {
    KeyTrailingSlash(projectId, d);
    RationaliseTrailingSlash(d);
    var j := Join("/", d);
    if !StartsWith(d, "/") {
      assert j == "/" + d;
      EndsWithChar(d, '/');
      assert j[|j| - 1] == d[|d| - 1];
      EndsWithChar(j, '/');
    }
  }

  // ---------------------------------------------------------------------------
  // etag
  // ---------------------------------------------------------------------------

  /** `etag(project_path)`: the object's ETag with surrounding `"` removed. */
  function Etag(raw: string): (r: string)
    ensures r == "" || (r[0] != '"' && r[|r| - 1] != '"')
    ensures exists a, b :: AllChar(a, '"') && AllChar(b, '"') && raw == a + r + b
  {
    StripCharEnds(raw, '"');
    StripCharParts(raw, '"');
    StripChar(raw, '"')
  }

  /** A quoted ETag loses exactly its quotes. */
  lemma EtagQuoted(e: string)
    requires e == "" || (e[0] != '"' && e[|e| - 1] != '"')
    ensures Etag("\"" + e + "\"") == e
  {
    StripCharEnclosed(e, '"');
    assert "\"" + e + "\"" == ['"'] + e + ['"'];
  }
}
