/** The decisions `faculty/datasets/__init__.py` takes around the object
    client: following list pages, hiding dot-files, telling files from
    directories, and what `rmdir`, `mv` and `get` do before any transfer.
    Responses of the object store are inputs. */
module FacultyDatasets {
  import opened Wrappers
  import opened Strings
  import opened DatasetsUtil

  // ---------------------------------------------------------------------------
  // Listing
  // ---------------------------------------------------------------------------

  /** One `ListObjectsResponse`: the object paths and the token of the next
      page, if any. */
  datatype ListPage = ListPage(paths: seq<string>, nextPageToken: Option<string>)

  /** The paths of `pages` in order. */
  function AllPaths(pages: seq<ListPage>): seq<string>
    decreases |pages|
  {
    if pages == [] then [] else AllPaths(pages[..|pages| - 1]) + pages[|pages| - 1].paths
  }

  /** The first page without a next token: where listing stops. */
  function FirstFinal(pages: seq<ListPage>): (r: Option<nat>)
    ensures r.Some? ==>
      r.value < |pages| && pages[r.value].nextPageToken.None?
      && forall i :: 0 <= i < r.value ==> pages[i].nextPageToken.Some?
    ensures r.None? ==> forall i :: 0 <= i < |pages| ==> pages[i].nextPageToken.Some?
    decreases |pages|
  {
    if pages == [] then None
    else if pages[0].nextPageToken.None? then Some(0)
    else match FirstFinal(pages[1..])
      case None => None
      case Some(k) => Some(k + 1)
  }

  /** The loop of `ls`: request `i` passes `tokens[i]` (no token first, then
      the previous page's) and is answered by `pages[i]`; the loop ends at
      the first page without a next token. Should the pages run out first,
      `complete` is false. */
  method ListAll(pages: seq<ListPage>) returns (paths: seq<string>, tokens: seq<Option<string>>, complete: bool)
    ensures |tokens| >= 1 && tokens[0].None?
    ensures forall i :: 0 <= i < |tokens| - 1 ==> i < |pages| && tokens[i + 1] == pages[i].nextPageToken
    ensures complete <==> FirstFinal(pages).Some?
    ensures complete ==> |tokens| == FirstFinal(pages).value + 1 && paths == AllPaths(pages[..|tokens|])
    ensures !complete ==> |tokens| == |pages| + 1
  {
    tokens := [None];
    if pages == [] {
      return [], tokens, false;
    }
    var response := pages[0];
    paths := response.paths;
    var k := 0;
    assert pages[..1][..0] == [];
    while response.nextPageToken.Some?
      invariant k < |pages| && response == pages[k] && |tokens| == k + 1 && tokens[0].None?
      invariant forall i :: 0 <= i < k ==> pages[i].nextPageToken.Some?
      invariant forall i :: 0 <= i < k ==> tokens[i + 1] == pages[i].nextPageToken
      invariant paths == AllPaths(pages[..k + 1])
      decreases |pages| - k
    {
      tokens := tokens + [response.nextPageToken];
      if k + 1 == |pages| {
        FirstFinalNone(pages);
        return paths, tokens, false;
      }
      k := k + 1;
      response := pages[k];
      assert pages[..k + 1][..k] == pages[..k];
      paths := paths + response.paths;
    }
    FirstFinalAt(pages, k);
    complete := true;
  }

  lemma {:induction false} FirstFinalAt(pages: seq<ListPage>, k: nat)
    requires k < |pages| && pages[k].nextPageToken.None?
    requires forall i :: 0 <= i < k ==> pages[i].nextPageToken.Some?
    ensures FirstFinal(pages) == Some(k)
    decreases k
  {
    if k > 0 {
      FirstFinalAt(pages[1..], k - 1);
    }
  }

  lemma {:induction false} FirstFinalNone(pages: seq<ListPage>)
    requires forall i :: 0 <= i < |pages| ==> pages[i].nextPageToken.Some?
    ensures FirstFinal(pages).None?
    decreases |pages|
  {
    if pages != [] {
      FirstFinalNone(pages[1..]);
    }
  }

  /** A path with a `/`-separated component that starts with `.`. */
  predicate Hidden(path: string) {
    var parts := Split(path, '/');
    exists i :: 0 <= i < |parts| && StartsWith(parts[i], ".")
  }

  /** The same test on characters: the path starts with `.` or has `/.`. */
  predicate DotAfterSlash(path: string) {
    (|path| > 0 && path[0] == '.') || exists i :: 1 <= i < |path| && path[i - 1] == '/' && path[i] == '.'
  }

  lemma SplitFirstDot(s: string)
    ensures StartsWith(Split(s, '/')[0], ".") <==> |s| > 0 && s[0] == '.'
  {
    if |s| > 0 && s[0] != '/' {
      var first := [s[0]] + Split(s[1..], '/')[0];
      assert first[0] == s[0];
    }
  }

  /** A field after the first starts with `.`. */
  predicate LaterDotField(parts: seq<string>) {
    exists j :: 1 <= j < |parts| && StartsWith(parts[j], ".")
  }

  /** A `.` directly after a `/`. */
  predicate SlashDot(s: string) {
    exists i :: 1 <= i < |s| && s[i - 1] == '/' && s[i] == '.'
  }

  lemma {:induction false} SplitLaterDot(s: string)
    ensures LaterDotField(Split(s, '/')) <==> SlashDot(s)
    decreases |s|
  {
    if |s| > 0 {
      SplitLaterDot(s[1..]);
      SplitFirstDot(s[1..]);
      if s[0] == '/' {
        SplitLaterDotSlash(s);
      } else {
        SplitLaterDotOther(s);
      }
    }
  }

  /** The step of `SplitLaterDot` for a leading `/`: a new empty field
      starts, and the old first field becomes a later one. */
  lemma SplitLaterDotSlash(s: string)
    requires |s| > 0 && s[0] == '/'
    requires LaterDotField(Split(s[1..], '/')) <==> SlashDot(s[1..])
    requires StartsWith(Split(s[1..], '/')[0], ".") <==> |s[1..]| > 0 && s[1] == '.'
    ensures LaterDotField(Split(s, '/')) <==> SlashDot(s)
  {
    var t := s[1..];
    var rest := Split(t, '/');
    var parts := Split(s, '/');
    assert parts == [""] + rest;
    if LaterDotField(parts) {
      var j :| 1 <= j < |parts| && StartsWith(parts[j], ".");
      assert parts[j] == rest[j - 1];
      if j == 1 {
        assert s[0] == '/' && s[1] == '.';
      } else {
        assert LaterDotField(rest);
        var i :| 1 <= i < |t| && t[i - 1] == '/' && t[i] == '.';
        assert s[i] == '/' && s[i + 1] == '.';
      }
    }
    if SlashDot(s) {
      var i :| 1 <= i < |s| && s[i - 1] == '/' && s[i] == '.';
      if i == 1 {
        assert StartsWith(parts[1], ".");
      } else {
        assert t[i - 2] == '/' && t[i - 1] == '.';
        var j :| 1 <= j < |rest| && StartsWith(rest[j], ".");
        assert parts[j + 1] == rest[j];
      }
    }
  }

  /** The step of `SplitLaterDot` for another leading character: it joins
      the first field, and the later fields are unchanged. */
  lemma SplitLaterDotOther(s: string)
    requires |s| > 0 && s[0] != '/'
    requires LaterDotField(Split(s[1..], '/')) <==> SlashDot(s[1..])
    ensures LaterDotField(Split(s, '/')) <==> SlashDot(s)
  {
    var rest := Split(s[1..], '/');
    var parts := Split(s, '/');
    assert parts[1..] == rest[1..];
    LaterFieldsAgree(parts, rest);
    SlashDotOther(s);
  }

  /** Two splits with the same later fields agree on `LaterDotField`. */
  lemma LaterFieldsAgree(parts: seq<string>, rest: seq<string>)
    requires |parts| >= 1 && |rest| >= 1 && parts[1..] == rest[1..]
    ensures LaterDotField(parts) <==> LaterDotField(rest)
  {
    if LaterDotField(parts) {
      var j :| 1 <= j < |parts| && StartsWith(parts[j], ".");
      assert parts[j] == parts[1..][j - 1] == rest[j];
    }
    if LaterDotField(rest) {
      var j :| 1 <= j < |rest| && StartsWith(rest[j], ".");
      assert rest[j] == rest[1..][j - 1] == parts[j];
    }
  }

  /** A leading character other than `/` adds no `/.` pair. */
  lemma SlashDotOther(s: string)
    requires |s| > 0 && s[0] != '/'
    ensures SlashDot(s) <==> SlashDot(s[1..])
  {
    var t := s[1..];
    if SlashDot(s) {
      var i :| 1 <= i < |s| && s[i - 1] == '/' && s[i] == '.';
      assert t[i - 2] == '/' && t[i - 1] == '.';
    }
    if SlashDot(t) {
      var i :| 1 <= i < |t| && t[i - 1] == '/' && t[i] == '.';
      assert s[i] == '/' && s[i + 1] == '.';
    }
  }

  /** A path is hidden exactly when it starts with `.` or contains `/.`. */
  lemma HiddenIffDotAfterSlash(path: string)
    ensures Hidden(path) <==> DotAfterSlash(path)
  {
    SplitFirstDot(path);
    SplitLaterDot(path);
    var parts := Split(path, '/');
    if StartsWith(parts[0], ".") {
      assert Hidden(path);
    }
  }

  /** The comprehension of `ls` that drops hidden paths, keeping order. */
  function NonHidden(paths: seq<string>): (r: seq<string>)
    ensures |r| <= |paths|
    ensures forall p :: p in r <==> p in paths && !Hidden(p)
    decreases |paths|
  {
    if paths == [] then []
    else if Hidden(paths[0]) then NonHidden(paths[1..])
    else [paths[0]] + NonHidden(paths[1..])
  }

  /** Filtering keeps the order: filtering a concatenation filters each
      part. */
  lemma {:induction false} NonHiddenAppend(a: seq<string>, b: seq<string>)
    ensures NonHidden(a + b) == NonHidden(a) + NonHidden(b)
    decreases |a|
  {
    if a == [] {
      assert a + b == b;
    } else {
      assert (a + b)[0] == a[0] && (a + b)[1..] == a[1..] + b;
      NonHiddenAppend(a[1..], b);
    }
  }

  /** `ls(prefix, show_hidden=...)` once the pages are collected. */
  function Visible(paths: seq<string>, showHidden: bool): (r: seq<string>)
    ensures showHidden ==> r == paths
    ensures !showHidden ==> forall p :: p in r <==> p in paths && !DotAfterSlash(p)
  {
    if showHidden then paths
    else
      forall p | p in paths ensures Hidden(p) <==> DotAfterSlash(p) {
        HiddenIffDotAfterSlash(p);
      }
      NonHidden(paths)
  }

  /** The listing of two pages where only the second page's path is
      visible. */
  lemma LsContinuationExample(hidden: string, visible: string)
    requires hidden == ".test-hidden-path" && visible == "test-path"
    ensures NonHidden([hidden, visible]) == [visible]
  {
    HiddenIffDotAfterSlash(hidden);
    HiddenIffDotAfterSlash(visible);
    assert hidden[0] == '.';
    assert visible[0] != '.' && '/' !in visible;
    assert [hidden, visible][1..] == [visible];
    assert [visible][1..] == [];
  }

  // ---------------------------------------------------------------------------
  // Files and directories
  // ---------------------------------------------------------------------------

  /** The prefix `_isdir` lists: the path with a `/` appended unless it has
      one. */
  function AsDirectory(projectPath: string): (r: string)
    ensures EndsWith(r, "/") && StartsWith(r, projectPath)
    ensures EndsWith(projectPath, "/") ==> r == projectPath
  {
    if EndsWith(projectPath, "/") then projectPath
    else
      EndsWithAppend(projectPath, "/");
      projectPath + "/"
  }

  /** `_isdir`: `listing(prefix)` is `ls(prefix, show_hidden=True)`. */
  predicate IsDir(projectPath: string, listing: string -> seq<string>) {
    |listing(AsDirectory(projectPath))| >= 1
  }

  /** `_isfile`: not a directory, and listed under its own rationalised
      name. */
  function IsFile(projectPath: string, listing: string -> seq<string>): (r: bool)
    ensures r ==> !IsDir(projectPath, listing)
    ensures !IsDir(projectPath, listing) ==> (r <==> Rationalise(projectPath) in listing(projectPath))
  {
    if IsDir(projectPath, listing) then false
    else exists i :: 0 <= i < |listing(projectPath)| && listing(projectPath)[i] == Rationalise(projectPath)
  }

  /** `_get_file`'s guard: a local destination ending in `/` names a
      directory and is refused before any download. */
  function GetFileGuard(projectPath: string, localPath: string): (r: Result<(), string>)
    ensures r.Err? <==> EndsWith(localPath, "/")
  {
    if EndsWith(localPath, "/") then
      Err("the source path '" + projectPath + "' is a normal file but the destination path '"
          + localPath + "' indicates a directory - please provide a full destination path")
    else Ok(())
  }

  /** What `mv` asks the object store to do. */
  datatype MoveAction = NoOp | CopyThenRemove(source: string, destination: string)

  /** `mv`: identical paths do nothing; otherwise a recursive copy followed
      by a recursive removal of the source. */
  function Mv(sourcePath: string, destinationPath: string): (r: MoveAction)
    ensures r.NoOp? <==> sourcePath == destinationPath
    ensures r.CopyThenRemove? ==> r.source == sourcePath && r.destination == destinationPath
  {
    if sourcePath == destinationPath then NoOp else CopyThenRemove(sourcePath, destinationPath)
  }

  /** The four outcomes of `rmdir`. */
  datatype RmdirOutcome = Remove(directory: string) | NotADirectory | NoSuchFileOrDirectory | DirectoryNotEmpty

  function RmdirMessage(projectPath: string, o: RmdirOutcome): string {
    match o
    case Remove(_) => ""
    case NotADirectory => "'" + projectPath + "' Not a directory"
    case NoSuchFileOrDirectory => "'" + projectPath + "' No such file or directory"
    case DirectoryNotEmpty => "'" + projectPath + "' Directory is not empty"
  }

  /** `rmdir`'s classification of `contents`, the listing under the given
      path: the rationalised path without its trailing slash is the file,
      with one slash the directory. */
  function Rmdir(projectPath: string, contents: seq<string>): (r: RmdirOutcome)
    ensures var asFile := RStripChar(Rationalise(projectPath), '/');
      var asDir := asFile + "/";
      (r.Remove? <==> contents == [asDir])
      && (r.Remove? ==> r.directory == asDir)
      && (r == NotADirectory <==> contents == [asFile])
      && (r == NoSuchFileOrDirectory <==> contents != [asFile] && asDir !in contents)
      && (r == DirectoryNotEmpty <==> contents != [asDir] && contents != [asFile] && asDir in contents)
  {
    var asFile := RStripChar(Rationalise(projectPath), '/');
    var asDir := asFile + "/";
    assert asFile != asDir;
    if contents == [asDir] then Remove(asDir)
    else if contents == [asFile] then NotADirectory
    else if asDir !in contents then NoSuchFileOrDirectory
    else DirectoryNotEmpty
  }

  /** An empty directory is removed as its `/`-terminated key whichever way
      its path is written. */
  lemma RmdirEitherSpelling(projectPath: string)
    requires Rationalise(projectPath) != "/"
    ensures var d := RStripChar(Rationalise(projectPath), '/') + "/";
      Rmdir(projectPath, [d]) == Remove(d)
  {
  }
}
