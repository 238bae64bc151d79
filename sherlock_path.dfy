/** `sherlockml/datasets/path.py`: project paths, the bucket keys they are
    stored under (`<project id>/<path>`), and parent-directory enumeration.
    `rationalise_projectpath` is the same algorithm as
    `DatasetsUtil.Rationalise` and is modelled by it. */
module SherlockPath {
  import opened Wrappers
  import opened Strings
  import opened PosixPath
  import opened DatasetsUtil
  import SherlockDatasetsSession

  /** `projectpath_to_bucketpath(project_path, project_id)`; a None project
      id is read from the environment, which may fail. */
  function ProjectToBucket(projectPath: string, projectId: Option<string>, env: map<string, string>)
    : (r: Result<string, string>)
    ensures projectId.Some? ==> r == Ok(projectId.value + Rationalise(projectPath))
    ensures projectId.None? ==> (r.Ok? <==> "SHERLOCKML_PROJECT_ID" in env)
  {
    var id :- SherlockDatasetsSession.ResolveProjectId(projectId, env);
    Ok(id + Rationalise(projectPath))
  }

  /** `bucketpath_to_projectpath(path)`: drop the first `/`-separated field
      and join the rest under `/`. */
  function BucketToProject(path: string): string {
    JoinAll("/", Split(path, '/')[1..])
  }

  /** `project_relative_path(project_root, project_path)`: both paths are
      rationalised; a path under the root is the root, a run of `/` and
      the relative path, which does not start with `/`; any other path is
      refused with a `ValueError` naming both. */
  function ProjectRelativePath(projectRoot: string, projectPath: string): (r: Result<string, string>)
    ensures r.Ok? <==> StartsWith(Rationalise(projectPath), Rationalise(projectRoot))
    ensures r.Ok? ==> r.value == LStripChar(Rationalise(projectPath)[|Rationalise(projectRoot)|..], '/')
    ensures r.Ok? ==> var root, path := Rationalise(projectRoot), Rationalise(projectPath);
      && !StartsWith(r.value, "/")
      && |root| + |r.value| <= |path|
      && path == root + path[|root|..|path| - |r.value|] + r.value
      && (forall i | |root| <= i < |path| - |r.value| :: path[i] == '/')
    ensures r.Err? ==> r.error == Rationalise(projectPath) + " is not a sub path of " + Rationalise(projectRoot)
  {
    var root := Rationalise(projectRoot);
    var path := Rationalise(projectPath);
    if !StartsWith(path, root) then Err(path + " is not a sub path of " + root)
    else
      var rest := path[|root|..];
      var rel := LStripChar(rest, '/');
      LStripCharRemoved(rest, '/');
      RootSlashesRest(root, path, rel);
      Ok(rel)
  }

  /** A path that starts with the root, and whose rest after the root is a
      run of slashes then `rel`, is the root, those slashes and `rel`. */
  lemma RootSlashesRest(root: string, path: string, rel: string)
    requires StartsWith(path, root)
    requires |rel| <= |path| - |root| && rel == path[|root|..][|path| - |root| - |rel|..]
    requires forall i | 0 <= i < |path| - |root| - |rel| :: path[|root|..][i] == '/'
    ensures |root| + |rel| <= |path|
    ensures path == root + path[|root|..|path| - |rel|] + rel
    ensures forall i | |root| <= i < |path| - |rel| :: path[i] == '/'
  {
    var rest := path[|root|..];
    var cut := |path| - |rel|;
    assert path[cut..] == rel by { assert rest[|rest| - |rel|..] == path[cut..]; }
    assert root == path[..|root|];
    assert path == path[..|root|] + path[|root|..cut] + path[cut..];
    forall i | |root| <= i < cut ensures path[i] == '/' {
      assert path[i] == rest[i - |root|];
    }
  }

  // ---------------------------------------------------------------------------
  // Bucket keys
  // ---------------------------------------------------------------------------

  /** Joining normal components onto the root with `posixpath.join` renders them. */
  lemma JoinAllRoot(cs: seq<string>)
    requires cs != [] && Normal(cs, true)
    ensures JoinAll("/", cs) == Render(1, cs)
  {
    assert cs[0][0] in cs[0];
    assert !StartsWith(cs[0], "/");
    var a := "/" + cs[0];
    assert Join("/", cs[0]) == a by { assert EndsWith("/", "/"); }
    assert a[|a| - 1] == cs[0][|cs[0]| - 1] by { assert cs[0][|cs[0]| - 1] in cs[0]; }
    EndsWithChar(a, '/');
    forall i | 0 <= i < |cs[1..]| ensures cs[1..][i] != "" && '/' !in cs[1..][i] {
      assert cs[1..][i] == cs[i + 1];
    }
    JoinAllPlain(a, cs[1..]);
    JoinPrefixFirst("/", cs[0], cs[1..], "/");
    assert [cs[0]] + cs[1..] == cs;
    assert Slashes(1) == "/";
  }

  /** The project path of a rationalised path's bucket key is that path again,
      provided the project id has no `/` and the path does not start with
      exactly two slashes. */
  lemma BucketRoundTripForm(id: string, cs: seq<string>, trailing: bool)
    requires '/' !in id && Normal(cs, true)
    ensures BucketToProject(id + Form(1, cs, trailing)) == Form(1, cs, trailing)
  {
    var body := JoinWith(cs, "/");
    var rest := body + (if trailing && cs != [] then "/" else "");
    assert Slashes(1) == "/";
    assert Form(1, cs, trailing) == "/" + rest;
    assert id + Form(1, cs, trailing) == id + ['/'] + rest;
    SplitAfterPiece(id, '/', rest);
    assert Split(id + Form(1, cs, trailing), '/')[1..] == Split(rest, '/');
    assert BucketToProject(id + Form(1, cs, trailing)) == JoinAll("/", Split(rest, '/'));
    if cs == [] {
      assert rest == "";
      assert JoinAll("/", [""]) == "/" by { assert EndsWith("/", "/"); }
    } else {
      SplitBody(cs);
      JoinAllRoot(cs);
      if trailing {
        SplitAppendSeparator(body, '/');
        JoinAllAppend("/", cs, [""]);
        RenderTrailingSlash(1, cs);
        var r := Render(1, cs);
        assert Split(rest, '/') == cs + [""];
        assert JoinAll(r, [""]) == Join(r, "");
        assert Join(r, "") == r + "/" + "";
        assert r + "/" + "" == Form(1, cs, trailing);
      } else {
        assert rest == body;
        assert Split(rest, '/') == cs;
        assert Form(1, cs, trailing) == Render(1, cs);
      }
    }
  }

  /** `bucketpath_to_projectpath(projectpath_to_bucketpath(p, id)) ==
      rationalise_projectpath(p)` for an id without `/` and a path that does
      not begin with exactly two slashes. */
  lemma BucketRoundTrip(p: string, id: string, env: map<string, string>)
    requires '/' !in id && InitialSlashes(Join("/", p)) == 1
    ensures ProjectToBucket(p, Some(id), env).Ok?
    ensures BucketToProject(ProjectToBucket(p, Some(id), env).value) == Rationalise(p)
  {
    RationaliseShape(p);
    var j := Join("/", p);
    BucketRoundTripForm(id, NormComps(j), EndsWith(j, "/"));
  }

  /** A path that starts with exactly two slashes keeps them when rationalised,
      and the bucket round trip loses one. */
  lemma BucketRoundTripTwoSlashes()
    ensures Rationalise("//a") == "//a"
    ensures BucketToProject("id" + Rationalise("//a")) == "/a"
  {
    assert "//a" == "//" + "a";
    assert '/' !in "id";
    RationaliseTwoSlashes("a");
    BucketToProjectTwoSlashes("id", "a");
    assert "id" + "//" + "a" == "id" + "//a";
  }

  /** A path of two slashes and one component is already rationalised. */
  lemma RationaliseTwoSlashes(c: string)
    requires NormalComp(c) && c != ".."
    ensures Rationalise("//" + c) == "//" + c
  {
    assert Slashes(2) == "//";
    assert Normal([c], true);
    assert Form(2, [c], false) == "//" + c;
    RationaliseForm(2, [c], false);
  }

  /** The bucket key of such a path maps back with one slash dropped. */
  lemma BucketToProjectTwoSlashes(id: string, c: string)
    requires '/' !in id && NormalComp(c)
    ensures BucketToProject(id + "//" + c) == "/" + c
  {
    assert id + "//" + c == id + ['/'] + ("/" + c);
    SplitAfterPiece(id, '/', "/" + c);
    SplitLeadingSlash(c);
    SplitNoSeparator(c, '/');
    var fields := Split(id + "//" + c, '/')[1..];
    assert fields == ["", c];
    assert Join("/", "") == "/" by { assert EndsWith("/", "/"); }
    assert c[0] in c;
    assert Join("/", c) == "/" + c by { assert EndsWith("/", "/"); }
    assert JoinAll("/", [c]) == "/" + c;
    assert fields[1..] == [c];
    assert JoinAll("/", fields) == JoinAll(Join("/", ""), [c]);
  }



  /** `"id/path/"` maps back to `"/path/"`. */
  lemma BucketToProjectExample()
    ensures BucketToProject("id/path/") == "/path/"
  {
    assert "path" == JoinWith(["path"], "/");
    assert Normal(["path"], true) by { assert '/' !in "path"; }
    assert Slashes(1) == "/";
    assert Form(1, ["path"], true) == "/path/";
    BucketRoundTripForm("id", ["path"], true);
    assert "id" + "/path/" == "id/path/";
  }

  // ---------------------------------------------------------------------------
  // Parent directories
  // ---------------------------------------------------------------------------

  /** Each prefix of `parts`, joined with `/` and followed by `/`. */
  function Prefixes(parts: seq<string>): (r: seq<string>)
    ensures |r| == |parts|
  {
    seq(|parts|, i requires 0 <= i < |parts| => JoinWith(parts[..i + 1], "/") + "/")
  }

  /** The loop of `project_parent_directories` over the split parts. */
  method PrefixDirectories(parts: seq<string>) returns (directories: seq<string>)
    ensures directories == Prefixes(parts)
  {
    directories := [];
    for iLast := 1 to |parts| + 1
      invariant |directories| == iLast - 1
      invariant forall i :: 0 <= i < iLast - 1 ==> directories[i] == JoinWith(parts[..i + 1], "/") + "/"
    {
      directories := directories + [JoinWith(parts[..iLast], "/") + "/"];
    }
    var spec := Prefixes(parts);
    assert forall i :: 0 <= i < |parts| ==> directories[i] == spec[i];
  }

  /** The parts `project_parent_directories` splits, as written. */
  function AsWrittenParts(projectPath: string): seq<string> {
    Split(Dirname(RStripChar(Rationalise(projectPath), '/')), '/')
  }

  /** The parts once the root's own `/` is removed from the dirname too. */
  function CorrectedParts(projectPath: string): seq<string> {
    Split(RStripChar(Dirname(RStripChar(Rationalise(projectPath), '/')), '/'), '/')
  }

  /** `project_parent_directories(project_path)` as written. */
  method ProjectParentDirectoriesAsWritten(projectPath: string) returns (directories: seq<string>)
    ensures directories == Prefixes(AsWrittenParts(projectPath))
  {
    var parts := AsWrittenParts(projectPath);
    directories := PrefixDirectories(parts);
  }

  /** Every ancestor directory of normal components, from the root down,
      excluding the path itself. */
  function Ancestors(cs: seq<string>): (r: seq<string>)
    ensures |r| == |cs|
  {
    seq(|cs|, i requires 0 <= i < |cs| => if i == 0 then "/" else Render(1, cs[..i]) + "/")
  }

  /** `project_parent_directories`, corrected: a file directly under the root
      has the root as its only parent. */
  method ProjectParentDirectories(projectPath: string) returns (directories: seq<string>)
    ensures directories == Prefixes(CorrectedParts(projectPath))
    ensures var j := Join("/", projectPath);
      InitialSlashes(j) == 1 && NormComps(j) != [] ==> directories == Ancestors(NormComps(j))
  {
    var parts := CorrectedParts(projectPath);
    directories := PrefixDirectories(parts);
    var j := Join("/", projectPath);
    if InitialSlashes(j) == 1 && NormComps(j) != [] {
      CorrectedParentsOfPath(projectPath);
    }
  }

  lemma RStripForm(cs: seq<string>, trailing: bool)
    requires cs != [] && Normal(cs, true)
    ensures RStripChar(Form(1, cs, trailing), '/') == Render(1, cs)
  {
    var r := Render(1, cs);
    RenderTrailingSlash(1, cs);
    EndsWithChar(r, '/');
    if trailing {
      var f := r + "/";
      assert f[..|f| - 1] == r;
    }
  }

  /** The parent text of a path with normal components `cs`. */
  lemma DirnameOfForm(cs: seq<string>, trailing: bool)
    requires cs != [] && Normal(cs, true)
    ensures Dirname(RStripChar(Form(1, cs, trailing), '/')) == Render(1, cs[..|cs| - 1])
  {
    RStripForm(cs, trailing);
    DirnameRender(cs);
  }

  /** The corrected parts are an empty root field followed by the parent's
      components. */
  lemma CorrectedPartsForm(cs: seq<string>, trailing: bool)
    requires cs != [] && Normal(cs, true)
    ensures var init := cs[..|cs| - 1];
      Split(RStripChar(Dirname(RStripChar(Form(1, cs, trailing), '/')), '/'), '/')
        == if init == [] then [""] else [""] + init
  {
    var init := cs[..|cs| - 1];
    DirnameOfForm(cs, trailing);
    NormalPrefix(cs, |cs| - 1, true);
    assert Slashes(1) == "/";
    if init == [] {
      assert Render(1, init) == "/";
      assert RStripChar("/", '/') == "";
    } else {
      RenderTrailingSlash(1, init);
      EndsWithChar(Render(1, init), '/');
      assert RStripChar(Render(1, init), '/') == "/" + JoinWith(init, "/");
      SplitLeadingSlash(JoinWith(init, "/"));
      SplitBody(init);
    }
  }

  /** The prefixes of `[""] + init` are the ancestors of `init + [last]`. */
  lemma PrefixesAncestors(cs: seq<string>)
    requires cs != []
    ensures var init := cs[..|cs| - 1];
      Prefixes(if init == [] then [""] else [""] + init) == Ancestors(cs)
  {
    var init := cs[..|cs| - 1];
    assert (if init == [] then [""] else [""] + init) == [""] + init;
    var p, a := Prefixes([""] + init), Ancestors(cs);
    forall i | 0 <= i < |cs| ensures p[i] == a[i] {
      PrefixAncestorAt(cs, i);
    }
  }

  /** Entry `i` of both lists. */
  lemma PrefixAncestorAt(cs: seq<string>, i: nat)
    requires i < |cs|
    ensures Prefixes([""] + cs[..|cs| - 1])[i] == Ancestors(cs)[i]
  {
    var init := cs[..|cs| - 1];
    if i == 0 {
      assert ([""] + init)[..1] == [""];
    } else {
      assert init[..i] == cs[..i];
      PrefixAncestor(init, i);
    }
  }

  /** Prefix `i` of `[""] + init` renders as the `i` first components under the root. */
  lemma PrefixAncestor(init: seq<string>, i: nat)
    requires 1 <= i <= |init|
    ensures JoinWith(([""] + init)[..i + 1], "/") == Render(1, init[..i])
  {
    assert ([""] + init)[..i + 1] == [""] + init[..i];
    JoinPrefixFirst("", "", init[..i], "/");
    assert JoinWith([""] + init[..i], "/") == "" + "/" + JoinWith(init[..i], "/") by {
      assert ([""] + init[..i])[1..] == init[..i];
    }
    assert Slashes(1) == "/";
  }


  lemma CorrectedParentsOfForm(cs: seq<string>, trailing: bool)
    requires cs != [] && Normal(cs, true)
    ensures Prefixes(Split(RStripChar(Dirname(RStripChar(Form(1, cs, trailing), '/')), '/'), '/')) == Ancestors(cs)
  {
    CorrectedPartsForm(cs, trailing);
    PrefixesAncestors(cs);
  }

  /** The corrected enumeration lists every ancestor from `/` down, each
      ending in `/`; a file path and a directory path give the same list. */
  lemma CorrectedParentsOfPath(p: string)
    requires InitialSlashes(Join("/", p)) == 1 && NormComps(Join("/", p)) != []
    ensures Prefixes(CorrectedParts(p)) == Ancestors(NormComps(Join("/", p)))
  {
    RationaliseShape(p);
    var j := Join("/", p);
    CorrectedParentsOfForm(NormComps(j), EndsWith(j, "/"));
  }

  /** Each ancestor ends with `/`, the first is the root, and each extends the
      one before it. */
  lemma AncestorsShape(cs: seq<string>)
    requires cs != [] && Normal(cs, true)
    ensures Ancestors(cs)[0] == "/"
    ensures forall i :: 0 <= i < |cs| ==> EndsWith(Ancestors(cs)[i], "/")
    ensures forall i :: 0 < i < |cs| ==> StartsWith(Ancestors(cs)[i], Ancestors(cs)[i - 1])
  {
    var a := Ancestors(cs);
    forall i | 0 <= i < |cs| ensures EndsWith(a[i], "/") {
      if i > 0 { EndsWithAppend(Render(1, cs[..i]), "/"); } else { assert EndsWith("/", "/"); }
    }
    forall i | 0 < i < |cs| ensures StartsWith(a[i], a[i - 1]) {
      NormalPrefix(cs, i, true);
      assert cs[..i] == cs[..i - 1] + [cs[i - 1]];
      if i == 1 {
        AncestorFirst(cs[..1]);
      } else {
        AncestorNext(cs[..i - 1], cs[i - 1]);
      }
    }
  }

  /** The first ancestor below the root starts with the root. */
  lemma AncestorFirst(cs: seq<string>)
    ensures StartsWith(Render(1, cs) + "/", "/")
  {
    assert Slashes(1) == "/";
  }

  /** One more component extends the ancestor above it. */
  lemma AncestorNext(init: seq<string>, last: string)
    requires init != []
    ensures StartsWith(Render(1, init + [last]) + "/", Render(1, init) + "/")
  {
    JoinWithSnoc(init, last, "/");
    var p := Render(1, init) + "/";
    assert Render(1, init + [last]) + "/" == p + last + "/";
  }


  /** A file path and its directory spelling have the same parents. */
  lemma ParentsFileOrDirectory(cs: seq<string>)
    requires cs != [] && Normal(cs, true)
    ensures Prefixes(Split(RStripChar(Dirname(RStripChar(Form(1, cs, false), '/')), '/'), '/'))
         == Prefixes(Split(RStripChar(Dirname(RStripChar(Form(1, cs, true), '/')), '/'), '/'))
  {
    CorrectedParentsOfForm(cs, false);
    CorrectedParentsOfForm(cs, true);
  }

  lemma AsWrittenPartsTopLevel()
    ensures AsWrittenParts("/a.csv") == ["", ""]
  {
    var cs := ["a.csv"];
    assert Normal(cs, true) by { assert '/' !in "a.csv"; }
    assert Slashes(1) == "/";
    assert Form(1, cs, false) == "/a.csv";
    RationaliseForm(1, cs, false);
    DirnameOfForm(cs, false);
    assert cs[..0] == [];
    assert Render(1, []) == "/";
    SplitLeadingSlash("");
    assert "/" + "" == "/";
  }

  lemma PrefixesTwoEmpty()
    ensures Prefixes(["", ""]) == ["/", "//"]
  {
    var parts := ["", ""];
    var p := Prefixes(parts);
    assert parts[..1] == [""] && parts[..2] == parts;
    assert JoinWith([""], "/") == "";
    assert parts[1..] == [""];
    assert JoinWith(parts, "/") == "" + "/" + "";
    assert p[0] == "" + "/";
    assert p[1] == "/" + "/";
    assert "" + "/" == "/" && "/" + "/" == "//";
    assert p == [p[0], p[1]];
  }

  /** As written, a file directly under the root gets `"//"` as a second parent. */
  lemma AsWrittenTopLevelFile()
    ensures Prefixes(AsWrittenParts("/a.csv")) == ["/", "//"]
  {
    AsWrittenPartsTopLevel();
    PrefixesTwoEmpty();
  }

  /** Below the top level, the written and corrected enumerations agree. */
  lemma AsWrittenAgreesBelowTop(cs: seq<string>, trailing: bool)
    requires |cs| >= 2 && Normal(cs, true)
    ensures Prefixes(Split(Dirname(RStripChar(Form(1, cs, trailing), '/')), '/')) == Ancestors(cs)
  {
    var init := cs[..|cs| - 1];
    DirnameOfForm(cs, trailing);
    NormalPrefix(cs, |cs| - 1, true);
    assert Slashes(1) == "/";
    SplitLeadingSlash(JoinWith(init, "/"));
    SplitBody(init);
    PrefixesAncestors(cs);
  }
}
