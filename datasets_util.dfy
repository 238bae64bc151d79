/** `faculty/datasets/util.py`: every datasets path is made absolute and
    normalised, keeping a trailing slash that marks a directory. The same
    rationalisation appears as `_rationalise_path` in the datasets package and
    as `rationalise_projectpath` in the older `sherlockml` package. */
module DatasetsUtil {
  import opened Wrappers
  import opened Strings
  import opened PosixPath

  /** The text of every rationalised path: `k` leading slashes, normal
      components, and a trailing slash when it marks a directory. */
  function Form(k: nat, cs: seq<string>, trailing: bool): string {
    Render(k, cs) + (if trailing && cs != [] then "/" else "")
  }

  /** `rationalise_path(path)`. */
  function Rationalise(path: string): string {
    var joined := Join("/", path);
    var normed := NormPath(joined);
    if EndsWith(joined, "/") && !EndsWith(normed, "/") then normed + "/" else normed
  }

  /** `get_relative_path(parent_directory, directory)`: the `ValueError` of a
      directory that does not extend its parent as text becomes `Err`. */
  function GetRelativePath(parentDirectory: string, directory: string): (r: Result<string, string>)
    ensures r.Err? <==> !StartsWith(Rationalise(directory), Rationalise(parentDirectory))
  {
    var parent := Rationalise(parentDirectory);
    var child := Rationalise(directory);
    if !StartsWith(child, parent) then Err(child + " is not a sub path of " + parent)
    else
      RationaliseAbsolute(parentDirectory);
      RationaliseAbsolute(directory);
      Ok(RelPath(child, parent))
  }

  // ---------------------------------------------------------------------------
  // Helper facts
  // ---------------------------------------------------------------------------

  lemma JoinRoot(p: string)
    ensures Join("/", p) == if StartsWith(p, "/") then p else "/" + p
    ensures StartsWith(Join("/", p), "/") && InitialSlashes(Join("/", p)) >= 1
  {
    assert EndsWith("/", "/");
  }

  lemma InitialSlashesOf(s: string, k: nat)
    requires k <= 2 && |s| > k && s[k] != '/'
    requires forall i :: 0 <= i < k ==> s[i] == '/'
    ensures InitialSlashes(s) == k
  {
    if k == 0 {
      assert !StartsWith(s, "/");
    } else if k == 1 {
      assert StartsWith(s, "/") by { assert s[..1] == "/"; }
      assert !StartsWith(s, "//");
    } else {
      assert StartsWith(s, "//") by { assert s[..2] == "//"; }
      assert !StartsWith(s, "///");
    }
  }

  /** A rendered path ends with a slash exactly when it has no components. */
  lemma RenderTrailingSlash(k: nat, cs: seq<string>)
    requires k > 0 && Normal(cs, true)
    ensures |Render(k, cs)| >= k && Render(k, cs)[0] == '/'
    ensures EndsWith(Render(k, cs), "/") <==> cs == []
    ensures cs != [] ==> |Render(k, cs)| > k && Render(k, cs)[k] != '/'
  {
    var r := Render(k, cs);
    SlashesLength(k);
    EndsWithChar(r, '/');
    if cs == [] {
      assert r == Slashes(k);
      assert r[0] == Slashes(k)[0];
    } else {
      JoinedBodyEdges(cs);
      var b := JoinWith(cs, "/");
      assert r[k] == b[0];
      assert r[|r| - 1] == b[|b| - 1];
    }
  }

  /** `normpath` maps every form to its components under `k` slashes. */
  lemma NormPathForm(k: nat, cs: seq<string>, trailing: bool)
    requires 1 <= k <= 2 && Normal(cs, true)
    ensures InitialSlashes(Form(k, cs, trailing)) == k
    ensures NormComps(Form(k, cs, trailing)) == cs
    ensures NormPath(Form(k, cs, trailing)) == Render(k, cs)
  {
    var r := Render(k, cs);
    SlashesLength(k);
    NormCompsRender(k, cs);
    if trailing && cs != [] {
      var f := r + "/";
      assert Form(k, cs, trailing) == f;
      RenderTrailingSlash(k, cs);
      SlashesLength(k);
      forall i | 0 <= i < k ensures f[i] == '/' { assert f[i] == r[i] == Slashes(k)[i]; }
      assert f[k] == r[k];
      InitialSlashesOf(f, k);
      SplitAppendSeparator(r, '/');
      ResolveTrailingEmpty([], Split(r, '/'), true);
    } else {
      assert Form(k, cs, trailing) == r;
    }
  }

  lemma NormPathShapeAbsolute(j: string)
    requires StartsWith(j, "/")
    ensures 1 <= InitialSlashes(j) <= 2 && Normal(NormComps(j), true)
    ensures NormPath(j) == Render(InitialSlashes(j), NormComps(j))
  {
    NormPathShape(j);
  }

  // ---------------------------------------------------------------------------
  // What rationalisation produces
  // ---------------------------------------------------------------------------

  /** Every rationalised path is a form: one or two leading slashes, normal
      components, and a trailing slash iff the joined input had one. */
  lemma RationaliseShape(p: string)
    ensures var j := Join("/", p);
      1 <= InitialSlashes(j) <= 2 && Normal(NormComps(j), true)
      && Rationalise(p) == Form(InitialSlashes(j), NormComps(j), EndsWith(j, "/"))
  {
    var j := Join("/", p);
    JoinRoot(p);
    NormPathShapeAbsolute(j);
    var k, cs := InitialSlashes(j), NormComps(j);
    RenderTrailingSlash(k, cs);
  }

  /** `rationalise_path` always returns an absolute path. */
  lemma RationaliseAbsolute(p: string)
    ensures StartsWith(Rationalise(p), "/")
  {
    RationaliseShape(p);
    var j := Join("/", p);
    RenderTrailingSlash(InitialSlashes(j), NormComps(j));
    var r := Rationalise(p);
    assert r[0] == '/';
  }

  /** The result ends with `/` exactly when the joined input did, or when it
      is the root (for example `"."` gives `"/"`). */
  lemma RationaliseTrailingSlash(p: string)
    ensures EndsWith(Rationalise(p), "/") <==> EndsWith(Join("/", p), "/") || NormComps(Join("/", p)) == []
  {
    RationaliseShape(p);
    var j := Join("/", p);
    var k, cs := InitialSlashes(j), NormComps(j);
    RenderTrailingSlash(k, cs);
    if EndsWith(j, "/") && cs != [] {
      EndsWithAppend(Render(k, cs), "/");
    }
  }

  /** Every form is a fixed point; in particular `"/"`, `"/path"` and
      `"/path/"` are returned unchanged. */
  lemma RationaliseForm(k: nat, cs: seq<string>, trailing: bool)
    requires 1 <= k <= 2 && Normal(cs, true)
    ensures Rationalise(Form(k, cs, trailing)) == Form(k, cs, trailing)
  {
    var f := Form(k, cs, trailing);
    var r := Render(k, cs);
    RenderTrailingSlash(k, cs);
    assert f[0] == r[0];
    assert StartsWith(f, "/");
    JoinRoot(f);
    NormPathForm(k, cs, trailing);
    if trailing && cs != [] {
      EndsWithAppend(r, "/");
    }
  }

  /** `rationalise_path` is idempotent. */
  lemma RationaliseIdempotent(p: string)
    ensures Rationalise(Rationalise(p)) == Rationalise(p)
  {
    RationaliseShape(p);
    var j := Join("/", p);
    RationaliseForm(InitialSlashes(j), NormComps(j), EndsWith(j, "/"));
  }

  lemma PathComponent()
    ensures Normal(["path"], true)
    ensures Form(1, ["path"], false) == "/path" && Form(1, ["path"], true) == "/path/"
  {
    assert '/' !in "path";
    assert Slashes(1) == "/";
  }

  /** Already rationalised paths come back unchanged. */
  lemma RationaliseFixedExamples()
    ensures Rationalise("/") == "/"
    ensures Rationalise("/path") == "/path"
    ensures Rationalise("/path/") == "/path/"
  {
    assert Slashes(1) == "/";
    assert Form(1, [], false) == "/";
    RationaliseForm(1, [], false);
    PathComponent();
    RationaliseForm(1, ["path"], false);
    RationaliseForm(1, ["path"], true);
  }

  /** Relative inputs are rooted at `/`, and the empty path is the root. */
  lemma RationaliseRelativeExamples()
    ensures Rationalise("") == "/"
    ensures Rationalise("path") == "/path"
  {
    RationaliseFixedExamples();
    assert Join("/", "") == "/";
    assert Join("/", "path") == "/path";
  }

  lemma NormCompsDotRoot()
    ensures InitialSlashes("/./") == 1 && NormComps("/./") == []
  {
    SplitJoin(["", ".", ""], '/');
    assert JoinWith(["", ".", ""], "/") == "/./";
    assert Resolve([], ["", ".", ""], true) == [];
  }

  lemma NormCompsDotPath(c: string)
    requires NormalComp(c) && c != ".."
    ensures InitialSlashes("/./" + c + "/") == 1 && NormComps("/./" + c + "/") == [c]
  {
    var parts := ["", ".", c, ""];
    assert forall i :: 0 <= i < |parts| ==> '/' !in parts[i];
    SplitJoin(parts, '/');
    assert parts[1..] == [".", c, ""] && [".", c, ""][1..] == [c, ""] && [c, ""][1..] == [""];
    assert JoinWith([c, ""], "/") == c + "/";
    assert JoinWith([".", c, ""], "/") == "./" + c + "/";
    assert JoinWith(parts, "/") == "/./" + c + "/";
    var p := "/./" + c + "/";
    assert p[1] == '.';
    assert Resolve([c], [""], true) == [c];
    assert Resolve([], [c, ""], true) == [c];
    assert Resolve([], [".", c, ""], true) == [c];
    assert Resolve([], parts, true) == [c];
  }



  /** A leading `./` is dropped and the trailing slash kept. */
  lemma RationaliseDotExamples()
    ensures Rationalise("./") == "/"
    ensures Rationalise("./path/") == "/path/"
  {
    RationaliseDotRoot("./");
    RationaliseDotPath("./path/");
  }

  lemma RationaliseDotRoot(p: string)
    requires p == "./"
    ensures Rationalise(p) == "/"
  {
    assert Join("/", p) == "/./";
    NormCompsDotRoot();
    assert Slashes(1) == "/";
    assert NormPath("/./") == "/";
    EndsWithChar("/./", '/');
  }

  lemma RationaliseDotPath(p: string)
    requires p == "./path/"
    ensures Rationalise(p) == "/path/"
  {
    assert p == "./" + "path" + "/";
    RationaliseDotComp("path");
  }

  /** A leading `./` disappears from a one-component directory path. */
  lemma RationaliseDotComp(c: string)
    requires NormalComp(c) && c != ".."
    ensures Rationalise("./" + c + "/") == "/" + c + "/"
  {
    var q := "/./" + c + "/";
    var p := "./" + c + "/";
    assert p[0] == '.';
    JoinRoot(p);
    assert Join("/", p) == q;
    NormCompsDotPath(c);
    assert Slashes(1) == "/";
    assert NormPath(q) == "/" + c;
    EndsWithChar(q, '/');
    EndsWithChar("/" + c, '/');
    assert ("/" + c)[|"/" + c| - 1] == c[|c| - 1];
  }



  // ---------------------------------------------------------------------------
  // Relative paths
  // ---------------------------------------------------------------------------

  lemma {:induction false} CommonPrefixOfExtension(a: seq<string>, b: seq<string>)
    ensures CommonPrefixLength(a, a + b) == |a|
    decreases |a|
  {
    if |a| > 0 {
      assert (a + b)[0] == a[0];
      assert (a + b)[1..] == a[1..] + b;
      CommonPrefixOfExtension(a[1..], b);
    }
  }

  /** A rationalised prefix of a rationalised path. */
  lemma FormPrefix(pcs: seq<string>, ccs: seq<string>, t1: bool, t2: bool)
    requires ccs != [] && Normal(pcs + ccs, true)
    ensures StartsWith(Form(1, pcs + ccs, t2), Form(1, pcs, t1))
  {
    assert Slashes(1) == "/";
    if pcs == [] {
      assert Form(1, pcs, t1) == "/";
      assert pcs + ccs == ccs;
      assert Form(1, ccs, t2)[0] == '/';
    } else {
      JoinWithAppend(pcs, ccs, "/");
      FormPrefixBody(JoinWith(pcs, "/"), JoinWith(ccs, "/"), t1, t2);
    }
  }

  lemma FormPrefixBody(p: string, c: string, t1: bool, t2: bool)
    ensures StartsWith("/" + (p + "/" + c) + (if t2 then "/" else ""), "/" + p + (if t1 then "/" else ""))
  {
    var whole := "/" + (p + "/" + c) + (if t2 then "/" else "");
    if t1 {
      assert whole[..|p| + 2] == "/" + p + "/";
    } else {
      assert whole[..|p| + 1] == "/" + p;
    }
  }


  /** Below its parent, a rationalised directory's relative path is the
      remaining components joined with `/`. */
  lemma GetRelativePathBelow(pcs: seq<string>, ccs: seq<string>, t1: bool, t2: bool)
    requires ccs != [] && Normal(pcs + ccs, true)
    ensures GetRelativePath(Form(1, pcs, t1), Form(1, pcs + ccs, t2)) == Ok(JoinWith(ccs, "/"))
  {
    var all := pcs + ccs;
    assert pcs == all[..|pcs|];
    assert ccs == all[|pcs|..];
    NormalPrefix(all, |pcs|, true);
    RationaliseForm(1, pcs, t1);
    RationaliseForm(1, all, t2);
    FormPrefix(pcs, ccs, t1, t2);
    NormPathForm(1, pcs, t1);
    NormPathForm(1, all, t2);
    NonEmptyRender(1, pcs);
    NonEmptyRender(1, all);
    CommonPrefixOfExtension(pcs, ccs);
    var rel := Repeat("..", 0) + all[|pcs|..];
    assert rel == ccs;
    forall i | 0 <= i < |ccs| ensures ccs[i] != "" && '/' !in ccs[i] {
      assert ccs[i] == all[|pcs| + i];
    }
    assert ccs[0] != "" && '/' !in ccs[0];
    EndsWithChar(ccs[0], '/');
    assert ccs[0][|ccs[0]| - 1] in ccs[0];
    JoinAllPlain(ccs[0], ccs[1..]);
    assert [ccs[0]] + ccs[1..] == ccs;
  }

  /** A directory relative to itself is `"."`. */
  lemma GetRelativePathSelf(cs: seq<string>, t: bool)
    requires Normal(cs, true)
    ensures GetRelativePath(Form(1, cs, t), Form(1, cs, t)) == Ok(".")
  {
    RationaliseForm(1, cs, t);
    NormPathForm(1, cs, t);
    NonEmptyRender(1, cs);
    CommonPrefixOfExtension(cs, []);
    assert cs + [] == cs;
  }

  lemma SingleComponent(c: string)
    requires NormalComp(c) && c != ".."
    ensures Normal([c], true) && Form(1, [c], false) == "/" + c
    ensures Rationalise("/" + c) == "/" + c && NormPath("/" + c) == "/" + c
    ensures NonEmpty(Split("/" + c, '/')) == [c]
  {
    assert Slashes(1) == "/";
    assert Form(1, [c], false) == "/" + c;
    RationaliseForm(1, [c], false);
    NormPathForm(1, [c], false);
    NonEmptyRender(1, [c]);
  }

  /** `relpath` between two sibling components climbs one level. */
  lemma RelPathSibling(x: string, y: string)
    requires NormalComp(x) && x != ".." && NormalComp(y) && y != ".." && x != y
    ensures RelPath("/" + y, "/" + x) == "../" + y
  {
    SingleComponent(x);
    SingleComponent(y);
    assert CommonPrefixLength([x], [y]) == 0;
    RelPathSiblingList(y);
  }

  lemma RelPathSiblingList(y: string)
    requires y != "" && '/' !in y
    ensures var rel := Repeat("..", 1) + [y][0..]; JoinAll(rel[0], rel[1..]) == "../" + y
  {
    assert Repeat("..", 1) + [y][0..] == ["..", y];
    assert y[0] in y;
    assert Join("..", y) == "../" + y;
    assert ["..", y][1..] == [y];
  }


  /** The prefix test is on text, not on components: `"/ab"` passes as a
      sub path of `"/a"` and comes back as `"../ab"`. */
  lemma GetRelativePathTextPrefix(parent: string, directory: string)
    requires parent == "/a" && directory == "/ab"
    ensures GetRelativePath(parent, directory) == Ok("../ab")
  {
    var x, y := "a", "ab";
    assert parent == "/" + x && directory == "/" + y;
    assert StartsWith("/" + y, "/" + x);
    GetRelativePathSibling(x, y);
    assert "../" + y == "../ab";
  }


  /** A sibling whose name extends the parent's name as text is accepted
      and reached through `..`. */
  lemma GetRelativePathSibling(x: string, y: string)
    requires NormalComp(x) && x != ".." && NormalComp(y) && y != ".." && x != y
    requires StartsWith("/" + y, "/" + x)
    ensures GetRelativePath("/" + x, "/" + y) == Ok("../" + y)
  {
    SingleComponent(x);
    SingleComponent(y);
    RelPathSibling(x, y);
  }

}
