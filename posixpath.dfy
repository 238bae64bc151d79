/** A model of the parts of Python's `posixpath` that the datasets code relies
    on: `join`, `normpath`, `dirname` and `relpath`, plus a normal-form
    description of what `normpath` produces. */
module PosixPath {
  import opened Strings

  // ---------------------------------------------------------------------------
  // join
  // ---------------------------------------------------------------------------

  /** `posixpath.join(a, b)`: an absolute `b` replaces `a`; otherwise a `/`
      is inserted unless `a` is empty or already ends in one. */
  function Join(a: string, b: string): string {
    if StartsWith(b, "/") then b
    else if a == "" || EndsWith(a, "/") then a + b
    else a + "/" + b
  }

  /** `posixpath.join(a, *bs)`. */
  function JoinAll(a: string, bs: seq<string>): string
    decreases |bs|
  {
    if |bs| == 0 then a else JoinAll(Join(a, bs[0]), bs[1..])
  }

  lemma {:induction false} JoinAllAppend(a: string, xs: seq<string>, ys: seq<string>)
    ensures JoinAll(a, xs + ys) == JoinAll(JoinAll(a, xs), ys)
    decreases |xs|
  {
    if |xs| > 0 {
      assert (xs + ys)[0] == xs[0];
      assert (xs + ys)[1..] == xs[1..] + ys;
      JoinAllAppend(Join(a, xs[0]), xs[1..], ys);
    } else {
      assert xs + ys == ys;
    }
  }

  // ---------------------------------------------------------------------------
  // normpath
  // ---------------------------------------------------------------------------

  /** The number of leading slashes `normpath` keeps: exactly two are kept,
      one or three or more become one. */
  function InitialSlashes(p: string): nat {
    if !StartsWith(p, "/") then 0
    else if StartsWith(p, "//") && !StartsWith(p, "///") then 2
    else 1
  }

  function Slashes(k: nat): string
    decreases k
  {
    if k == 0 then "" else "/" + Slashes(k - 1)
  }

  /** One iteration of the `normpath` component loop. */
  function Step(acc: seq<string>, comp: string, absolute: bool): seq<string> {
    if comp == "" || comp == "." then acc
    else if comp != ".." || (!absolute && |acc| == 0) || (|acc| > 0 && acc[|acc| - 1] == "..") then
      acc + [comp]
    else if |acc| > 0 then acc[..|acc| - 1]
    else acc
  }

  function Resolve(acc: seq<string>, comps: seq<string>, absolute: bool): seq<string>
    decreases |comps|
  {
    if |comps| == 0 then acc else Resolve(Step(acc, comps[0], absolute), comps[1..], absolute)
  }

  /** The components `normpath` keeps. */
  function NormComps(p: string): seq<string> {
    Resolve([], Split(p, '/'), InitialSlashes(p) > 0)
  }

  /** `posixpath.normpath(p)`. */
  function NormPath(p: string): string {
    if p == "" then "."
    else
      var r := Slashes(InitialSlashes(p)) + JoinWith(NormComps(p), "/");
      if r == "" then "." else r
  }

  /** One component as `normpath` leaves it: non-empty, not `.`, no `/`. */
  predicate NormalComp(c: string) { c != "" && c != "." && '/' !in c }

  /** What normpath's components look like: every component is normal, and
      `..` occurs only in a leading run, and never in an absolute path. */
  predicate Normal(cs: seq<string>, absolute: bool) {
    (forall i :: 0 <= i < |cs| ==> NormalComp(cs[i]))
    && (absolute ==> forall i :: 0 <= i < |cs| ==> cs[i] != "..")
    && (forall i, j :: 0 <= i < j < |cs| && cs[j] == ".." ==> cs[i] == "..")
  }

  predicate SlashFree(cs: seq<string>) {
    forall i :: 0 <= i < |cs| ==> '/' !in cs[i]
  }

  lemma NormalPrefix(cs: seq<string>, n: nat, absolute: bool)
    requires Normal(cs, absolute) && n <= |cs|
    ensures Normal(cs[..n], absolute)
  {
  }

  lemma StepNormal(acc: seq<string>, comp: string, absolute: bool)
    requires Normal(acc, absolute) && '/' !in comp
    ensures Normal(Step(acc, comp, absolute), absolute)
  {
    if comp == "" || comp == "." {
    } else if comp != ".." || (!absolute && |acc| == 0) || (|acc| > 0 && acc[|acc| - 1] == "..") {
      AppendNormal(acc, comp, absolute);
    } else if |acc| > 0 {
      NormalPrefix(acc, |acc| - 1, absolute);
    }
  }

  lemma AppendNormal(acc: seq<string>, comp: string, absolute: bool)
    requires Normal(acc, absolute) && NormalComp(comp)
    requires comp == ".." ==> !absolute && (|acc| == 0 || acc[|acc| - 1] == "..")
    ensures Normal(acc + [comp], absolute)
  {
    var r := acc + [comp];
    forall i | 0 <= i < |r| ensures NormalComp(r[i]) && (absolute ==> r[i] != "..") {
      if i < |acc| { assert r[i] == acc[i]; }
    }
    forall i, j | 0 <= i < j < |r| && r[j] == ".." ensures r[i] == ".." {
      assert r[i] == acc[i];
      if j < |acc| {
        assert r[j] == acc[j];
      } else if acc[|acc| - 1] == ".." {
        assert i <= |acc| - 1;
        if i < |acc| - 1 { assert acc[i] == ".."; }
      }
    }
  }

  /** Whatever the input, the component loop produces normal components. */
  lemma {:induction false} ResolveNormal(acc: seq<string>, comps: seq<string>, absolute: bool)
    requires Normal(acc, absolute) && SlashFree(comps)
    ensures Normal(Resolve(acc, comps, absolute), absolute)
    decreases |comps|
  {
    if |comps| > 0 {
      StepNormal(acc, comps[0], absolute);
      ResolveNormal(Step(acc, comps[0], absolute), comps[1..], absolute);
    }
  }

  /** On components that are already normal the loop changes nothing. */
  lemma {:induction false} ResolveIdentity(acc: seq<string>, comps: seq<string>, absolute: bool)
    requires Normal(acc + comps, absolute)
    ensures Resolve(acc, comps, absolute) == acc + comps
    decreases |comps|
  {
    if |comps| > 0 {
      var all := acc + comps;
      assert all[|acc|] == comps[0];
      if |acc| > 0 { assert all[|acc| - 1] == acc[|acc| - 1]; }
      assert Step(acc, comps[0], absolute) == acc + [comps[0]];
      assert acc + [comps[0]] + comps[1..] == all;
      ResolveIdentity(acc + [comps[0]], comps[1..], absolute);
    }
  }

  lemma {:induction false} ResolveAppend(acc: seq<string>, xs: seq<string>, ys: seq<string>, absolute: bool)
    ensures Resolve(acc, xs + ys, absolute) == Resolve(Resolve(acc, xs, absolute), ys, absolute)
    decreases |xs|
  {
    if |xs| > 0 {
      assert (xs + ys)[0] == xs[0];
      assert (xs + ys)[1..] == xs[1..] + ys;
      ResolveAppend(Step(acc, xs[0], absolute), xs[1..], ys, absolute);
    } else {
      assert xs + ys == ys;
    }
  }

  /** A trailing empty component (a trailing slash) is ignored. */
  lemma ResolveTrailingEmpty(acc: seq<string>, xs: seq<string>, absolute: bool)
    ensures Resolve(acc, xs + [""], absolute) == Resolve(acc, xs, absolute)
  {
    ResolveAppend(acc, xs, [""], absolute);
  }

  lemma {:induction false} SplitAppendSeparator(s: string, c: char)
    ensures Split(s + [c], c) == Split(s, c) + [""]
    decreases |s|
  {
    if |s| == 0 {
      assert s + [c] == [c];
      assert [c][1..] == "";
    } else {
      assert (s + [c])[0] == s[0];
      assert (s + [c])[1..] == s[1..] + [c];
      SplitAppendSeparator(s[1..], c);
    }
  }

  lemma SplitLeadingSlash(s: string)
    ensures Split("/" + s, '/') == [""] + Split(s, '/')
  {
    assert ("/" + s)[1..] == s;
  }

  lemma SlashesLength(k: nat)
    ensures |Slashes(k)| == k && forall i :: 0 <= i < k ==> Slashes(k)[i] == '/'
    decreases k
  {
    if k > 0 { SlashesLength(k - 1); }
  }

  /** Components carry no separator, are non-empty, hence a joined body never
      starts or ends with `/`. */
  lemma JoinedBodyEdges(cs: seq<string>)
    requires |cs| > 0
    requires forall i :: 0 <= i < |cs| ==> cs[i] != "" && '/' !in cs[i]
    ensures var b := JoinWith(cs, "/"); b != "" && b[0] != '/' && b[|b| - 1] != '/'
    decreases |cs|
  {
    var b := JoinWith(cs, "/");
    assert cs[0][0] in cs[0];
    if |cs| == 1 {
      assert cs[0][|cs[0]| - 1] in cs[0];
    } else {
      JoinedBodyEdges(cs[1..]);
      var t := JoinWith(cs[1..], "/");
      assert b == cs[0] + "/" + t;
      assert b[0] == cs[0][0];
      assert b[|b| - 1] == t[|t| - 1];
    }
  }

  // ---------------------------------------------------------------------------
  // The normal form of a normalised path
  // ---------------------------------------------------------------------------

  /** The text of normalised components under `k` leading slashes. */
  function Render(k: nat, cs: seq<string>): string {
    Slashes(k) + JoinWith(cs, "/")
  }

  function EmptyFields(k: nat): seq<string>
    decreases k
  {
    if k == 0 then [] else [""] + EmptyFields(k - 1)
  }

  /** Splitting a rendered path gives `k` empty leading fields, then the body's fields. */
  lemma {:induction false} SplitRender(k: nat, cs: seq<string>)
    ensures Split(Render(k, cs), '/') == EmptyFields(k) + Split(JoinWith(cs, "/"), '/')
    decreases k
  {
    if k > 0 {
      var r, r' := Render(k, cs), Render(k - 1, cs);
      assert r == "/" + r';
      SplitLeadingSlash(r');
      SplitRender(k - 1, cs);
      var body := Split(JoinWith(cs, "/"), '/');
      assert Split(r, '/') == [""] + (EmptyFields(k - 1) + body);
      assert EmptyFields(k) == [""] + EmptyFields(k - 1);
      assert EmptyFields(k) + body == [""] + (EmptyFields(k - 1) + body);
    } else {
      assert Render(0, cs) == JoinWith(cs, "/");
      assert EmptyFields(0) + Split(JoinWith(cs, "/"), '/') == Split(JoinWith(cs, "/"), '/');
    }
  }

  /** The fields of a joined body are its components (one empty field for no components). */
  lemma SplitBody(cs: seq<string>)
    requires SlashFree(cs)
    ensures Split(JoinWith(cs, "/"), '/') == if |cs| == 0 then [""] else cs
  {
    if |cs| > 0 { SplitJoin(cs, '/'); }
  }

  lemma ResolveSkipEmpty(acc: seq<string>, rest: seq<string>, absolute: bool)
    ensures Resolve(acc, [""] + rest, absolute) == Resolve(acc, rest, absolute)
  {
    var xs := [""] + rest;
    assert xs[0] == "" && xs[1..] == rest;
    assert Step(acc, "", absolute) == acc;
  }

  lemma {:induction false} ResolveEmptyFields(k: nat, rest: seq<string>, absolute: bool)
    ensures Resolve([], EmptyFields(k) + rest, absolute) == Resolve([], rest, absolute)
    decreases k
  {
    if k > 0 {
      var tail := EmptyFields(k - 1) + rest;
      assert EmptyFields(k) + rest == [""] + tail;
      ResolveSkipEmpty([], tail, absolute);
      ResolveEmptyFields(k - 1, rest, absolute);
    } else {
      assert EmptyFields(0) + rest == rest;
    }
  }

  lemma InitialSlashesRender(k: nat, cs: seq<string>)
    requires k <= 2 && (k > 0 || |cs| > 0)
    requires forall i :: 0 <= i < |cs| ==> cs[i] != "" && '/' !in cs[i]
    ensures InitialSlashes(Render(k, cs)) == k
  {
    var r := Render(k, cs);
    SlashesLength(k);
    if |cs| > 0 {
      JoinedBodyEdges(cs);
      var b := JoinWith(cs, "/");
      assert r[k] == b[0];
    } else {
      assert r == Slashes(k);
    }
    if k == 0 {
      assert r[0] != '/';
    } else if k == 1 {
      assert r[0] == '/';
      assert !StartsWith(r, "//") by { if |r| >= 2 { assert r[1] != '/'; } }
    } else {
      assert r[..2] == "//";
      assert !StartsWith(r, "///") by { if |r| >= 3 { assert r[2] != '/'; } }
    }
  }

  /** `normpath` returns its input's normal form. */
  lemma NormPathShape(p: string)
    requires p != ""
    ensures InitialSlashes(p) <= 2
    ensures Normal(NormComps(p), InitialSlashes(p) > 0)
    ensures NormPath(p) == (if InitialSlashes(p) == 0 && NormComps(p) == [] then "." else Render(InitialSlashes(p), NormComps(p)))
  {
    SplitPiecesFree(p, '/');
    ResolveNormal([], Split(p, '/'), InitialSlashes(p) > 0);
    var cs := NormComps(p);
    if InitialSlashes(p) == 0 && cs == [] {
      assert Render(0, cs) == "";
    } else if InitialSlashes(p) > 0 {
      SlashesLength(InitialSlashes(p));
    } else {
      JoinedBodyEdges(cs);
    }
  }

  /** The normal form is a fixed point of the component loop. */
  lemma NormCompsRender(k: nat, cs: seq<string>)
    requires 1 <= k <= 2 && Normal(cs, true)
    ensures InitialSlashes(Render(k, cs)) == k
    ensures NormComps(Render(k, cs)) == cs
  {
    InitialSlashesRender(k, cs);
    SplitRender(k, cs);
    SplitBody(cs);
    if |cs| > 0 {
      ResolveEmptyFields(k, cs, true);
      assert [] + cs == cs;
      ResolveIdentity([], cs, true);
    } else {
      ResolveEmptyFields(k, [""], true);
      ResolveSkipEmpty([], [], true);
      assert [""] + [] == [""];
    }
  }

  lemma NormPathDot()
    ensures NormPath(".") == "."
  {
    assert Split("", '/') == [""];
    assert "."[1..] == "";
    assert ['.'] + "" == ".";
    assert [""][1..] == [];
    assert Split(".", '/') == [['.'] + ""] + [""][1..];
    assert [['.'] + ""] + [""][1..] == ["."];
    assert InitialSlashes(".") == 0;
    assert Resolve([], ["."], false) == [];
  }

  /** `normpath` is idempotent. */
  lemma NormPathIdempotent(p: string)
    ensures NormPath(NormPath(p)) == NormPath(p)
  {
    if p == "" {
      NormPathDot();
    } else {
      NormPathShape(p);
      var k, cs := InitialSlashes(p), NormComps(p);
      if k == 0 && cs == [] {
        NormPathDot();
      } else if k == 0 {
        var q := Render(0, cs);
        InitialSlashesRender(0, cs);
        SplitRender(0, cs);
        SplitBody(cs);
        assert EmptyFields(0) + cs == cs;
        assert [] + cs == cs;
        ResolveIdentity([], cs, false);
        JoinedBodyEdges(cs);
      } else {
        NormCompsRender(k, cs);
        SlashesLength(k);
      }
    }
  }

  // ---------------------------------------------------------------------------
  // dirname
  // ---------------------------------------------------------------------------

  /** One past the index of the last `c` in `s`, or 0 (`s.rfind(c) + 1`). */
  function RFindAfter(s: string, c: char): (r: nat)
    ensures r <= |s|
    decreases |s|
  {
    if |s| == 0 then 0 else if s[|s| - 1] == c then |s| else RFindAfter(s[..|s| - 1], c)
  }

  /** `posixpath.dirname(p)`. */
  function Dirname(p: string): string {
    var head := p[..RFindAfter(p, '/')];
    if head != "" && !AllChar(head, '/') then RStripChar(head, '/') else head
  }

  lemma {:induction false} RFindAfterLast(x: string, c: char, y: string)
    requires c !in y
    ensures RFindAfter(x + [c] + y, c) == |x| + 1
    decreases |y|
  {
    var s := x + [c] + y;
    if |y| == 0 {
      assert s[|s| - 1] == c;
    } else {
      assert s[|s| - 1] == y[|y| - 1];
      assert y[|y| - 1] in y;
      assert s[..|s| - 1] == x + [c] + y[..|y| - 1];
      RFindAfterLast(x, c, y[..|y| - 1]);
    }
  }

  lemma {:induction false} RFindAfterNone(s: string, c: char)
    requires c !in s
    ensures RFindAfter(s, c) == 0
    decreases |s|
  {
    if |s| > 0 {
      assert s[|s| - 1] in s;
      assert c !in s[..|s| - 1];
      RFindAfterNone(s[..|s| - 1], c);
    }
  }

  lemma JoinWithSnoc(xs: seq<string>, y: string, sep: string)
    requires |xs| > 0
    ensures JoinWith(xs + [y], sep) == JoinWith(xs, sep) + sep + y
    decreases |xs|
  {
    if |xs| == 1 {
      assert xs + [y] == [xs[0], y];
    } else {
      assert (xs + [y])[1..] == xs[1..] + [y];
      JoinWithSnoc(xs[1..], y, sep);
    }
  }

  /** `dirname` cuts at the last separator. */
  lemma DirnameLast(x: string, last: string)
    requires '/' !in last
    ensures var head := x + "/";
      Dirname(x + "/" + last) == if !AllChar(head, '/') then RStripChar(head, '/') else head
  {
    RFindAfterLast(x, '/', last);
    var p := x + "/" + last;
    assert p[..|x| + 1] == x + "/";
  }

  /** The parent of a rendered absolute path is the render of all but its last
      component. */
  lemma DirnameRender(cs: seq<string>)
    requires |cs| > 0 && Normal(cs, true)
    ensures Dirname(Render(1, cs)) == Render(1, cs[..|cs| - 1])
  {
    if |cs| == 1 {
      DirnameRenderOne(cs[0]);
      assert Render(1, cs) == "/" + cs[0];
    } else {
      DirnameRenderMore(cs[..|cs| - 1], cs[|cs| - 1]);
      assert cs == cs[..|cs| - 1] + [cs[|cs| - 1]];
    }
  }

  lemma DirnameRenderOne(last: string)
    requires '/' !in last
    ensures Dirname("/" + last) == "/"
  {
    assert "/" + last == "" + "/" + last;
    DirnameLast("", last);
    assert AllChar("/", '/');
  }

  lemma DirnameRenderMore(init: seq<string>, last: string)
    requires |init| > 0 && '/' !in last
    requires forall i :: 0 <= i < |init| ==> init[i] != "" && '/' !in init[i]
    ensures Dirname(Render(1, init + [last])) == Render(1, init)
  {
    JoinWithSnoc(init, last, "/");
    assert Slashes(1) == "/";
    var x := "/" + JoinWith(init, "/");
    assert Render(1, init + [last]) == x + "/" + last;
    DirnameLast(x, last);
    JoinedBodyEdges(init);
    DirnameHead(JoinWith(init, "/"));
  }


  lemma DirnameHead(b: string)
    requires b != "" && b[0] != '/' && b[|b| - 1] != '/'
    ensures var head := "/" + b + "/"; !AllChar(head, '/') && RStripChar(head, '/') == "/" + b
  {
    var head := "/" + b + "/";
    assert head[1] == b[0];
    assert head[..|head| - 1] == "/" + b;
    assert ("/" + b)[|"/" + b| - 1] == b[|b| - 1];
  }

  // ---------------------------------------------------------------------------
  // relpath
  // ---------------------------------------------------------------------------

  function NonEmpty(xs: seq<string>): (r: seq<string>)
    ensures forall i :: 0 <= i < |r| ==> r[i] != ""
    decreases |xs|
  {
    if |xs| == 0 then [] else (if xs[0] == "" then [] else [xs[0]]) + NonEmpty(xs[1..])
  }

  function CommonPrefixLength(a: seq<string>, b: seq<string>): (r: nat)
    ensures r <= |a| && r <= |b| && a[..r] == b[..r]
    ensures r < |a| && r < |b| ==> a[r] != b[r]
    decreases |a|
  {
    if |a| == 0 || |b| == 0 || a[0] != b[0] then 0
    else
      var n := CommonPrefixLength(a[1..], b[1..]);
      assert a[..n + 1] == [a[0]] + a[1..][..n];
      assert b[..n + 1] == [b[0]] + b[1..][..n];
      n + 1
  }

  function Repeat(x: string, n: nat): (r: seq<string>)
    ensures |r| == n && forall i :: 0 <= i < n ==> r[i] == x
    decreases n
  {
    if n == 0 then [] else [x] + Repeat(x, n - 1)
  }

  /** `posixpath.relpath(path, start)` for absolute `path` and `start`, where
      `abspath` is `normpath`. */
  function RelPath(path: string, start: string): string
    requires StartsWith(path, "/") && StartsWith(start, "/")
  {
    var startList := NonEmpty(Split(NormPath(start), '/'));
    var pathList := NonEmpty(Split(NormPath(path), '/'));
    var i := CommonPrefixLength(startList, pathList);
    var rel := Repeat("..", |startList| - i) + pathList[i..];
    if rel == [] then "." else JoinAll(rel[0], rel[1..])
  }

  lemma {:induction false} NonEmptyEmptyFields(k: nat, cs: seq<string>)
    requires forall i :: 0 <= i < |cs| ==> cs[i] != ""
    ensures NonEmpty(EmptyFields(k) + cs) == cs
    decreases k, |cs|
  {
    if k > 0 {
      assert EmptyFields(k) + cs == [""] + (EmptyFields(k - 1) + cs);
      NonEmptyEmptyFields(k - 1, cs);
    } else if |cs| > 0 {
      assert EmptyFields(0) + cs == cs;
      assert ([cs[0]] + cs[1..]) == cs;
      NonEmptyEmptyFields(0, cs[1..]);
      assert EmptyFields(0) + cs[1..] == cs[1..];
    }
  }

  /** The non-empty fields of a rendered path are its components. */
  lemma NonEmptyRender(k: nat, cs: seq<string>)
    requires Normal(cs, k > 0)
    ensures NonEmpty(Split(Render(k, cs), '/')) == cs
  {
    SplitRender(k, cs);
    SplitBody(cs);
    if |cs| > 0 {
      NonEmptyEmptyFields(k, cs);
    } else {
      NonEmptyEmptyFields(k, []);
      assert NonEmpty([""]) == [];
      assert EmptyFields(k) + [""] == (EmptyFields(k) + []) + [""];
      NonEmptyAppendEmpty(EmptyFields(k) + []);
    }
  }

  lemma {:induction false} NonEmptyAppendEmpty(xs: seq<string>)
    ensures NonEmpty(xs + [""]) == NonEmpty(xs)
    decreases |xs|
  {
    if |xs| == 0 {
      assert xs + [""] == [""];
    } else {
      assert (xs + [""])[0] == xs[0];
      assert (xs + [""])[1..] == xs[1..] + [""];
      NonEmptyAppendEmpty(xs[1..]);
    }
  }

  /** Joining slash-free components with `posixpath.join` is `"/".join`. */
  lemma {:induction false} JoinAllPlain(a: string, bs: seq<string>)
    requires a != "" && !EndsWith(a, "/")
    requires forall i :: 0 <= i < |bs| ==> bs[i] != "" && '/' !in bs[i]
    ensures JoinAll(a, bs) == JoinWith([a] + bs, "/")
    decreases |bs|
  {
    if |bs| > 0 {
      assert bs[0][0] in bs[0];
      assert !StartsWith(bs[0], "/");
      var a' := a + "/" + bs[0];
      assert a'[|a'| - 1] == bs[0][|bs[0]| - 1] by { assert bs[0][|bs[0]| - 1] in bs[0]; }
      JoinAllPlain(a', bs[1..]);
      assert JoinWith([a'] + bs[1..], "/") == a' + (if |bs| > 1 then "/" + JoinWith(bs[1..], "/") else "") by {
        if |bs| > 1 { assert ([a'] + bs[1..])[1..] == bs[1..]; }
      }
      assert ([a] + bs)[1..] == bs;
      if |bs| > 1 { assert bs[1..][0] == bs[1]; assert JoinWith(bs, "/") == bs[0] + "/" + JoinWith(bs[1..], "/"); }
    }
  }
}
