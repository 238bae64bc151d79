/** The version identifier formats of `faculty/clients/environment.py`.
    A Python version is a restricted PEP 440 public version,
    `[N!]N(.N)*[(a|b|rc)N][.postN][.devN]`; an apt version is a non-empty
    run of letters, digits and `\+,-./:~`. Each regular expression is
    modelled by a recogniser, and for Python versions the recogniser is
    proved against a structured version and its rendering. */
module VersionFormats {
  import opened Wrappers
  import opened Strings

  /** `\d+`. */
  predicate Num(s: string) { |s| > 0 && AllDigits(s) }

  datatype PreTag = Alpha | Beta | ReleaseCandidate

  function TagText(t: PreTag): string {
    match t
    case Alpha => "a"
    case Beta => "b"
    case ReleaseCandidate => "rc"
  }

  /** The parts of a Python version identifier, each number kept as the
      digits written. */
  datatype PythonVersion = PythonVersion(
    epoch: Option<string>,
    release: seq<string>,
    pre: Option<(PreTag, string)>,
    post: Option<string>,
    dev: Option<string>)

  predicate OptNum(o: Option<string>) { o.Some? ==> Num(o.value) }

  predicate WellFormed(v: PythonVersion) {
    && OptNum(v.epoch)
    && |v.release| >= 1
    && (forall i | 0 <= i < |v.release| :: Num(v.release[i]))
    && (v.pre.Some? ==> Num(v.pre.value.1))
    && OptNum(v.post)
    && OptNum(v.dev)
  }

  /** `tag` and the number, when there is one. */
  function Tagged(o: Option<string>, tag: string): string {
    if o.Some? then tag + o.value else ""
  }

  function PreOf(o: Option<(PreTag, string)>): string {
    if o.Some? then TagText(o.value.0) + o.value.1 else ""
  }

  function EpochOf(o: Option<string>): string {
    if o.Some? then o.value + "!" else ""
  }

  function PreText(v: PythonVersion): string { PreOf(v.pre) }

  function PostText(v: PythonVersion): string { Tagged(v.post, ".post") }

  function DevText(v: PythonVersion): string { Tagged(v.dev, ".dev") }

  function EpochText(v: PythonVersion): string { EpochOf(v.epoch) }

  /** The text of a version: the strings the regular expression
      `PYTHON_VERSION_REGEX` describes are exactly these. */
  function Render(v: PythonVersion): string {
    EpochText(v) + JoinWith(v.release, ".") + PreText(v) + PostText(v) + DevText(v)
  }

  // ---------------------------------------------------------------------------
  // The recogniser
  // ---------------------------------------------------------------------------

  /** The length of the run of digits `s` starts with. */
  function DigitRun(s: string): (n: nat)
    ensures n <= |s| && AllDigits(s[..n]) && (n < |s| ==> !IsDigit(s[n]))
    decreases |s|
  {
    if |s| == 0 || !IsDigit(s[0]) then 0
    else
      var k := DigitRun(s[1..]);
      assert s[..k + 1] == [s[0]] + s[1..][..k];
      1 + k
  }

  /** A release segment goes on: a dot followed by a digit. */
  predicate ReleaseContinues(t: string) { |t| >= 2 && t[0] == '.' && IsDigit(t[1]) }

  /** `\d+(?:\.\d+)*`, as long as it goes, and what follows it. */
  function ParseRelease(s: string): (r: Option<(seq<string>, string)>)
    ensures r.Some? ==> |r.value.0| >= 1 && (forall i | 0 <= i < |r.value.0| :: Num(r.value.0[i]))
    ensures r.Some? ==> JoinWith(r.value.0, ".") + r.value.1 == s
    ensures r.Some? ==> ReleaseEnds(r.value.1)
    decreases |s|
  {
    var n := DigitRun(s);
    if n == 0 then None
    else
      var rest := s[n..];
      if ReleaseContinues(rest) then
        match ParseRelease(rest[1..])
        case None => None
        case Some((more, t)) =>
          JoinCons(s[..n], more, t, s);
          Some(([s[..n]] + more, t))
      else
        assert s[..n] + rest == s;
        Some(([s[..n]], rest))
  }

  /** Putting a number in front of a release, with a dot between. */
  lemma JoinCons(x: string, more: seq<string>, t: string, s: string)
    requires |more| >= 1 && |x| <= |s| && x == s[..|x|]
    requires |s| > |x| && s[|x|] == '.' && JoinWith(more, ".") + t == s[|x| + 1..]
    ensures JoinWith([x] + more, ".") + t == s
  {
    JoinFront(x, more, ".");
    CutAtDot(x, s);
    var j := JoinWith(more, ".");
    assert (x + "." + j) + t == (x + ".") + (j + t);
  }

  lemma JoinFront(x: string, more: seq<string>, sep: string)
    requires |more| >= 1
    ensures JoinWith([x] + more, sep) == x + sep + JoinWith(more, sep)
  {
    assert ([x] + more)[1..] == more;
  }

  lemma CutAtDot(x: string, s: string)
    requires |x| < |s| && x == s[..|x|] && s[|x|] == '.'
    ensures s == (x + ".") + s[|x| + 1..]
  {
    assert s == s[..|x| + 1] + s[|x| + 1..];
    assert s[..|x| + 1] == x + ".";
  }

  /** What may follow a release: nothing that extends it. */
  predicate ReleaseEnds(t: string) {
    !ReleaseContinues(t) && (|t| > 0 ==> !IsDigit(t[0]))
  }

  /** `(?:tag\d+)?` for one tag: `None` when `s` starts with the tag but no
      digits follow it, which no later part of the pattern can read. */
  function ParseTagged(s: string, tag: string): (r: Option<(Option<string>, string)>)
    ensures r.Some? ==> OptNum(r.value.0) && Tagged(r.value.0, tag) + r.value.1 == s
    ensures r.Some? && r.value.0.None? ==> r.value.1 == s && !StartsWith(s, tag)
  {
    if StartsWith(s, tag) then
      var n := DigitRun(s[|tag|..]);
      if n == 0 then None
      else
        assert tag + s[|tag|..][..n] + s[|tag|..][n..] == s;
        Some((Some(s[|tag|..][..n]), s[|tag|..][n..]))
    else Some((None, s))
  }

  function TagOf(s: string): Option<PreTag> {
    if StartsWith(s, "rc") then Some(ReleaseCandidate)
    else if StartsWith(s, "a") then Some(Alpha)
    else if StartsWith(s, "b") then Some(Beta)
    else None
  }

  /** `(?:(?:a|b|rc)\d+)?`. */
  function ParsePre(s: string): (r: Option<(Option<(PreTag, string)>, string)>)
    ensures r.Some? ==> (r.value.0.Some? ==> Num(r.value.0.value.1)) && PreOf(r.value.0) + r.value.1 == s
    ensures r.Some? && r.value.0.None? ==> TagOf(s).None?
  {
    match TagOf(s)
    case None => Some((None, s))
    case Some(tag) =>
      match ParseTagged(s, TagText(tag))
      case None => None
      case Some((None, _)) => None
      case Some((Some(n), rest)) => Some((Some((tag, n)), rest))
  }

  /** `(?:\d+\!)?`. */
  function ParseEpoch(s: string): (r: (Option<string>, string))
    ensures OptNum(r.0) && EpochOf(r.0) + r.1 == s
  {
    var n := DigitRun(s);
    if 0 < n < |s| && s[n] == '!' then
      assert s[..n] + "!" + s[n + 1..] == s;
      (Some(s[..n]), s[n + 1..])
    else (None, s)
  }

  lemma Chain(a: string, b: string, c: string, d: string, e: string,
              s: string, s1: string, s2: string, s3: string, s4: string)
    requires a + s1 == s && b + s2 == s1 && c + s3 == s2 && d + s4 == s3 && e + "" == s4
    ensures a + b + c + d + e == s
  {
  }

  /** The whole pattern, from the start of the string to its end. */
  function ParsePythonVersion(s: string): (r: Option<PythonVersion>)
    ensures r.Some? ==> WellFormed(r.value) && Render(r.value) == s
  {
    var (epoch, s1) := ParseEpoch(s);
    match ParseRelease(s1)
    case None => None
    case Some((release, s2)) =>
      match ParsePre(s2)
      case None => None
      case Some((pre, s3)) =>
        match ParseTagged(s3, ".post")
        case None => None
        case Some((post, s4)) =>
          match ParseTagged(s4, ".dev")
          case None => None
          case Some((dev, s5)) =>
            if s5 != "" then None
            else
              var v := PythonVersion(epoch, release, pre, post, dev);
              Chain(EpochText(v), JoinWith(release, "."), PreText(v), PostText(v), DevText(v), s, s1, s2, s3, s4);
              Some(v)
  }

  /** The identifier check of `_PythonVersionSchema`. */
  predicate ValidPythonVersion(s: string) { ParsePythonVersion(s).Some? }

  // ---------------------------------------------------------------------------
  // Every rendered version is recognised, as itself
  // ---------------------------------------------------------------------------

  lemma DigitRunOf(d: string, t: string)
    requires Num(d)
    requires |t| > 0 ==> !IsDigit(t[0])
    ensures DigitRun(d + t) == |d|
  {
    var s := d + t;
    var n := DigitRun(s);
    forall i | 0 <= i < n ensures IsDigit(s[i]) {
      assert s[..n][i] == s[i];
    }
    assert forall i | 0 <= i < |d| :: s[i] == d[i];
    assert |t| > 0 ==> s[|d|] == t[0];
  }

  /** What follows the first number of a release in its text. */
  function AfterFirst(rel: seq<string>, t: string): string
    requires |rel| >= 1
  {
    if |rel| == 1 then t else "." + (JoinWith(rel[1..], ".") + t)
  }

  lemma ReleaseSplit(rel: seq<string>, t: string)
    requires |rel| >= 1
    ensures JoinWith(rel, ".") + t == rel[0] + AfterFirst(rel, t)
  {
    if |rel| > 1 {
      var j := JoinWith(rel[1..], ".");
      assert JoinWith(rel, ".") == rel[0] + "." + j;
      assert rel[0] + "." + j + t == rel[0] + ("." + (j + t));
    }
  }

  /** The text of a release starts with the first digit of its first
      number. */
  lemma JoinHead(rel: seq<string>, t: string)
    requires |rel| >= 1 && Num(rel[0])
    ensures |JoinWith(rel, ".") + t| > 0 && (JoinWith(rel, ".") + t)[0] == rel[0][0]
  {
    ReleaseSplit(rel, t);
  }

  lemma {:induction false} ParseReleaseOf(rel: seq<string>, t: string)
    requires |rel| >= 1 && forall i | 0 <= i < |rel| :: Num(rel[i])
    requires ReleaseEnds(t)
    ensures ParseRelease(JoinWith(rel, ".") + t) == Some((rel, t))
    decreases |rel|
  {
    var s := JoinWith(rel, ".") + t;
    var after := AfterFirst(rel, t);
    ReleaseSplit(rel, t);
    assert |after| > 0 ==> !IsDigit(after[0]);
    DigitRunOf(rel[0], after);
    assert s[..|rel[0]|] == rel[0] && s[|rel[0]|..] == after;
    if |rel| == 1 {
      assert [rel[0]] == rel;
    } else {
      var u := JoinWith(rel[1..], ".") + t;
      assert forall i | 0 <= i < |rel[1..]| :: rel[1..][i] == rel[i + 1];
      JoinHead(rel[1..], t);
      assert after[1..] == u;
      ParseReleaseOf(rel[1..], t);
      assert [rel[0]] + rel[1..] == rel;
    }
  }

  lemma ParseTaggedOf(tag: string, n: string, t: string)
    requires Num(n)
    requires |t| > 0 ==> !IsDigit(t[0])
    ensures ParseTagged(tag + n + t, tag) == Some((Some(n), t))
  {
    var s := tag + n + t;
    assert s[|tag|..] == n + t;
    DigitRunOf(n, t);
    assert (n + t)[..|n|] == n && (n + t)[|n|..] == t;
  }

  /** The tail of a rendered version from its post-release part on. */
  function Tail(v: PythonVersion): string { PreText(v) + PostText(v) + DevText(v) }

  /** The development part is empty or starts with `.d`. */
  lemma DevStart(v: PythonVersion)
    ensures DevText(v) == "" || (|DevText(v)| >= 2 && DevText(v)[0] == '.' && DevText(v)[1] == 'd')
  {
  }

  /** The post-release and development parts are empty or start with `.p`
      or `.d`. */
  lemma PostStart(v: PythonVersion)
    ensures var pd := PostText(v) + DevText(v);
      pd == "" || (|pd| >= 2 && pd[0] == '.' && (pd[1] == 'p' || pd[1] == 'd'))
  {
    DevStart(v);
  }

  lemma TailEndsRelease(v: PythonVersion)
    ensures ReleaseEnds(Tail(v))
    ensures |Tail(v)| > 0 ==> Tail(v)[0] != '!'
  {
    PostStart(v);
    if v.pre.Some? {
      assert Tail(v)[0] == TagText(v.pre.value.0)[0];
    } else {
      assert Tail(v) == PostText(v) + DevText(v);
    }
  }

  lemma ParseDevOf(v: PythonVersion)
    requires OptNum(v.dev)
    ensures ParseTagged(DevText(v), ".dev") == Some((v.dev, ""))
  {
    if v.dev.Some? {
      ParseTaggedOf(".dev", v.dev.value, "");
      assert ".dev" + v.dev.value + "" == DevText(v);
    }
  }

  lemma ParsePostOf(v: PythonVersion)
    requires OptNum(v.post)
    ensures ParseTagged(PostText(v) + DevText(v), ".post") == Some((v.post, DevText(v)))
  {
    DevStart(v);
    if v.post.Some? {
      ParseTaggedOf(".post", v.post.value, DevText(v));
    } else {
      assert PostText(v) + DevText(v) == DevText(v);
      assert !StartsWith(DevText(v), ".post") by {
        if |DevText(v)| >= 2 { assert DevText(v)[1] != ".post"[1]; }
      }
    }
  }

  lemma ParsePreOf(v: PythonVersion)
    requires v.pre.Some? ==> Num(v.pre.value.1)
    ensures ParsePre(Tail(v)) == Some((v.pre, PostText(v) + DevText(v)))
  {
    var pd := PostText(v) + DevText(v);
    PostStart(v);
    if v.pre.Some? {
      var tag := v.pre.value.0;
      var tt := TagText(tag);
      assert Tail(v) == tt + v.pre.value.1 + pd;
      ParseTaggedOf(tt, v.pre.value.1, pd);
      assert TagOf(Tail(v)) == Some(tag) by {
        assert Tail(v)[0] == tt[0];
        if tag == ReleaseCandidate { assert Tail(v)[..2] == "rc"; }
      }
    } else {
      assert Tail(v) == pd;
      assert TagOf(pd).None?;
    }
  }

  lemma RenderSplit(v: PythonVersion)
    ensures Render(v) == EpochText(v) + (JoinWith(v.release, ".") + Tail(v))
    ensures Tail(v) == PreText(v) + (PostText(v) + DevText(v))
  {
    var e, j, p, q, d := EpochText(v), JoinWith(v.release, "."), PreText(v), PostText(v), DevText(v);
    Assoc(e + j, p, q);
    Assoc(e + j, p + q, d);
    Assoc(e, j, p + q + d);
    Assoc(p, q, d);
  }

  lemma Assoc(a: string, b: string, c: string)
    ensures a + b + c == a + (b + c)
  {
  }

  /** Every well-formed version is recognised, and read back as itself. */
  lemma ParseRender(v: PythonVersion)
    requires WellFormed(v)
    ensures ParsePythonVersion(Render(v)) == Some(v)
  {
    RenderSplit(v);
    ParseEpochOf(v);
    ParseReleaseOf(v.release, Tail(v)) by { TailEndsRelease(v); }
    ParsePreOf(v);
    ParsePostOf(v);
    ParseDevOf(v);
  }

  lemma ParseEpochOf(v: PythonVersion)
    requires WellFormed(v)
    ensures ParseEpoch(EpochText(v) + (JoinWith(v.release, ".") + Tail(v)))
            == (v.epoch, JoinWith(v.release, ".") + Tail(v))
  {
    var t := Tail(v);
    var body := JoinWith(v.release, ".") + t;
    if v.epoch.Some? {
      var e := v.epoch.value;
      DigitRunOf(e, "!" + body);
      assert EpochText(v) + body == e + ("!" + body);
      assert (e + ("!" + body))[|e|] == '!';
      assert (e + ("!" + body))[|e| + 1..] == body;
    } else {
      var after := AfterFirst(v.release, t);
      ReleaseSplit(v.release, t);
      TailEndsRelease(v);
      assert |after| > 0 ==> !IsDigit(after[0]) && after[0] != '!';
      DigitRunOf(v.release[0], after);
      assert EpochText(v) + body == body;
      assert |v.release[0]| < |body| ==> body[|v.release[0]|] == after[0];
    }
  }

  /** The recogniser accepts exactly the renderings of well-formed
      versions. */
  lemma ValidPythonVersionIff(s: string)
    ensures ValidPythonVersion(s) <==> exists v :: WellFormed(v) && Render(v) == s
  {
    if exists v :: WellFormed(v) && Render(v) == s {
      var v :| WellFormed(v) && Render(v) == s;
      ParseRender(v);
    }
  }

  /** The identifier of the examples, `1.0.0`, is valid. */
  lemma PlainVersionValid()
    ensures ValidPythonVersion("1.0.0")
  {
    var v := PythonVersion(None, ["1", "0", "0"], None, None, None);
    assert Num("1") && Num("0");
    assert JoinWith(["0"], ".") == "0";
    assert JoinWith(["0", "0"], ".") == "0.0" by { assert ["0", "0"][1..] == ["0"]; }
    assert JoinWith(["1", "0", "0"], ".") == "1.0.0" by { assert ["1", "0", "0"][1..] == ["0", "0"]; }
    assert Render(v) == "1.0.0";
    ParseRender(v);
  }

  /** An identifier with every optional part: an epoch, a release
      candidate, a post-release and a development release. */
  lemma FullVersionValid()
    ensures ValidPythonVersion("2!1.0rc1.post2.dev3")
  {
    var v := PythonVersion(Some("2"), ["1", "0"], Some((ReleaseCandidate, "1")), Some("2"), Some("3"));
    assert Num("1") && Num("0") && Num("2") && Num("3");
    assert JoinWith(["1", "0"], ".") == "1.0" by { assert ["1", "0"][1..] == ["0"]; }
    assert Render(v) == "2!1.0rc1.post2.dev3";
    ParseRender(v);
  }

  /** The identifier of the examples' invalid version is refused: it does
      not start with a digit. */
  lemma WordVersionInvalid()
    ensures !ValidPythonVersion("invalid-identifier")
    ensures !ValidPythonVersion("")
  {
    assert !IsDigit("invalid-identifier"[0]);
    assert DigitRun("invalid-identifier") == 0;
  }

  // ---------------------------------------------------------------------------
  // Apt versions
  // ---------------------------------------------------------------------------

  /** The class `[a-zA-Z0-9\\.\\+-:~]` as the regular expression engine
      reads it: letters, digits, a backslash, a dot, the range from `+` to
      `:`, and `~`. */
  predicate AptClass(c: char) {
    ('a' <= c <= 'z') || ('A' <= c <= 'Z') || ('0' <= c <= '9') || c == '\\' || c == '.'
    || ('+' <= c <= ':') || c == '~'
  }

  /** The identifier check of `_AptVersionSchema`. */
  predicate ValidAptVersion(s: string) {
    |s| > 0 && forall i | 0 <= i < |s| :: AptClass(s[i])
  }

  /** The range `+-:` spans `+ , - . /`, the digits and `:`. */
  lemma AptClassChars(c: char)
    ensures AptClass(c) <==>
      ('a' <= c <= 'z') || ('A' <= c <= 'Z') || ('0' <= c <= '9')
      || c in {'\\', '+', ',', '-', '.', '/', ':', '~'}
  {
  }

  lemma AptVersionExamples()
    ensures ValidAptVersion("1.0.0")
    ensures ValidAptVersion("1:2.30-1ubuntu4~18.04")
    ensures !ValidAptVersion("    ")
    ensures !ValidAptVersion("")
  {
    assert !AptClass(' ');
    assert "    "[0] == ' ';
  }

  // ---------------------------------------------------------------------------
  // The final `$`
  // ---------------------------------------------------------------------------

  /** What `re.match` of a pattern `^...$` accepts: Python's `$` also
      matches just before a newline that ends the string. */
  predicate MatchesWithDollar(valid: string -> bool, s: string) {
    valid(s) || (|s| > 0 && s[|s| - 1] == '\n' && valid(s[..|s| - 1]))
  }

  predicate PythonRegexAsWritten(s: string) { MatchesWithDollar(ValidPythonVersion, s) }

  predicate AptRegexAsWritten(s: string) { MatchesWithDollar(ValidAptVersion, s) }

  lemma ShortVersionValid()
    ensures ValidPythonVersion("1.0")
  {
    var v := PythonVersion(None, ["1", "0"], None, None, None);
    assert Num("1") && Num("0");
    assert JoinWith(["1", "0"], ".") == "1.0" by { assert ["1", "0"][1..] == ["0"]; }
    assert Render(v) == "1.0";
    ParseRender(v);
  }

  /** The Python pattern as written lets a trailing newline through, which
      the recogniser refuses. */
  lemma PythonTrailingNewline()
    ensures PythonRegexAsWritten("1.0\n") && !ValidPythonVersion("1.0\n")
  {
    ShortVersionValid();
    assert "1.0\n"[..3] == "1.0";
    NoTrailingNewline("1.0\n");
  }

  /** So does the apt pattern. */
  lemma AptTrailingNewline()
    ensures AptRegexAsWritten("1.0\n") && !ValidAptVersion("1.0\n")
  {
    assert "1.0\n"[..3] == "1.0";
    assert !AptClass("1.0\n"[3]);
  }

  /** No valid Python version ends in a newline: it ends in a digit. */
  lemma NoTrailingNewline(s: string)
    requires |s| > 0 && s[|s| - 1] == '\n'
    ensures !ValidPythonVersion(s)
  {
    ValidPythonVersionIff(s);
    if v :| WellFormed(v) && Render(v) == s {
      RenderEndsInDigit(v);
      assert false;
    }
  }

  lemma EndsInDigit(a: string, b: string)
    requires (|b| > 0 && IsDigit(b[|b| - 1])) || (b == "" && |a| > 0 && IsDigit(a[|a| - 1]))
    ensures |a + b| > 0 && IsDigit((a + b)[|a + b| - 1])
  {
    if b == "" { assert a + b == a; }
  }

  lemma {:induction false} JoinEndsInDigit(rel: seq<string>)
    requires |rel| >= 1 && forall i | 0 <= i < |rel| :: Num(rel[i])
    ensures |JoinWith(rel, ".")| > 0 && IsDigit(JoinWith(rel, ".")[|JoinWith(rel, ".")| - 1])
    decreases |rel|
  {
    if |rel| > 1 {
      assert forall i | 0 <= i < |rel[1..]| :: rel[1..][i] == rel[i + 1];
      JoinEndsInDigit(rel[1..]);
      EndsInDigit(rel[0] + ".", JoinWith(rel[1..], "."));
    }
  }

  /** A rendered version ends in the last digit of its last number. */
  lemma RenderEndsInDigit(v: PythonVersion)
    requires WellFormed(v)
    ensures |Render(v)| > 0 && IsDigit(Render(v)[|Render(v)| - 1])
  {
    var j := JoinWith(v.release, ".");
    JoinEndsInDigit(v.release);
    EndsInDigit(EpochText(v), j);
    if v.pre.Some? { EndsInDigit(TagText(v.pre.value.0), v.pre.value.1); }
    EndsInDigit(EpochText(v) + j, PreText(v));
    if v.post.Some? { EndsInDigit(".post", v.post.value); }
    EndsInDigit(EpochText(v) + j + PreText(v), PostText(v));
    if v.dev.Some? { EndsInDigit(".dev", v.dev.value); }
    EndsInDigit(EpochText(v) + j + PreText(v) + PostText(v), DevText(v));
  }
}
