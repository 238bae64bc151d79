/** `faculty/cli/parse.py`: run identifiers `N` or `N.M`, and parameter
    strings `name=value,...` in which a backslash escapes the delimiter. */
module CliParse {
  import opened Wrappers
  import opened Strings

  // ---------------------------------------------------------------------------
  // int(text)
  // ---------------------------------------------------------------------------

  /** The digits of an integer literal, with single underscores allowed
      between digits. */
  predicate DigitGroups(s: string) {
    |s| > 0 && IsDigit(s[0]) && IsDigit(s[|s| - 1])
    && (forall i | 0 <= i < |s| :: IsDigit(s[i]) || s[i] == '_')
    && (forall i | 0 <= i < |s| - 1 :: !(s[i] == '_' && s[i + 1] == '_'))
  }

  /** `s` with its underscores removed. */
  function WithoutUnderscores(s: string): (r: string)
    ensures (forall i | 0 <= i < |s| :: IsDigit(s[i]) || s[i] == '_') ==> AllDigits(r)
    ensures (forall i | 0 <= i < |s| :: s[i] != '_') ==> r == s
    decreases |s|
  {
    if |s| == 0 then "" else (if s[0] == '_' then "" else [s[0]]) + WithoutUnderscores(s[1..])
  }

  /** Python's `int(s)` on ASCII decimal text: surrounding whitespace, an
      optional sign, then digits. */
  function PyInt(s: string): (r: Option<int>)
    ensures r.Some? ==> |StripSpace(s)| > 0
  {
    var t := StripSpace(s);
    var negative := |t| > 0 && t[0] == '-';
    var body := if |t| > 0 && (t[0] == '-' || t[0] == '+') then t[1..] else t;
    if DigitGroups(body) then
      var n: int := DigitsValue(WithoutUnderscores(body));
      Some(if negative then -n else n)
    else None
  }

  /** The decimal text of a number reads back as that number. */
  lemma PyIntOfNat(n: nat)
    ensures PyInt(NatToString(n)) == Some(n)
  {
    var s := NatToString(n);
    assert !IsSpace(s[0]) && !IsSpace(s[|s| - 1]);
    assert LStripSpace(s) == s;
    assert RStripSpace(s) == s;
    assert WithoutUnderscores(s) == s;
    NatToStringValue(n);
  }

  // ---------------------------------------------------------------------------
  // parse_run_identifier
  // ---------------------------------------------------------------------------

  datatype RunIdentifier = RunIdentifier(runNumber: int, subrunNumber: Option<int>)

  /** Every part reads as an integer and there are at most two. */
  predicate IntegerParts(parts: seq<string>) {
    |parts| <= 2 && forall i | 0 <= i < |parts| :: PyInt(parts[i]).Some?
  }

  /** `parse_run_identifier(string)`: one or two integers separated by `.`. */
  function ParseRunIdentifier(s: string): (r: Result<RunIdentifier, string>)
    ensures r.Ok? <==> IntegerParts(SplitAtMost(s, '.', 2))
    ensures r.Ok? ==> r.value.runNumber == PyInt(SplitAtMost(s, '.', 2)[0]).value
    ensures r.Ok? ==> (r.value.subrunNumber.Some? <==> |SplitAtMost(s, '.', 2)| == 2)
    ensures r.Ok? && |SplitAtMost(s, '.', 2)| == 2 ==> r.value.subrunNumber == PyInt(SplitAtMost(s, '.', 2)[1])
    ensures r.Err? ==> r.error == "Invalid run identifier: " + s
  {
    var parts := SplitAtMost(s, '.', 2);
    if !IntegerParts(parts) then Err("Invalid run identifier: " + s)
    else if |parts| == 1 then Ok(RunIdentifier(PyInt(parts[0]).value, None))
    else Ok(RunIdentifier(PyInt(parts[0]).value, PyInt(parts[1])))
  }

  /** Text without the separator is not cut. */
  lemma {:induction false} SplitAtMostNone(s: string, c: char, maxsplit: nat)
    requires forall i | 0 <= i < |s| :: s[i] != c
    ensures SplitAtMost(s, c, maxsplit) == [s]
    decreases |s|
  {
    if |s| > 0 {
      assert forall i | 0 <= i < |s[1..]| :: s[1..][i] == s[i + 1];
      SplitAtMostNone(s[1..], c, maxsplit);
      assert s[0] != c;
      assert [s[0]] + s[1..] == s;
    }
  }

  /** A piece without the separator, then the separator, then the rest. */
  lemma {:induction false} SplitAtMostPiece(p: string, c: char, rest: string, maxsplit: nat)
    requires forall i | 0 <= i < |p| :: p[i] != c
    ensures SplitAtMost(p + [c] + rest, c, maxsplit + 1) == [p] + SplitAtMost(rest, c, maxsplit)
    decreases |p|
  {
    if |p| == 0 {
      assert p + [c] + rest == [c] + rest;
      assert ([c] + rest)[1..] == rest;
    } else {
      var t := p + [c] + rest;
      assert t[0] == p[0] && t[0] != c;
      assert t[1..] == p[1..] + [c] + rest;
      assert forall i | 0 <= i < |p[1..]| :: p[1..][i] == p[i + 1];
      SplitAtMostPiece(p[1..], c, rest, maxsplit);
      assert [p[0]] + p[1..] == p;
    }
  }

  /** Decimal text holds no dot. */
  lemma NatToStringNoDot(n: nat)
    ensures forall i | 0 <= i < |NatToString(n)| :: NatToString(n)[i] != '.'
  {
    var a := NatToString(n);
    assert forall i | 0 <= i < |a| :: IsDigit(a[i]);
  }

  /** Writing a run number as `N` and parsing it gives it back. */
  lemma RunNumberRoundTrip(n: nat)
    ensures ParseRunIdentifier(NatToString(n)) == Ok(RunIdentifier(n, None))
  {
    var a := NatToString(n);
    NatToStringNoDot(n);
    SplitAtMostNone(a, '.', 2);
    PyIntOfNat(n);
    assert IntegerParts([a]);
  }

  /** Two dot-free pieces joined by a dot split back into those pieces. */
  lemma SplitAtDot(a: string, b: string)
    requires forall i | 0 <= i < |a| :: a[i] != '.'
    requires forall i | 0 <= i < |b| :: b[i] != '.'
    ensures SplitAtMost(a + "." + b, '.', 2) == [a, b]
  {
    SplitAtMostPiece(a, '.', b, 1);
    SplitAtMostNone(b, '.', 1);
    assert a + "." + b == a + ['.'] + b;
  }

  /** Two integer parts make a run and a subrun number. */
  lemma ParseTwoParts(s: string, a: string, b: string)
    requires SplitAtMost(s, '.', 2) == [a, b] && PyInt(a).Some? && PyInt(b).Some?
    ensures ParseRunIdentifier(s) == Ok(RunIdentifier(PyInt(a).value, PyInt(b)))
  {
    assert IntegerParts([a, b]);
  }

  /** Writing a run and subrun number as `N.M` and parsing it gives them back. */
  lemma SubrunRoundTrip(n: nat, m: nat)
    ensures ParseRunIdentifier(NatToString(n) + "." + NatToString(m)) == Ok(RunIdentifier(n, Some(m)))
  {
    var a := NatToString(n);
    var b := NatToString(m);
    NatToStringNoDot(n);
    NatToStringNoDot(m);
    SplitAtDot(a, b);
    PyIntOfNat(n);
    PyIntOfNat(m);
    ParseTwoParts(a + "." + b, a, b);
  }

  /** A trailing dot is rejected: the empty second part is not a number. */
  lemma TrailingDotRejected(n: nat)
    ensures ParseRunIdentifier(NatToString(n) + ".").Err?
  {
    var a := NatToString(n);
    var parts := SplitAtMost(a + ".", '.', 2);
    assert parts == [a, ""] by {
      NatToStringNoDot(n);
      SplitAtMostPiece(a, '.', "", 1);
      assert a + "." == a + ['.'] + "";
    }
    assert PyInt(parts[1]).None? by {
      assert parts[1] == "";
      assert StripSpace("") == "";
    }
  }

  /** Three numbers are rejected. */
  lemma ThreePartsRejected(s: string)
    requires s == "2.3.2"
    ensures ParseRunIdentifier(s).Err?
  {
    assert s == "2" + ['.'] + "3.2";
    SplitAtMostPiece("2", '.', "3.2", 1);
    assert "3.2" == "3" + ['.'] + "2";
    SplitAtMostPiece("3", '.', "2", 0);
    assert |SplitAtMost(s, '.', 2)| == 3;
  }

  /** Exponent notation is not an integer. */
  lemma ExponentRejected(s: string)
    requires s == "1e3"
    ensures ParseRunIdentifier(s).Err?
  {
    SplitAtMostNone(s, '.', 2);
    assert StripSpace(s) == s by {
      assert LStripSpace(s) == s;
      assert RStripSpace(s) == s;
    }
    assert !IsDigit(s[1]);
  }

  // ---------------------------------------------------------------------------
  // _escape_split
  // ---------------------------------------------------------------------------

  const EscapeChar := '\\'

  /** Reference definition of `_escape_split`'s scan over `s`, from a state
      (`escape`, `chunk`, `parts`) to the final parts. */
  function Scan(s: string, d: char, escape: bool, chunk: string, parts: seq<string>): seq<string>
    decreases |s|
  {
    if |s| == 0 then parts + [chunk]
    else
      var c := s[0];
      if c == EscapeChar then Scan(s[1..], d, true, chunk, parts)
      else if escape then Scan(s[1..], d, false, chunk + (if c == d then [c] else [EscapeChar, c]), parts)
      else if c == d then Scan(s[1..], d, false, "", parts + [chunk])
      else Scan(s[1..], d, false, chunk + [c], parts)
  }

  function SplitUnescaped(s: string, d: char): seq<string> {
    Scan(s, d, false, "", [])
  }

  /** `_escape_split(string, delimiter)`. */
  method EscapeSplit(s: string, d: char) returns (parts: seq<string>)
    ensures parts == SplitUnescaped(s, d)
  {
    var escape := false;
    var chunk := "";
    parts := [];
    for i := 0 to |s|
      invariant Scan(s[i..], d, escape, chunk, parts) == SplitUnescaped(s, d)
    {
      assert s[i..][1..] == s[i + 1..];
      var c := s[i];
      if c == EscapeChar {
        escape := true;
        continue;
      }
      if escape {
        if c == d {
          chunk := chunk + [c];
        } else {
          chunk := chunk + [EscapeChar, c];
        }
        escape := false;
      } else {
        if c == d {
          parts := parts + [chunk];
          chunk := "";
        } else {
          chunk := chunk + [c];
        }
      }
    }
    parts := parts + [chunk];
  }

  /** The number of delimiters in `s` that do not follow a backslash;
      `afterEscape` says whether the character before `s` was one. */
  function Unescaped(s: string, d: char, afterEscape: bool): nat
    decreases |s|
  {
    if |s| == 0 then 0
    else (if s[0] == d && s[0] != EscapeChar && !afterEscape then 1 else 0) + Unescaped(s[1..], d, s[0] == EscapeChar)
  }

  /** The escape mode of the scan is exactly "the previous character was a
      backslash", so each unescaped delimiter closes one part: there is one
      part more than there are unescaped delimiters. */
  lemma {:induction false} ScanLength(s: string, d: char, escape: bool, chunk: string, parts: seq<string>)
    ensures |Scan(s, d, escape, chunk, parts)| == |parts| + 1 + Unescaped(s, d, escape)
    decreases |s|
  {
    if |s| > 0 {
      var c := s[0];
      if c == EscapeChar {
        ScanLength(s[1..], d, true, chunk, parts);
      } else if escape {
        ScanLength(s[1..], d, false, chunk + (if c == d then [c] else [EscapeChar, c]), parts);
      } else if c == d {
        ScanLength(s[1..], d, false, "", parts + [chunk]);
      } else {
        ScanLength(s[1..], d, false, chunk + [c], parts);
      }
    }
  }

  lemma SplitUnescapedLength(s: string, d: char)
    ensures |SplitUnescaped(s, d)| == Unescaped(s, d, false) + 1
  {
    ScanLength(s, d, false, "", []);
  }

  /** How a part is written so that `_escape_split` reads it back: each
      delimiter is preceded by a backslash. */
  function Escape(p: string, d: char): string
    decreases |p|
  {
    if |p| == 0 then "" else (if p[0] == d then [EscapeChar, d] else [p[0]]) + Escape(p[1..], d)
  }

  predicate NoBackslash(p: string) {
    forall i | 0 <= i < |p| :: p[i] != EscapeChar
  }

  /** One scan step over a plain character outside an escape. */
  lemma ScanPlainStep(c: char, tail: string, d: char, chunk: string, parts: seq<string>)
    requires c != EscapeChar && c != d
    ensures Scan([c] + tail, d, false, chunk, parts) == Scan(tail, d, false, chunk + [c], parts)
  {
    assert ([c] + tail)[1..] == tail;
  }

  /** Two scan steps over an escaped delimiter. */
  lemma ScanEscapeStep(tail: string, d: char, chunk: string, parts: seq<string>)
    requires d != EscapeChar
    ensures Scan([EscapeChar, d] + tail, d, false, chunk, parts) == Scan(tail, d, false, chunk + [d], parts)
  {
    var t := [EscapeChar, d] + tail;
    assert t[1..] == [d] + tail;
    assert ([d] + tail)[1..] == tail;
  }

  /** Scanning an escaped part adds that part to the current chunk. */
  lemma {:induction false} ScanEscaped(p: string, d: char, rest: string, chunk: string, parts: seq<string>)
    requires NoBackslash(p) && d != EscapeChar
    ensures Scan(Escape(p, d) + rest, d, false, chunk, parts) == Scan(rest, d, false, chunk + p, parts)
    decreases |p|
  {
    if |p| == 0 {
      assert Escape(p, d) + rest == rest;
      assert chunk + p == chunk;
    } else {
      var tail := Escape(p[1..], d) + rest;
      assert NoBackslash(p[1..]) by {
        assert forall i | 0 <= i < |p[1..]| :: p[1..][i] == p[i + 1];
      }
      assert chunk + [p[0]] + p[1..] == chunk + p;
      if p[0] == d {
        assert Escape(p, d) + rest == [EscapeChar, d] + tail;
        ScanEscapeStep(tail, d, chunk, parts);
        ScanEscaped(p[1..], d, rest, chunk + [d], parts);
      } else {
        assert Escape(p, d) + rest == [p[0]] + tail;
        ScanPlainStep(p[0], tail, d, chunk, parts);
        ScanEscaped(p[1..], d, rest, chunk + [p[0]], parts);
      }
    }
  }

  /** The escaped parts joined by the delimiter. */
  function JoinEscaped(ps: seq<string>, d: char): string
    requires |ps| > 0
    decreases |ps|
  {
    if |ps| == 1 then Escape(ps[0], d) else Escape(ps[0], d) + [d] + JoinEscaped(ps[1..], d)
  }

  lemma {:induction false} ScanJoined(ps: seq<string>, d: char, parts: seq<string>)
    requires |ps| > 0 && d != EscapeChar
    requires forall i | 0 <= i < |ps| :: NoBackslash(ps[i])
    ensures Scan(JoinEscaped(ps, d), d, false, "", parts) == parts + ps
    decreases |ps|
  {
    if |ps| == 1 {
      ScanEscaped(ps[0], d, "", "", parts);
      assert Escape(ps[0], d) + "" == Escape(ps[0], d);
      assert "" + ps[0] == ps[0];
      assert ps == [ps[0]];
    } else {
      var rest := [d] + JoinEscaped(ps[1..], d);
      assert JoinEscaped(ps, d) == Escape(ps[0], d) + rest;
      ScanEscaped(ps[0], d, rest, "", parts);
      assert "" + ps[0] == ps[0];
      assert rest[1..] == JoinEscaped(ps[1..], d);
      ScanJoined(ps[1..], d, parts + [ps[0]]);
      assert parts + [ps[0]] + ps[1..] == parts + ps;
    }
  }

  /** Splitting undoes joining escaped parts: no part is split or merged. */
  lemma EscapeSplitRoundTrip(ps: seq<string>, d: char)
    requires |ps| > 0 && d != EscapeChar
    requires forall i | 0 <= i < |ps| :: NoBackslash(ps[i])
    ensures SplitUnescaped(JoinEscaped(ps, d), d) == ps
  {
    ScanJoined(ps, d, []);
  }

  // ---------------------------------------------------------------------------
  // parse_parameter_values
  // ---------------------------------------------------------------------------

  /** Reference definition: the parts from `i` on folded into `acc`. Blank
      parts are skipped, the others must split on `=` into a name and a
      value, and a later name overwrites an earlier one. */
  function ValuesFrom(parts: seq<string>, i: nat, acc: map<string, string>): (r: Result<map<string, string>, string>)
    requires i <= |parts|
    decreases |parts| - i
  {
    if i == |parts| then Ok(acc)
    else if StripSpace(parts[i]) == "" then ValuesFrom(parts, i + 1, acc)
    else
      var nv := SplitUnescaped(parts[i], '=');
      if |nv| != 2 then Err("Invalid parameter value: " + parts[i])
      else ValuesFrom(parts, i + 1, acc[nv[0] := nv[1]])
  }

  function ParameterValues(s: string): Result<map<string, string>, string> {
    ValuesFrom(SplitUnescaped(s, ','), 0, map[])
  }

  /** `parse_parameter_values(parameter_value_string)`. */
  method ParseParameterValues(s: string) returns (r: Result<map<string, string>, string>)
    ensures r == ParameterValues(s)
  {
    var parts := EscapeSplit(s, ',');
    var values: map<string, string> := map[];
    for i := 0 to |parts|
      invariant ValuesFrom(parts, i, values) == ParameterValues(s)
    {
      if StripSpace(parts[i]) == "" {
        continue;
      }
      var nv := EscapeSplit(parts[i], '=');
      if |nv| != 2 {
        return Err("Invalid parameter value: " + parts[i]);
      }
      values := values[nv[0] := nv[1]];
    }
    r := Ok(values);
  }

  /** A non-blank part that does not split into a name and a value. */
  predicate BadPart(part: string) {
    StripSpace(part) != "" && |SplitUnescaped(part, '=')| != 2
  }

  /** The fold fails exactly when some part is bad. */
  lemma {:induction false} ValuesFromFails(parts: seq<string>, i: nat, acc: map<string, string>)
    requires i <= |parts|
    ensures ValuesFrom(parts, i, acc).Err? <==>
      exists j | i <= j < |parts| :: BadPart(parts[j])
    decreases |parts| - i
  {
    if i < |parts| {
      if BadPart(parts[i]) {
        assert ValuesFrom(parts, i, acc).Err?;
      } else {
        var acc' := if StripSpace(parts[i]) == "" then acc
                    else acc[SplitUnescaped(parts[i], '=')[0] := SplitUnescaped(parts[i], '=')[1]];
        assert ValuesFrom(parts, i, acc) == ValuesFrom(parts, i + 1, acc');
        ValuesFromFails(parts, i + 1, acc');
        assert (exists j | i <= j < |parts| :: BadPart(parts[j]))
           <==> (exists j | i + 1 <= j < |parts| :: BadPart(parts[j]));
      }
    }
  }

  /** Every name of the result comes with its value either from `acc` or
      from a non-blank part `name=value`. */
  lemma {:induction false} ValuesFromSound(parts: seq<string>, i: nat, acc: map<string, string>, name: string)
    requires i <= |parts| && ValuesFrom(parts, i, acc).Ok? && name in ValuesFrom(parts, i, acc).value
    ensures (name in acc && ValuesFrom(parts, i, acc).value[name] == acc[name])
      || exists j | i <= j < |parts| ::
           StripSpace(parts[j]) != "" && SplitUnescaped(parts[j], '=') == [name, ValuesFrom(parts, i, acc).value[name]]
    decreases |parts| - i
  {
    if i < |parts| {
      var result := ValuesFrom(parts, i, acc).value;
      if StripSpace(parts[i]) == "" {
        ValuesFromSound(parts, i + 1, acc, name);
      } else {
        var nv := SplitUnescaped(parts[i], '=');
        var acc' := acc[nv[0] := nv[1]];
        assert ValuesFrom(parts, i, acc) == ValuesFrom(parts, i + 1, acc');
        ValuesFromSound(parts, i + 1, acc', name);
        if name in acc' && result[name] == acc'[name] && name == nv[0] {
          assert nv == [name, result[name]];
        }
      }
    }
  }

  /** The empty string has no parameters. */
  lemma EmptyParameterString()
    ensures ParameterValues("") == Ok(map[])
  {
    assert SplitUnescaped("", ',') == [""];
    assert StripSpace("") == "";
  }
}
