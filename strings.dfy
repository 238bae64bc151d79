/** The pieces of Python's `str` behaviour the model leans on: `split`, `join`,
    `strip`, `replace`, `lower`, prefix and suffix tests, and decimal text. */
module Strings {

  predicate StartsWith(s: string, prefix: string) { prefix <= s }

  predicate EndsWith(s: string, suffix: string) {
    |suffix| <= |s| && s[|s| - |suffix|..] == suffix
  }

  lemma EndsWithChar(s: string, c: char)
    ensures EndsWith(s, [c]) <==> |s| > 0 && s[|s| - 1] == c
  {
    if |s| > 0 { assert s[|s| - 1..] == [s[|s| - 1]]; }
  }

  lemma EndsWithAppend(s: string, t: string)
    ensures EndsWith(s + t, t)
  {
    assert (s + t)[|s + t| - |t|..] == t;
  }

  lemma EndsWithTrans(s: string, t: string, u: string)
    requires EndsWith(s, t) && EndsWith(t, u)
    ensures EndsWith(s, u)
  {
    assert s[|s| - |u|..] == t[|t| - |u|..];
  }

  // ---------------------------------------------------------------------------
  // str.split(c) and sep.join(parts)
  // ---------------------------------------------------------------------------

  /** `s.split(c)` for a one-character separator: never empty, `"".split(c) == [""]`. */
  function Split(s: string, c: char): (r: seq<string>)
    ensures |r| >= 1
    decreases |s|
  {
    if |s| == 0 then [""]
    else
      var rest := Split(s[1..], c);
      if s[0] == c then [""] + rest
      else [[s[0]] + rest[0]] + rest[1..]
  }

  /** `sep.join(parts)`. */
  function JoinWith(parts: seq<string>, sep: string): string
    decreases |parts|
  {
    if |parts| == 0 then ""
    else if |parts| == 1 then parts[0]
    else parts[0] + sep + JoinWith(parts[1..], sep)
  }

  /** `s.split(c, maxsplit)`: at most `maxsplit` cuts, the rest stays in the last part. */
  function SplitAtMost(s: string, c: char, maxsplit: nat): (r: seq<string>)
    ensures 1 <= |r| <= maxsplit + 1
    decreases |s|
  {
    if |s| == 0 then [""]
    else if s[0] == c then
      if maxsplit == 0 then [s] else [""] + SplitAtMost(s[1..], c, maxsplit - 1)
    else
      var rest := SplitAtMost(s[1..], c, maxsplit);
      [[s[0]] + rest[0]] + rest[1..]
  }

  /** Number of occurrences of `c` in `s`. */
  function Count(s: string, c: char): nat
    decreases |s|
  {
    if |s| == 0 then 0 else (if s[0] == c then 1 else 0) + Count(s[1..], c)
  }

  lemma {:induction false} SplitLength(s: string, c: char)
    ensures |Split(s, c)| == Count(s, c) + 1
    decreases |s|
  {
    if |s| > 0 { SplitLength(s[1..], c); }
  }

  lemma {:induction false} SplitNoSeparator(s: string, c: char)
    requires c !in s
    ensures Split(s, c) == [s]
    decreases |s|
  {
    if |s| > 0 {
      assert s[0] != c && c !in s[1..];
      SplitNoSeparator(s[1..], c);
      assert [s[0]] + s[1..] == s;
    }
  }

  /** Every piece of a split is free of the separator. */
  lemma {:induction false} SplitPiecesFree(s: string, c: char)
    ensures forall i :: 0 <= i < |Split(s, c)| ==> c !in Split(s, c)[i]
    decreases |s|
  {
    if |s| > 0 { SplitPiecesFree(s[1..], c); }
  }

  lemma JoinConsFirst(x: char, p: string, ps: seq<string>, sep: string)
    ensures JoinWith([[x] + p] + ps, sep) == [x] + JoinWith([p] + ps, sep)
  {
    if |ps| > 0 {
      assert ([[x] + p] + ps)[1..] == ps;
      assert ([p] + ps)[1..] == ps;
    }
  }

  lemma {:induction false} JoinPrefixFirst(x: string, p: string, ps: seq<string>, sep: string)
    ensures JoinWith([x + p] + ps, sep) == x + JoinWith([p] + ps, sep)
  {
    if |ps| > 0 {
      assert ([x + p] + ps)[1..] == ps;
      assert ([p] + ps)[1..] == ps;
    }
  }

  lemma {:induction false} JoinWithAppend(xs: seq<string>, ys: seq<string>, sep: string)
    requires |xs| > 0 && |ys| > 0
    ensures JoinWith(xs + ys, sep) == JoinWith(xs, sep) + sep + JoinWith(ys, sep)
    decreases |xs|
  {
    if |xs| == 1 {
      assert (xs + ys)[1..] == ys;
    } else {
      assert (xs + ys)[1..] == xs[1..] + ys;
      JoinWithAppend(xs[1..], ys, sep);
    }
  }

  /** Joining the pieces of a split gives back the string. */
  lemma {:induction false} JoinSplit(s: string, c: char)
    ensures JoinWith(Split(s, c), [c]) == s
    decreases |s|
  {
    if |s| > 0 {
      var rest := Split(s[1..], c);
      JoinSplit(s[1..], c);
      if s[0] == c {
        assert ([""] + rest)[1..] == rest;
      } else {
        JoinConsFirst(s[0], rest[0], rest[1..], [c]);
        assert [rest[0]] + rest[1..] == rest;
      }
    }
  }

  lemma {:induction false} SplitAfterPiece(p: string, c: char, rest: string)
    requires c !in p
    ensures Split(p + [c] + rest, c) == [p] + Split(rest, c)
    decreases |p|
  {
    if |p| == 0 {
      assert p + [c] + rest == [c] + rest;
      assert ([c] + rest)[1..] == rest;
    } else {
      assert (p + [c] + rest)[0] == p[0];
      assert (p + [c] + rest)[1..] == p[1..] + [c] + rest;
      assert c !in p[1..];
      SplitAfterPiece(p[1..], c, rest);
      assert [p[0]] + p[1..] == p;
    }
  }

  /** Splitting a join of separator-free pieces gives back the pieces. */
  lemma {:induction false} SplitJoin(parts: seq<string>, c: char)
    requires |parts| >= 1
    requires forall i :: 0 <= i < |parts| ==> c !in parts[i]
    ensures Split(JoinWith(parts, [c]), c) == parts
    decreases |parts|
  {
    if |parts| == 1 {
      SplitNoSeparator(parts[0], c);
    } else {
      SplitJoin(parts[1..], c);
      SplitAfterPiece(parts[0], c, JoinWith(parts[1..], [c]));
      assert [parts[0]] + parts[1..] == parts;
    }
  }

  // ---------------------------------------------------------------------------
  // Whitespace, strip, replace, lower
  // ---------------------------------------------------------------------------

  /** Python's `str.isspace` for one character. */
  predicate IsSpace(ch: char) {
    ch == ' ' || ('\t' <= ch <= '\r') || ('\U{1c}' <= ch <= '\U{1f}') || ch == '\U{85}'
    || ch == '\U{a0}' || ch == '\U{1680}' || ('\U{2000}' <= ch <= '\U{200a}')
    || ch == '\U{2028}' || ch == '\U{2029}' || ch == '\U{202f}' || ch == '\U{205f}'
    || ch == '\U{3000}'
  }

  predicate AllSpace(s: string) { forall i :: 0 <= i < |s| ==> IsSpace(s[i]) }

  /** `s.lstrip()` */
  function LStripSpace(s: string): (r: string)
    ensures |r| <= |s| && r == s[|s| - |r|..]
    ensures r == "" || !IsSpace(r[0])
    decreases |s|
  {
    if |s| > 0 && IsSpace(s[0]) then LStripSpace(s[1..]) else s
  }

  /** `s.rstrip()` */
  function RStripSpace(s: string): (r: string)
    ensures |r| <= |s| && r == s[..|r|]
    ensures r == "" || !IsSpace(r[|r| - 1])
    decreases |s|
  {
    if |s| > 0 && IsSpace(s[|s| - 1]) then RStripSpace(s[..|s| - 1]) else s
  }

  /** `s.strip()` */
  function StripSpace(s: string): string { RStripSpace(LStripSpace(s)) }

  lemma {:induction false} LStripSpaceEmpty(s: string)
    ensures LStripSpace(s) == "" <==> AllSpace(s)
    decreases |s|
  {
    if |s| > 0 {
      LStripSpaceEmpty(s[1..]);
      if IsSpace(s[0]) {
        assert AllSpace(s) <==> AllSpace(s[1..]) by {
          if AllSpace(s[1..]) {
            forall i | 0 <= i < |s| ensures IsSpace(s[i]) {
              if i > 0 { assert s[i] == s[1..][i - 1]; }
            }
          }
        }
      }
    }
  }

  lemma {:induction false} RStripSpaceEmpty(s: string)
    ensures RStripSpace(s) == "" ==> AllSpace(s)
    decreases |s|
  {
    if |s| > 0 && IsSpace(s[|s| - 1]) {
      RStripSpaceEmpty(s[..|s| - 1]);
      if RStripSpace(s) == "" {
        forall i | 0 <= i < |s| ensures IsSpace(s[i]) {
          if i < |s| - 1 { assert s[i] == s[..|s| - 1][i]; }
        }
      }
    }
  }

  /** `s.strip() == ""` exactly when `s` is all whitespace. */
  lemma StripSpaceEmpty(s: string)
    ensures StripSpace(s) == "" <==> AllSpace(s)
  {
    LStripSpaceEmpty(s);
    var l := LStripSpace(s);
    if l != "" {
      RStripSpaceEmpty(l);
      assert !IsSpace(l[0]);
    }
  }

  /** `s.lstrip(ch)` for one character. */
  function LStripChar(s: string, ch: char): (r: string)
    ensures |r| <= |s| && r == s[|s| - |r|..]
    ensures r == "" || r[0] != ch
    decreases |s|
  {
    if |s| > 0 && s[0] == ch then LStripChar(s[1..], ch) else s
  }

  /** `s.rstrip(ch)` for one character. */
  function RStripChar(s: string, ch: char): (r: string)
    ensures |r| <= |s| && r == s[..|r|]
    ensures r == "" || r[|r| - 1] != ch
    decreases |s|
  {
    if |s| > 0 && s[|s| - 1] == ch then RStripChar(s[..|s| - 1], ch) else s
  }

  /** `s.strip(ch)` for one character. */
  function StripChar(s: string, ch: char): string { RStripChar(LStripChar(s, ch), ch) }

  /** Every character `s.lstrip(ch)` removes is `ch`. */
  lemma {:induction false} LStripCharRemoved(s: string, ch: char)
    ensures forall i :: 0 <= i < |s| - |LStripChar(s, ch)| ==> s[i] == ch
    decreases |s|
  {
    if |s| > 0 && s[0] == ch {
      LStripCharRemoved(s[1..], ch);
      assert forall i :: 1 <= i < |s| ==> s[i] == s[1..][i - 1];
    }
  }

  /** Every character `s.rstrip(ch)` removes is `ch`. */
  lemma {:induction false} RStripCharRemoved(s: string, ch: char)
    ensures forall i :: |RStripChar(s, ch)| <= i < |s| ==> s[i] == ch
    decreases |s|
  {
    if |s| > 0 && s[|s| - 1] == ch {
      RStripCharRemoved(s[..|s| - 1], ch);
    }
  }

  lemma LStripCharOne(t: string, ch: char)
    ensures LStripChar([ch] + t, ch) == LStripChar(t, ch)
  {
    assert ([ch] + t)[1..] == t;
  }

  lemma RStripCharOne(t: string, ch: char)
    ensures RStripChar(t + [ch], ch) == RStripChar(t, ch)
  {
    assert (t + [ch])[..|t|] == t;
  }

  /** Every character of `s` is `c`. */
  predicate AllChar(s: string, c: char) { forall i :: 0 <= i < |s| ==> s[i] == c }

  /** `s.strip(ch)` neither starts nor ends with `ch`. */
  lemma StripCharEnds(s: string, ch: char)
    ensures var r := StripChar(s, ch); r == "" || (r[0] != ch && r[|r| - 1] != ch)
  {
    var l := LStripChar(s, ch);
    var r := RStripChar(l, ch);
    if r != "" { assert r[0] == l[0]; }
  }

  /** `s.strip(ch)` is what lies between two runs of `ch` in `s`. */
  lemma StripCharParts(s: string, ch: char)
    ensures exists a, b :: AllChar(a, ch) && AllChar(b, ch) && s == a + StripChar(s, ch) + b
  {
    var l := LStripChar(s, ch);
    LStripCharRemoved(s, ch);
    RStripCharRemoved(l, ch);
    Between(s, l, RStripChar(l, ch), ch);
  }

  /** A suffix `l` of `s` and a prefix `r` of `l`, the characters outside
      `r` all being `ch`, split `s` into `ch`-runs around `r`. */
  lemma Between(s: string, l: string, r: string, ch: char)
    requires |l| <= |s| && l == s[|s| - |l|..] && |r| <= |l| && r == l[..|r|]
    requires forall i :: 0 <= i < |s| - |l| ==> s[i] == ch
    requires forall i :: |r| <= i < |l| ==> l[i] == ch
    ensures exists a, b :: AllChar(a, ch) && AllChar(b, ch) && s == a + r + b
  {
    var a, b := s[..|s| - |l|], l[|r|..];
    assert s == a + l && l == r + b;
    assert AllChar(a, ch) && AllChar(b, ch);
  }

  /** Stripping `ch` from a value enclosed in one `ch` on each side gives
      the value back, when the value itself neither starts nor ends with
      `ch`. */
  lemma StripCharEnclosed(e: string, ch: char)
    requires e == "" || (e[0] != ch && e[|e| - 1] != ch)
    ensures StripChar([ch] + e + [ch], ch) == e
  {
    assert [ch] + e + [ch] == [ch] + (e + [ch]);
    LStripCharOne(e + [ch], ch);
    if e == "" {
      assert e + [ch] == [ch] + e;
      LStripCharOne(e, ch);
    } else {
      assert (e + [ch])[0] == e[0];
      RStripCharOne(e, ch);
    }
  }

  /** `s.replace(ch, rep)` for a one-character pattern. */
  function ReplaceChar(s: string, ch: char, rep: string): string
    decreases |s|
  {
    if |s| == 0 then ""
    else (if s[0] == ch then rep else [s[0]]) + ReplaceChar(s[1..], ch, rep)
  }

  function AsciiLowerChar(ch: char): char {
    if 'A' <= ch <= 'Z' then (ch as int + 32) as char else ch
  }

  /** `s.lower()` on ASCII letters; other characters are kept. */
  function AsciiLower(s: string): (r: string)
    ensures |r| == |s|
    ensures forall i :: 0 <= i < |s| ==> r[i] == AsciiLowerChar(s[i])
    decreases |s|
  {
    if |s| == 0 then "" else [AsciiLowerChar(s[0])] + AsciiLower(s[1..])
  }

  // ---------------------------------------------------------------------------
  // Decimal text
  // ---------------------------------------------------------------------------

  predicate IsDigit(ch: char) { '0' <= ch <= '9' }

  predicate AllDigits(s: string) { forall i :: 0 <= i < |s| ==> IsDigit(s[i]) }

  function DigitChar(d: nat): char
    requires d < 10
  {
    ('0' as int + d) as char
  }

  function DigitValue(ch: char): nat
    requires IsDigit(ch)
  {
    ch as int - '0' as int
  }

  /** The value of a string of decimal digits. */
  function DigitsValue(s: string): nat
    requires AllDigits(s)
    decreases |s|
  {
    if |s| == 0 then 0 else DigitsValue(s[..|s| - 1]) * 10 + DigitValue(s[|s| - 1])
  }

  /** `str(n)` for a natural number. */
  function NatToString(n: nat): (r: string)
    ensures |r| >= 1 && AllDigits(r)
    ensures |r| > 1 ==> r[0] != '0'
    decreases n
  {
    if n < 10 then [DigitChar(n)] else NatToString(n / 10) + [DigitChar(n % 10)]
  }

  /** `str(i)` for an integer. */
  function IntToString(i: int): string {
    if i < 0 then "-" + NatToString(-i) else NatToString(i)
  }

  lemma {:induction false} NatToStringValue(n: nat)
    ensures DigitsValue(NatToString(n)) == n
    decreases n
  {
    if n >= 10 {
      NatToStringValue(n / 10);
      var s := NatToString(n);
      assert s[..|s| - 1] == NatToString(n / 10);
    }
  }

  /** Distinct numbers have distinct decimal text. */
  lemma NatToStringInjective(m: nat, n: nat)
    requires NatToString(m) == NatToString(n)
    ensures m == n
  {
    NatToStringValue(m);
    NatToStringValue(n);
  }
}
