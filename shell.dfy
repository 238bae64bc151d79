/** `faculty/cli/shell.py`: `quote(s)`, which makes a string safe to paste
    into a POSIX shell command line as one word. The partner here is a
    reader of a single shell word (unquoted characters, `'...'` and
    `"..."`), and the round trip `ReadWord(Quote(s)) == Some(s)`. */
module Shell {
  import opened Wrappers
  import opened Strings

  /** A character `_find_unsafe` lets through: an ASCII word character or
      one of `@%+=:,./-`. */
  predicate SafeChar(c: char) {
    ('a' <= c <= 'z') || ('A' <= c <= 'Z') || ('0' <= c <= '9') || c == '_'
    || c == '@' || c == '%' || c == '+' || c == '=' || c == ':' || c == ',' || c == '.' || c == '/' || c == '-'
  }

  predicate AllSafe(s: string) {
    forall i | 0 <= i < |s| :: SafeChar(s[i])
  }

  /** What a single quote is replaced by inside the single-quoted form:
      close the quotes, a double-quoted `'`, open them again. */
  const QuotedQuote := "'\"'\"'"

  /** `quote(s)`. */
  function Quote(s: string): (r: string)
    ensures s == "" ==> r == "''"
    ensures s != "" && AllSafe(s) ==> r == s
    ensures !(s != "" && AllSafe(s)) ==> |r| >= 2 && r[0] == '\'' && r[|r| - 1] == '\''
  {
    if s == "" then "''"
    else if AllSafe(s) then s
    else "'" + ReplaceChar(s, '\'', QuotedQuote) + "'"
  }

  // ---------------------------------------------------------------------------
  // Reading one shell word
  // ---------------------------------------------------------------------------

  datatype Mode = Unquoted | InSingle | InDouble

  /** The word read from `s` by the shell, from quoting mode `mode` with `acc`
      read so far. Unquoted, only safe characters may appear (anything else
      would end the word or be interpreted); inside single quotes every
      character stands for itself; inside double quotes `$`, `` ` `` and
      `\` would be interpreted, which this reader refuses. */
  function Read(s: string, mode: Mode, acc: string): Option<string>
    decreases |s|
  {
    if |s| == 0 then (if mode == Unquoted then Some(acc) else None)
    else
      var c := s[0];
      match mode
      case Unquoted =>
        if c == '\'' then Read(s[1..], InSingle, acc)
        else if c == '"' then Read(s[1..], InDouble, acc)
        else if SafeChar(c) then Read(s[1..], Unquoted, acc + [c])
        else None
      case InSingle =>
        if c == '\'' then Read(s[1..], Unquoted, acc) else Read(s[1..], InSingle, acc + [c])
      case InDouble =>
        if c == '"' then Read(s[1..], Unquoted, acc)
        else if c == '$' || c == '`' || c == '\\' then None
        else Read(s[1..], InDouble, acc + [c])
  }

  /** The word that `s` is on a command line; the empty text is no word. */
  function ReadWord(s: string): Option<string> {
    if s == "" then None else Read(s, Unquoted, "")
  }

  /** Safe characters read as themselves. */
  lemma {:induction false} ReadSafe(s: string, rest: string, acc: string)
    requires AllSafe(s)
    ensures Read(s + rest, Unquoted, acc) == Read(rest, Unquoted, acc + s)
    decreases |s|
  {
    if |s| == 0 {
      assert s + rest == rest;
      assert acc + s == acc;
    } else {
      assert (s + rest)[0] == s[0];
      assert (s + rest)[1..] == s[1..] + rest;
      assert AllSafe(s[1..]) by {
        assert forall i | 0 <= i < |s[1..]| :: s[1..][i] == s[i + 1];
      }
      ReadSafe(s[1..], rest, acc + [s[0]]);
      assert acc + [s[0]] + s[1..] == acc + s;
    }
  }

  /** Reading `'"'"'` inside single quotes adds one `'`. */
  lemma ReadQuotedQuote(rest: string, acc: string)
    ensures Read(QuotedQuote + rest, InSingle, acc) == Read(rest, InSingle, acc + "'")
  {
    var t0 := QuotedQuote + rest;
    var t1 := "\"'\"'" + rest;
    var t2 := "'\"'" + rest;
    var t3 := "\"'" + rest;
    var t4 := "'" + rest;
    assert t0[0] == '\'' && t0[1..] == t1;
    assert t1[0] == '"' && t1[1..] == t2;
    assert t2[0] == '\'' && t2[1..] == t3;
    assert t3[0] == '"' && t3[1..] == t4;
    assert t4[0] == '\'' && t4[1..] == rest;
    assert Read(t0, InSingle, acc) == Read(t1, Unquoted, acc);
    assert Read(t1, Unquoted, acc) == Read(t2, InDouble, acc);
    assert Read(t2, InDouble, acc) == Read(t3, InDouble, acc + "'");
    assert Read(t3, InDouble, acc + "'") == Read(t4, Unquoted, acc + "'");
  }

  /** Reading one ordinary character inside single quotes. */
  lemma ReadSingleChar(c: char, rest: string, acc: string)
    requires c != '\''
    ensures Read([c] + rest, InSingle, acc) == Read(rest, InSingle, acc + [c])
  {
    assert ([c] + rest)[1..] == rest;
  }

  /** The replaced text, read inside single quotes, is the original text. */
  lemma {:induction false} ReadReplaced(s: string, rest: string, acc: string)
    ensures Read(ReplaceChar(s, '\'', QuotedQuote) + rest, InSingle, acc) == Read(rest, InSingle, acc + s)
    decreases |s|
  {
    if |s| == 0 {
      assert ReplaceChar(s, '\'', QuotedQuote) + rest == rest;
      assert acc + s == acc;
    } else {
      var tail := ReplaceChar(s[1..], '\'', QuotedQuote) + rest;
      if s[0] == '\'' {
        assert ReplaceChar(s, '\'', QuotedQuote) + rest == QuotedQuote + tail;
        ReadQuotedQuote(tail, acc);
      } else {
        assert ReplaceChar(s, '\'', QuotedQuote) + rest == [s[0]] + tail;
        ReadSingleChar(s[0], tail, acc);
      }
      ReadReplaced(s[1..], rest, acc + [s[0]]);
      assert acc + [s[0]] + s[1..] == acc + s;
    }
  }

  /** The shell reads the quoted form back as exactly the original string,
      as one word. */
  lemma QuoteRoundTrip(s: string)
    ensures ReadWord(Quote(s)) == Some(s)
  {
    if s == "" {
      var q := Quote(s);
      assert q[1..] == "'" && q[1..][1..] == "";
      assert Read(q, Unquoted, "") == Read("'", InSingle, "");
    } else if AllSafe(s) {
      ReadSafe(s, "", "");
      assert s + "" == s;
      assert "" + s == s;
    } else {
      var body := ReplaceChar(s, '\'', QuotedQuote);
      var q := Quote(s);
      assert q[1..] == body + "'";
      ReadReplaced(s, "'", "");
      assert "" + s == s;
    }
  }

  /** The result is the input unchanged exactly when the input is a
      non-empty string of safe characters. */
  lemma QuoteUnchanged(s: string)
    ensures Quote(s) == s <==> s != "" && AllSafe(s)
  {
    if !(s != "" && AllSafe(s)) && s != "" {
      calc {
        |Quote(s)|;
        2 + |ReplaceChar(s, '\'', QuotedQuote)|;
      >= { ReplaceCharLength(s); }
        2 + |s|;
      }
    }
  }

  /** Replacement never shortens the text. */
  lemma {:induction false} ReplaceCharLength(s: string)
    ensures |ReplaceChar(s, '\'', QuotedQuote)| >= |s|
    decreases |s|
  {
    if |s| > 0 {
      ReplaceCharLength(s[1..]);
    }
  }

  /** The example from the source's comment: `$'b` is quoted as
      `'$'"'"'b'`. */
  lemma QuoteDollarQuote(s: string)
    requires s == "$'b"
    ensures Quote(s) == "'$'\"'\"'b'"
  {
    assert !SafeChar(s[0]);
    assert ReplaceChar(s, '\'', QuotedQuote) == "$" + QuotedQuote + "b" by {
      assert s[1..][1..] == "b";
      assert ReplaceChar("b", '\'', QuotedQuote) == "b";
    }
  }
}
