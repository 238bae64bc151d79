/** `urllib.parse.quote(s)` with its default `safe="/"`: the text is encoded
    as UTF-8, and every byte outside the unreserved set of section 2.3 of
    RFC 3986 and `/` becomes a `%XX` triplet with upper-case hexadecimal
    digits (section 2.1 of RFC 3986). */
module PercentEncoding {
  import opened Wrappers
  import opened Bytes

  /** The UTF-8 encoding of one Unicode scalar value. */
  function Utf8Char(c: char): (r: Bytes)
    ensures 1 <= |r| <= 4
    ensures (c as int < 0x80) <==> |r| == 1
    ensures |r| == 1 ==> r[0] as int == c as int
  {
    var v := c as int;
    if v < 0x80 then [v as byte]
    else if v < 0x800 then [(0xC0 + v / 64) as byte, (0x80 + v % 64) as byte]
    else if v < 0x10000 then
      [(0xE0 + v / 4096) as byte, (0x80 + (v / 64) % 64) as byte, (0x80 + v % 64) as byte]
    else
      [(0xF0 + v / 262144) as byte, (0x80 + (v / 4096) % 64) as byte,
       (0x80 + (v / 64) % 64) as byte, (0x80 + v % 64) as byte]
  }

  /** `s.encode("utf-8")`. */
  function Utf8(s: string): (r: Bytes)
    ensures |r| >= |s|
    decreases |s|
  {
    if s == "" then [] else Utf8Char(s[0]) + Utf8(s[1..])
  }

  /** Unreserved characters of RFC 3986, as bytes: letters, digits, `-`,
      `.`, `_` and `~`. */
  predicate Unreserved(b: byte) {
    (65 <= b <= 90) || (97 <= b <= 122) || (48 <= b <= 57) || b == 45 || b == 46 || b == 95 || b == 126
  }

  /** Kept as they are: the unreserved bytes and the safe `/`. */
  predicate Kept(b: byte) { Unreserved(b) || b == 47 }

  function HexDigit(d: nat): (ch: char)
    requires d < 16
    ensures IsHexDigit(ch)
  {
    if d < 10 then ('0' as int + d) as char else ('A' as int + d - 10) as char
  }

  predicate IsHexDigit(ch: char) { ('0' <= ch <= '9') || ('A' <= ch <= 'F') }

  function HexValue(ch: char): (d: nat)
    requires IsHexDigit(ch)
    ensures d < 16 && HexDigit(d) == ch
  {
    if ch <= '9' then ch as int - '0' as int else ch as int - 'A' as int + 10
  }

  lemma HexDigitValue(d: nat)
    requires d < 16
    ensures HexValue(HexDigit(d)) == d
  {
  }

  /** One byte of the encoded text. */
  function QuoteByte(b: byte): (r: string)
    ensures Kept(b) ==> r == [b as int as char]
    ensures !Kept(b) ==> |r| == 3 && r[0] == '%' && IsHexDigit(r[1]) && IsHexDigit(r[2]) && HexValue(r[1]) * 16 + HexValue(r[2]) == b as int
  {
    if Kept(b) then [b as int as char]
    else
      HexDigitValue(b as int / 16);
      HexDigitValue(b as int % 16);
      ['%', HexDigit(b as int / 16), HexDigit(b as int % 16)]
  }

  function QuoteBytes(bs: Bytes): string
    decreases |bs|
  {
    if bs == [] then "" else QuoteByte(bs[0]) + QuoteBytes(bs[1..])
  }

  /** `urllib.parse.quote(s)`. */
  function Quote(s: string): string { QuoteBytes(Utf8(s)) }

  lemma {:induction false} Utf8Append(s: string, t: string)
    ensures Utf8(s + t) == Utf8(s) + Utf8(t)
    decreases |s|
  {
    if s != "" {
      assert (s + t)[0] == s[0] && (s + t)[1..] == s[1..] + t;
      Utf8Append(s[1..], t);
    } else {
      assert s + t == t;
    }
  }

  lemma {:induction false} QuoteBytesAppend(a: Bytes, b: Bytes)
    ensures QuoteBytes(a + b) == QuoteBytes(a) + QuoteBytes(b)
    decreases |a|
  {
    if a != [] {
      assert (a + b)[0] == a[0] && (a + b)[1..] == a[1..] + b;
      QuoteBytesAppend(a[1..], b);
    } else {
      assert a + b == b;
    }
  }

  /** Encoding works piece by piece. */
  lemma QuoteAppend(s: string, t: string)
    ensures Quote(s + t) == Quote(s) + Quote(t)
  {
    Utf8Append(s, t);
    QuoteBytesAppend(Utf8(s), Utf8(t));
  }

  /** An ASCII character that is kept. */
  predicate KeptChar(c: char) { c as int < 0x80 && Kept(c as int as byte) }

  lemma QuoteKeptChar(c: char, rest: string)
    requires KeptChar(c)
    ensures Quote([c] + rest) == [c] + Quote(rest)
  {
    var s := [c] + rest;
    assert s[0] == c && s[1..] == rest;
    var u := Utf8Char(c);
    assert u == [c as int as byte];
    assert Utf8(s) == u + Utf8(rest);
    QuoteBytesAppend(u, Utf8(rest));
    assert QuoteBytes(u) == QuoteByte(c as int as byte) + QuoteBytes([]);
  }

  /** Text made only of ASCII characters that are kept is sent unchanged. */
  lemma {:induction false} QuoteUnchanged(s: string)
    requires forall i :: 0 <= i < |s| ==> KeptChar(s[i])
    ensures Quote(s) == s
    decreases |s|
  {
    if s != "" {
      QuoteUnchanged(s[1..]);
      assert s == [s[0]] + s[1..];
      QuoteKeptChar(s[0], s[1..]);
    }
  }

  /** Characters the encoded text is made of. */
  predicate QuotedChar(ch: char) {
    ch == '%' || ch == '/' || IsHexDigit(ch) || (ch as int < 256 && Unreserved(ch as int as byte))
  }

  lemma {:induction false} QuoteBytesAlphabet(bs: Bytes)
    ensures forall i :: 0 <= i < |QuoteBytes(bs)| ==> QuotedChar(QuoteBytes(bs)[i])
    decreases |bs|
  {
    if bs != [] {
      QuoteBytesAlphabet(bs[1..]);
      var head := QuoteByte(bs[0]);
      assert forall i :: 0 <= i < |head| ==> QuotedChar(head[i]);
    }
  }

  /** The encoded text holds only unreserved characters, `/`, `%` and
      upper-case hexadecimal digits. */
  lemma QuoteAlphabet(s: string)
    ensures forall i :: 0 <= i < |Quote(s)| ==> QuotedChar(Quote(s)[i])
  {
    QuoteBytesAlphabet(Utf8(s));
  }

  /** Decoding of percent-encoded text: `%XX` gives that byte, an ASCII
      character itself; anything else is malformed. */
  function PercentDecode(s: string): Option<Bytes>
    decreases |s|
  {
    if s == "" then Some([])
    else if s[0] == '%' then
      if |s| >= 3 && IsHexDigit(s[1]) && IsHexDigit(s[2]) then
        match PercentDecode(s[3..])
        case None => None
        case Some(rest) => Some([(HexValue(s[1]) * 16 + HexValue(s[2])) as byte] + rest)
      else None
    else if s[0] as int < 128 then
      match PercentDecode(s[1..])
      case None => None
      case Some(rest) => Some([s[0] as int as byte] + rest)
    else None
  }

  lemma {:induction false} DecodeQuoteBytes(bs: Bytes)
    ensures PercentDecode(QuoteBytes(bs)) == Some(bs)
    decreases |bs|
  {
    if bs != [] {
      DecodeQuoteBytes(bs[1..]);
      var q := QuoteBytes(bs);
      var head := QuoteByte(bs[0]);
      assert q == head + QuoteBytes(bs[1..]);
      if Kept(bs[0]) {
        assert q[0] == bs[0] as int as char && q[1..] == QuoteBytes(bs[1..]);
        assert q[0] != '%' && q[0] as int < 128 && q[0] as int as byte == bs[0];
        assert PercentDecode(q) == Some([bs[0]] + bs[1..]);
      } else {
        assert q[0] == '%' && q[1] == head[1] && q[2] == head[2] && q[3..] == QuoteBytes(bs[1..]);
        assert IsHexDigit(q[1]) && IsHexDigit(q[2]);
        assert (HexValue(q[1]) * 16 + HexValue(q[2])) as byte == bs[0];
        assert PercentDecode(q) == Some([bs[0]] + bs[1..]);
      }
      assert [bs[0]] + bs[1..] == bs;
    }
  }

  /** Decoding the encoded text gives back the UTF-8 bytes of the input. */
  lemma DecodeQuote(s: string)
    ensures PercentDecode(Quote(s)) == Some(Utf8(s))
  {
    DecodeQuoteBytes(Utf8(s));
  }

  /** Distinct strings have distinct encodings, as far as their UTF-8
      encodings differ. */
  lemma QuoteInjective(s: string, t: string)
    requires Quote(s) == Quote(t)
    ensures Utf8(s) == Utf8(t)
  {
    DecodeQuote(s);
    DecodeQuote(t);
  }
}
