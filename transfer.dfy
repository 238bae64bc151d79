/** `faculty/datasets/transfer.py`: splitting an upload into parts, the S3
    part size, S3 part numbering and the GCS resumable-upload range headers.
    The content stream is a sequence of byte strings; the status of each
    PUT is an input, indexed by S3 part number or by GCS request index. */
module Transfer {
  import opened Wrappers
  import opened Strings
  import opened Bytes
  import opened Http
  import opened ObjectClient

  const KILOBYTE: nat := 1024
  const MEGABYTE: nat := 1024 * KILOBYTE
  const S3_MAX_CHUNKS: nat := 10000
  const DEFAULT_CHUNK_SIZE: nat := 5 * MEGABYTE

  // ---------------------------------------------------------------------------
  // Ceiling division
  // ---------------------------------------------------------------------------

  /** `math.ceil(n / d)`, on integers. */
  function CeilDiv(n: nat, d: nat): nat
    requires d > 0
  {
    (n + d - 1) / d
  }

  lemma MulMonotone(a: int, b: int, d: nat)
    requires a <= b
    ensures a * d <= b * d
  {
  }

  lemma CeilDivBounds(n: nat, d: nat)
    requires d > 0
    ensures CeilDiv(n, d) * d >= n
    ensures (CeilDiv(n, d) - 1) * d < n || n == 0
    ensures n == 0 ==> CeilDiv(n, d) == 0
  {
    var q, r := (n + d - 1) / d, (n + d - 1) % d;
    assert n + d - 1 == q * d + r && 0 <= r < d;
    assert (q - 1) * d == q * d - d;
  }

  /** The ceiling is the one `c` with `(c - 1) * d < n <= c * d`. */
  lemma CeilDivUnique(n: nat, d: nat, c: nat)
    requires d > 0
    requires (c - 1) * d < n <= c * d
    ensures CeilDiv(n, d) == c
  {
    var q := CeilDiv(n, d);
    CeilDivBounds(n, d);
    if q < c {
      MulMonotone(q, c - 1, d);
    } else if q > c {
      MulMonotone(c, q - 1, d);
    }
  }

  // ---------------------------------------------------------------------------
  // Re-chunking
  // ---------------------------------------------------------------------------

  /** The parts of `data`: full `cs`-byte parts and a final part of at most
      `cs` bytes, which is empty only for empty data. */
  function Chunks(data: Bytes, cs: nat): (r: seq<Bytes>)
    requires cs > 0
    ensures |r| >= 1
    decreases |data|
  {
    if |data| <= cs then [data] else [data[..cs]] + Chunks(data[cs..], cs)
  }

  /** `max(1, ceil(n / cs))`. */
  function ChunkCount(n: nat, cs: nat): nat
    requires cs > 0
  {
    if n == 0 then 1 else CeilDiv(n, cs)
  }

  lemma {:induction false} ChunksFlatten(data: Bytes, cs: nat)
    requires cs > 0
    ensures Flatten(Chunks(data, cs)) == data
    decreases |data|
  {
    if |data| <= cs {
      FlattenCons(data, []);
    } else {
      ChunksFlatten(data[cs..], cs);
      FlattenCons(data[..cs], Chunks(data[cs..], cs));
      assert data[..cs] + data[cs..] == data;
    }
  }

  /** Every part but the last has exactly `cs` bytes. */
  lemma {:induction false} ChunksFull(data: Bytes, cs: nat)
    requires cs > 0
    ensures forall i :: 0 <= i < |Chunks(data, cs)| - 1 ==> |Chunks(data, cs)[i]| == cs
    decreases |data|
  {
    if |data| > cs {
      var rest := Chunks(data[cs..], cs);
      ChunksFull(data[cs..], cs);
      var r := Chunks(data, cs);
      assert r == [data[..cs]] + rest;
      forall i | 0 <= i < |r| - 1 ensures |r[i]| == cs {
        if i > 0 {
          assert r[i] == rest[i - 1];
        }
      }
    }
  }

  /** The last part has at most `cs` bytes and is empty only for empty data. */
  lemma {:induction false} ChunksLast(data: Bytes, cs: nat)
    requires cs > 0
    ensures var r := Chunks(data, cs); |r[|r| - 1]| <= cs && (r[|r| - 1] == [] <==> data == [])
    decreases |data|
  {
    if |data| > cs {
      var rest := Chunks(data[cs..], cs);
      ChunksLast(data[cs..], cs);
      assert Chunks(data, cs)[|Chunks(data, cs)| - 1] == rest[|rest| - 1];
    }
  }

  /** The length of the data in terms of the number of parts. */
  lemma {:induction false} ChunksLength(data: Bytes, cs: nat)
    requires cs > 0
    ensures var r := Chunks(data, cs); |data| == (|r| - 1) * cs + |r[|r| - 1]|
    decreases |data|
  {
    if |data| > cs {
      var rest := Chunks(data[cs..], cs);
      ChunksLength(data[cs..], cs);
      var r := Chunks(data, cs);
      assert |r| == |rest| + 1;
      assert r[|r| - 1] == rest[|rest| - 1];
      assert (|r| - 1) * cs == cs + (|rest| - 1) * cs;
    }
  }

  lemma ChunksSizes(data: Bytes, cs: nat)
    requires cs > 0
    ensures var r := Chunks(data, cs);
      (forall i :: 0 <= i < |r| - 1 ==> |r[i]| == cs)
      && |r[|r| - 1]| <= cs
      && (r[|r| - 1] == [] <==> data == [])
      && |data| == (|r| - 1) * cs + |r[|r| - 1]|
  {
    ChunksFull(data, cs);
    ChunksLast(data, cs);
    ChunksLength(data, cs);
  }

  /** `_rechunk_data` yields `max(1, ceil(n / cs))` parts. */
  lemma ChunksCount(data: Bytes, cs: nat)
    requires cs > 0
    ensures |Chunks(data, cs)| == ChunkCount(|data|, cs)
  {
    var r := Chunks(data, cs);
    ChunksSizes(data, cs);
    if data != [] {
      var last := |r[|r| - 1]|;
      assert 0 < last <= cs;
      assert |r| * cs == (|r| - 1) * cs + cs;
      CeilDivUnique(|data|, cs, |r|);
    }
  }

  /** `5 * cs + 1` bytes give six parts, the last of one byte. */
  lemma ChunksFiveAndOne(data: Bytes, cs: nat)
    requires cs > 0 && |data| == 5 * cs + 1
    ensures |Chunks(data, cs)| == 6 && |Chunks(data, cs)[5]| == 1
  {
    ChunksCount(data, cs);
    CeilDivUnique(|data|, cs, 6);
    ChunksSizes(data, cs);
  }

  /** Full parts followed by a non-empty tail of at most `cs` bytes are
      exactly the parts of their concatenation. */
  lemma {:induction false} ChunksOfFull(full: seq<Bytes>, tail: Bytes, cs: nat)
    requires cs > 0
    requires forall i :: 0 <= i < |full| ==> |full[i]| == cs
    requires |tail| <= cs && (full == [] || tail != [])
    ensures Chunks(Flatten(full) + tail, cs) == full + [tail]
    decreases |full|
  {
    if full == [] {
      assert Flatten(full) + tail == tail;
    } else {
      var rest := full[1..];
      assert full == [full[0]] + rest;
      FlattenCons(full[0], rest);
      ChunksOfFull(rest, tail, cs);
      var all := Flatten(full) + tail;
      assert all == full[0] + (Flatten(rest) + tail);
      assert all[..cs] == full[0] && all[cs..] == Flatten(rest) + tail;
    }
  }

  /** A non-empty list of full parts is its own re-chunking. */
  lemma {:induction false} ChunksOfFullOnly(full: seq<Bytes>, cs: nat)
    requires cs > 0 && full != []
    requires forall i :: 0 <= i < |full| ==> |full[i]| == cs
    ensures Chunks(Flatten(full), cs) == full
    decreases |full|
  {
    var rest := full[1..];
    assert full == [full[0]] + rest;
    FlattenCons(full[0], rest);
    if rest == [] {
      assert Flatten(rest) == [];
      assert Flatten(full) == full[0];
    } else {
      ChunksOfFullOnly(rest, cs);
      FlattenLength(rest);
      FlattenLength(full);
      var all := Flatten(full);
      assert all[..cs] == full[0] && all[cs..] == Flatten(rest);
      assert |Flatten(rest)| > 0 by {
        ChunksSizes(Flatten(rest), cs);
      }
    }
  }

  /** Moving the first `take` bytes of the piece into the chunk keeps the
      bytes in order. */
  lemma MoveIntoChunk(done: seq<Bytes>, chunk: Bytes, original: Bytes, take: nat, target: Bytes)
    requires take <= |original| && Flatten(done) + chunk + original == target
    ensures Flatten(done) + (chunk + original[..take]) + original[take..] == target
  {
    assert original[..take] + original[take..] == original;
  }

  /** Yielding the chunk keeps the bytes in order. */
  lemma YieldChunk(done: seq<Bytes>, chunk: Bytes, original: Bytes, target: Bytes)
    requires Flatten(done) + chunk + original == target
    ensures Flatten(done + [chunk]) + [] + original == target
  {
    FlattenSnoc(done, chunk);
  }

  /** `_rechunk_data(content, chunk_size)`: the generator's output as a
      sequence. */
  method RechunkData(content: seq<Bytes>, chunkSize: nat) returns (chunks: seq<Bytes>)
    requires chunkSize > 0
    ensures chunks == Chunks(Flatten(content), chunkSize)
  {
    var chunk: Bytes := [];
    var hasYielded := false;
    chunks := [];
    for k := 0 to |content|
      invariant |chunk| < chunkSize
      invariant forall i :: 0 <= i < |chunks| ==> |chunks[i]| == chunkSize
      invariant hasYielded <==> chunks != []
      invariant Flatten(chunks) + chunk == Flatten(content[..k])
    {
      var original := content[k];
      FlattenSnoc(content[..k], content[k]);
      assert content[..k + 1] == content[..k] + [content[k]];
      while |original| > 0
        invariant |chunk| < chunkSize
        invariant forall i :: 0 <= i < |chunks| ==> |chunks[i]| == chunkSize
        invariant hasYielded <==> chunks != []
        invariant Flatten(chunks) + chunk + original == Flatten(content[..k + 1])
        decreases |original|
      {
        var remaining := chunkSize - |chunk|;
        var take := if remaining < |original| then remaining else |original|;
        MoveIntoChunk(chunks, chunk, original, take, Flatten(content[..k + 1]));
        chunk := chunk + original[..take];
        original := original[take..];
        if |chunk| >= chunkSize {
          YieldChunk(chunks, chunk, original, Flatten(content[..k + 1]));
          hasYielded := true;
          chunks := chunks + [chunk];
          chunk := [];
        }
      }
    }
    assert content[..|content|] == content;
    if !hasYielded || |chunk| > 0 {
      ChunksOfFull(chunks, chunk, chunkSize);
      chunks := chunks + [chunk];
    } else {
      assert Flatten(chunks) == Flatten(content);
      ChunksOfFullOnly(chunks, chunkSize);
    }
  }

  /** `_rechunk_and_label_as_last` after the chunks are produced: every
      chunk paired with whether it is the final one; an empty stream gives
      one empty final chunk. */
  method LabelAsLast(chunks: seq<Bytes>) returns (labelled: seq<(Bytes, bool)>)
    ensures chunks == [] ==> labelled == [([], true)]
    ensures chunks != [] ==>
      |labelled| == |chunks| && forall i :: 0 <= i < |chunks| ==> labelled[i] == (chunks[i], i == |chunks| - 1)
  {
    var current: Bytes := if chunks == [] then [] else chunks[0];
    var next := 1;
    labelled := [];
    while next < |chunks|
      invariant (chunks == [] && next == 1) || 1 <= next <= |chunks|
      invariant |labelled| == next - 1
      invariant forall i :: 0 <= i < next - 1 ==> labelled[i] == (chunks[i], false)
      invariant current == if chunks == [] then [] else chunks[next - 1]
    {
      labelled := labelled + [(current, false)];
      current := chunks[next];
      next := next + 1;
    }
    labelled := labelled + [(current, true)];
  }

  method RechunkAndLabelAsLast(content: seq<Bytes>, chunkSize: nat) returns (labelled: seq<(Bytes, bool)>)
    requires chunkSize > 0
    ensures var cs := Chunks(Flatten(content), chunkSize);
      |labelled| == |cs| && forall i :: 0 <= i < |cs| ==> labelled[i] == (cs[i], i == |cs| - 1)
  {
    var chunks := RechunkData(content, chunkSize);
    labelled := LabelAsLast(chunks);
  }

  // ---------------------------------------------------------------------------
  // Part size
  // ---------------------------------------------------------------------------

  function Max(a: nat, b: nat): nat { if a >= b then a else b }

  /** `_chunk_size(provider, known_file_size)`. */
  function ChunkSize(provider: CloudStorageProvider, knownFileSize: Option<nat>): (r: nat)
    ensures r >= DEFAULT_CHUNK_SIZE
    ensures knownFileSize.None? || provider != S3 ==> r == DEFAULT_CHUNK_SIZE
  {
    if knownFileSize.None? then DEFAULT_CHUNK_SIZE
    else if provider == S3 then Max(CeilDiv(knownFileSize.value, S3_MAX_CHUNKS), DEFAULT_CHUNK_SIZE)
    else DEFAULT_CHUNK_SIZE
  }

  lemma CountAtMostLimit(size: nat, q: nat, r: nat)
    requires r > 0 && q <= r && q * S3_MAX_CHUNKS >= size
    ensures ChunkCount(size, r) <= S3_MAX_CHUNKS
  {
    if size > 0 {
      var c := CeilDiv(size, r);
      CeilDivBounds(size, r);
      MulMonotone(q, r, S3_MAX_CHUNKS);
      assert (c - 1) * r < r * S3_MAX_CHUNKS;
      if c - 1 >= S3_MAX_CHUNKS {
        MulMonotone(S3_MAX_CHUNKS, c - 1, r);
      }
    }
  }

  /** For S3 with a known size the part size needs at most 10000 parts, and
      it is the smallest such size of at least 5 MiB. */
  lemma ChunkSizePartLimit(size: nat)
    ensures ChunkCount(size, ChunkSize(S3, Some(size))) <= S3_MAX_CHUNKS
    ensures var r := ChunkSize(S3, Some(size));
      r == DEFAULT_CHUNK_SIZE || ChunkCount(size, r - 1) > S3_MAX_CHUNKS
  {
    var q := CeilDiv(size, S3_MAX_CHUNKS);
    var r := ChunkSize(S3, Some(size));
    CeilDivBounds(size, S3_MAX_CHUNKS);
    CountAtMostLimit(size, q, r);
    if r != DEFAULT_CHUNK_SIZE {
      assert r == q && q > DEFAULT_CHUNK_SIZE && size > 0;
      var c := CeilDiv(size, q - 1);
      CeilDivBounds(size, q - 1);
      assert (q - 1) * S3_MAX_CHUNKS < size <= c * (q - 1);
      if c <= S3_MAX_CHUNKS {
        MulMonotone(c, S3_MAX_CHUNKS, q - 1);
      }
    }
  }

  /** An S3 upload of known size is split into at most 10000 parts. */
  lemma S3PartsWithinLimit(data: Bytes)
    ensures |Chunks(data, ChunkSize(S3, Some(|data|)))| <= S3_MAX_CHUNKS
  {
    ChunksCount(data, ChunkSize(S3, Some(|data|)));
    ChunkSizePartLimit(|data|);
  }

  // ---------------------------------------------------------------------------
  // S3 multipart upload
  // ---------------------------------------------------------------------------

  /** The completed parts of the first `n` uploads: numbers 1..n with the
      ETag each response carried. */
  function Parts(n: nat, etagOf: nat -> string): (r: seq<CompletedUploadPart>)
    ensures |r| == n
    ensures forall i :: 0 <= i < n ==> r[i].partNumber == i + 1
  {
    seq(n, i requires 0 <= i < n => CompletedUploadPart(i + 1, etagOf(i + 1)))
  }

  /** `_s3_upload`: part `n` (from 1) is the `n`-th chunk and its PUT answers
      `putStatus(n)` with ETag `etagOf(n)`; a status that raises stops the
      upload, otherwise completion is requested with every part in order.
      `sent` lists the parts PUT. */
  method S3Upload(content: seq<Bytes>, chunkSize: nat, putStatus: nat -> int, etagOf: nat -> string)
    returns (sent: seq<(nat, Bytes)>, r: Result<seq<CompletedUploadPart>, int>)
    requires chunkSize > 0
    ensures var cs := Chunks(Flatten(content), chunkSize);
      |sent| <= |cs| && (forall i :: 0 <= i < |sent| ==> sent[i] == (i + 1, cs[i]))
      && (r.Ok? <==> forall n :: 1 <= n <= |cs| ==> !RaisesForStatus(putStatus(n)))
      && (r.Ok? ==> |sent| == |cs| && r.value == Parts(|cs|, etagOf))
      && (r.Err? ==> |sent| >= 1 && r.error == putStatus(|sent|) && RaisesForStatus(r.error)
                     && forall n :: 1 <= n < |sent| ==> !RaisesForStatus(putStatus(n)))
  {
    var chunks := RechunkData(content, chunkSize);
    sent := [];
    var completed: seq<CompletedUploadPart> := [];
    for i := 0 to |chunks|
      invariant |sent| == i && completed == Parts(i, etagOf)
      invariant forall j :: 0 <= j < i ==> sent[j] == (j + 1, chunks[j])
      invariant forall n :: 1 <= n <= i ==> !RaisesForStatus(putStatus(n))
    {
      var partNumber := i + 1;
      sent := sent + [(partNumber, chunks[i])];
      var status := putStatus(partNumber);
      if RaisesForStatus(status) {
        return sent, Err(status);
      }
      completed := completed + [CompletedUploadPart(partNumber, etagOf(partNumber))];
      assert completed == Parts(i + 1, etagOf);
    }
    r := Ok(completed);
  }

  // ---------------------------------------------------------------------------
  // GCS resumable upload
  // ---------------------------------------------------------------------------

  /** The complete length of a `Content-Range`: `*` while unknown. */
  datatype Total = Star | Size(n: nat)

  /** `bytes first-last/total`, section 4.2 of RFC 7233. */
  datatype ContentRange = ContentRange(first: nat, last: nat, total: Total)

  datatype ChunkHeaders = ChunkHeaders(contentLength: nat, contentRange: Option<ContentRange>)

  /** `_gcs_upload_chunk`'s headers: the range is omitted only for an empty
      chunk at offset 0. */
  function GcsChunkHeaders(content: Bytes, startIndex: nat, total: Total): (h: ChunkHeaders)
    ensures h.contentLength == |content|
    ensures h.contentRange.Some? <==> startIndex != 0 || content != []
    ensures h.contentRange.Some? ==>
      h.contentRange.value.first == startIndex && h.contentRange.value.last + 1 == startIndex + |content|
      && h.contentRange.value.total == total
  {
    if startIndex != 0 || content != [] then
      ChunkHeaders(|content|, Some(ContentRange(startIndex, startIndex + |content| - 1, total)))
    else ChunkHeaders(|content|, None)
  }

  function TotalText(t: Total): string {
    if t.Star? then "*" else NatToString(t.n)
  }

  /** The `Content-Range` header value. */
  function ContentRangeText(r: ContentRange): string {
    "bytes " + NatToString(r.first) + "-" + NatToString(r.last) + "/" + TotalText(r.total)
  }

  /** The headers as sent. */
  function HeaderMap(h: ChunkHeaders): (m: map<string, string>)
    ensures "Content-Length" in m && m["Content-Length"] == NatToString(h.contentLength)
    ensures "Content-Range" in m <==> h.contentRange.Some?
  {
    var base := map["Content-Length" := NatToString(h.contentLength)];
    if h.contentRange.Some? then base["Content-Range" := ContentRangeText(h.contentRange.value)] else base
  }

  function ParseNat(s: string): Option<nat> {
    if s != "" && AllDigits(s) then Some(DigitsValue(s)) else None
  }

  function ParseTotal(s: string): Option<Total> {
    if s == "*" then Some(Star)
    else match ParseNat(s)
      case None => None
      case Some(n) => Some(Size(n))
  }

  /** Reading a `Content-Range` value back. */
  function ParseContentRange(s: string): Option<ContentRange> {
    if |s| < 6 || s[..6] != "bytes " then None
    else
      var dash := Split(s[6..], '-');
      if |dash| != 2 then None
      else
        var slash := Split(dash[1], '/');
        if |slash| != 2 then None
        else
          match (ParseNat(dash[0]), ParseNat(slash[0]), ParseTotal(slash[1]))
          case (Some(first), Some(last), Some(total)) => Some(ContentRange(first, last, total))
          case _ => None
  }

  lemma DigitsFree(n: nat, c: char)
    requires !IsDigit(c)
    ensures c !in NatToString(n)
  {
  }

  lemma ParseNatText(n: nat)
    ensures ParseNat(NatToString(n)) == Some(n)
  {
    NatToStringValue(n);
  }

  lemma ParseTotalText(t: Total)
    ensures ParseTotal(TotalText(t)) == Some(t)
    ensures '-' !in TotalText(t) && '/' !in TotalText(t)
  {
    if t.Size? {
      var text := NatToString(t.n);
      ParseNatText(t.n);
      DigitsFree(t.n, '-');
      DigitsFree(t.n, '/');
      assert text != "*" by { assert IsDigit(text[0]); }
    }
  }

  /** Two separator-free pieces around one separator split back apart. */
  lemma SplitTwo(a: string, c: char, b: string)
    requires c !in a && c !in b
    ensures Split(a + [c] + b, c) == [a, b]
  {
    SplitAfterPiece(a, c, b);
    SplitNoSeparator(b, c);
  }

  /** The header value reads back as the range it was written from. */
  lemma ParseContentRangeText(r: ContentRange)
    ensures ParseContentRange(ContentRangeText(r)) == Some(r)
  {
    var a, b, t := NatToString(r.first), NatToString(r.last), TotalText(r.total);
    var tail := b + ['/'] + t;
    var body := a + ['-'] + tail;
    var s := ContentRangeText(r);
    assert s == "bytes " + body;
    assert s[..6] == "bytes " && s[6..] == body;
    DigitsFree(r.first, '-');
    DigitsFree(r.last, '-');
    DigitsFree(r.last, '/');
    ParseTotalText(r.total);
    SplitTwo(b, '/', t);
    SplitTwo(a, '-', tail);
    ParseNatText(r.first);
    ParseNatText(r.last);
  }

  /** The headers of request `i` when `_gcs_upload` sends `chunks`: the
      offset is the length of the chunks before it, and only the last
      request states the complete length. */
  function GcsHeader(chunks: seq<Bytes>, i: nat): ChunkHeaders
    requires i < |chunks|
  {
    GcsChunkHeaders(chunks[i], TotalLength(chunks[..i]), if i == |chunks| - 1 then Size(TotalLength(chunks)) else Star)
  }

  lemma ChunksTotalLength(data: Bytes, cs: nat)
    requires cs > 0
    ensures TotalLength(Chunks(data, cs)) == |data|
  {
    ChunksFlatten(data, cs);
    FlattenLength(Chunks(data, cs));
  }

  lemma {:induction false} TotalLengthFull(pieces: seq<Bytes>, cs: nat, k: nat)
    requires k <= |pieces|
    requires forall i :: 0 <= i < k ==> |pieces[i]| == cs
    ensures TotalLength(pieces[..k]) == k * cs
    decreases k
  {
    if k > 0 {
      assert pieces[..k][..k - 1] == pieces[..k - 1];
      TotalLengthFull(pieces, cs, k - 1);
    }
  }

  lemma TotalLengthStep(pieces: seq<Bytes>, i: nat)
    requires i < |pieces|
    ensures TotalLength(pieces[..i + 1]) == TotalLength(pieces[..i]) + |pieces[i]|
  {
    assert pieces[..i + 1][..i] == pieces[..i];
  }

  /** The range of a request before the last one. */
  lemma GcsRangeFull(data: Bytes, chunkSize: nat, i: nat)
    requires chunkSize > 0 && i < |Chunks(data, chunkSize)| - 1
    ensures var h := GcsHeader(Chunks(data, chunkSize), i);
      h.contentRange.Some? && h.contentRange.value.total == Star
      && h.contentRange.value.first == i * chunkSize
      && h.contentRange.value.last + 1 == (i + 1) * chunkSize
      && h.contentRange.value.last < |data|
  {
    var cs := Chunks(data, chunkSize);
    var n := |cs|;
    ChunksFull(data, chunkSize);
    ChunksLength(data, chunkSize);
    TotalLengthFull(cs, chunkSize, i);
    assert |cs[i]| == chunkSize;
    MulMonotone(i + 1, n - 1, chunkSize);
  }

  /** The range of the last request of non-empty data. */
  lemma GcsRangeLast(data: Bytes, chunkSize: nat)
    requires chunkSize > 0 && data != []
    ensures var cs := Chunks(data, chunkSize);
      var h := GcsHeader(cs, |cs| - 1);
      h.contentRange.Some? && h.contentRange.value.total == Size(|data|)
      && h.contentRange.value.first == (|cs| - 1) * chunkSize
      && h.contentRange.value.first <= h.contentRange.value.last == |data| - 1
  {
    var cs := Chunks(data, chunkSize);
    var n := |cs|;
    ChunksFull(data, chunkSize);
    ChunksLast(data, chunkSize);
    ChunksTotalLength(data, chunkSize);
    TotalLengthFull(cs, chunkSize, n - 1);
    TotalLengthStep(cs, n - 1);
    assert cs[..n] == cs;
  }

  /** The range of request `i` for non-empty data. */
  lemma GcsRangeAt(data: Bytes, chunkSize: nat, i: nat)
    requires chunkSize > 0 && data != [] && i < |Chunks(data, chunkSize)|
    ensures var cs := Chunks(data, chunkSize);
      var h := GcsHeader(cs, i);
      h.contentRange.Some?
      && h.contentRange.value.first == i * chunkSize
      && h.contentRange.value.first <= h.contentRange.value.last < |data|
      && (i < |cs| - 1 ==> h.contentRange.value.total == Star && h.contentRange.value.last + 1 == (i + 1) * chunkSize)
      && (i == |cs| - 1 ==> h.contentRange.value.total == Size(|data|) && h.contentRange.value.last == |data| - 1)
  {
    if i < |Chunks(data, chunkSize)| - 1 {
      GcsRangeFull(data, chunkSize, i);
    } else {
      GcsRangeLast(data, chunkSize);
    }
  }

  /** Empty data is sent as one request without a range. */
  lemma GcsEmptyData(data: Bytes, chunkSize: nat)
    requires chunkSize > 0 && data == []
    ensures |Chunks(data, chunkSize)| == 1 && GcsHeader(Chunks(data, chunkSize), 0) == ChunkHeaders(0, None)
  {
  }

  /** For non-empty data the ranges tile it: each is a valid range of its
      chunk, the first starts at 0, each starts right after the previous one
      and only the last, which ends at the final byte, carries the complete
      length. */
  lemma GcsRangesTile(data: Bytes, chunkSize: nat)
    requires chunkSize > 0 && data != []
    ensures var cs := Chunks(data, chunkSize);
      (forall i :: 0 <= i < |cs| ==>
         GcsHeader(cs, i).contentRange.Some?
         && GcsHeader(cs, i).contentRange.value.first == i * chunkSize
         && GcsHeader(cs, i).contentRange.value.first <= GcsHeader(cs, i).contentRange.value.last < |data|)
      && (forall i :: 0 <= i < |cs| - 1 ==>
            GcsHeader(cs, i).contentRange.value.last + 1 == GcsHeader(cs, i + 1).contentRange.value.first
            && GcsHeader(cs, i).contentRange.value.total == Star)
      && GcsHeader(cs, |cs| - 1).contentRange.value.last == |data| - 1
      && GcsHeader(cs, |cs| - 1).contentRange.value.total == Size(|data|)
  {
    var cs := Chunks(data, chunkSize);
    forall i | 0 <= i < |cs|
      ensures GcsHeader(cs, i).contentRange.Some?
      ensures GcsHeader(cs, i).contentRange.value.first == i * chunkSize
      ensures GcsHeader(cs, i).contentRange.value.first <= GcsHeader(cs, i).contentRange.value.last < |data|
    {
      GcsRangeAt(data, chunkSize, i);
    }
    forall i | 0 <= i < |cs| - 1
      ensures GcsHeader(cs, i).contentRange.value.last + 1 == GcsHeader(cs, i + 1).contentRange.value.first
      ensures GcsHeader(cs, i).contentRange.value.total == Star
    {
      GcsRangeAt(data, chunkSize, i);
      GcsRangeAt(data, chunkSize, i + 1);
    }
    GcsRangeAt(data, chunkSize, |cs| - 1);
  }

  /** Every request `_gcs_upload` makes when nothing fails: each chunk with
      its headers. */
  function GcsRequests(chunks: seq<Bytes>): (r: seq<(Bytes, ChunkHeaders)>)
    ensures |r| == |chunks|
  {
    seq(|chunks|, i requires 0 <= i < |chunks| => (chunks[i], GcsHeader(chunks, i)))
  }

  /** One request of `_gcs_upload`: the running offset and the complete
      length computed from it give `GcsHeader`. */
  lemma GcsStep(chunks: seq<Bytes>, i: nat, start: nat)
    requires i < |chunks| && start == TotalLength(chunks[..i])
    ensures TotalLength(chunks[..i + 1]) == start + |chunks[i]|
    ensures GcsHeader(chunks, i)
      == GcsChunkHeaders(chunks[i], start, if i == |chunks| - 1 then Size(start + |chunks[i]|) else Star)
  {
    TotalLengthStep(chunks, i);
    if i == |chunks| - 1 {
      assert chunks[..i + 1] == chunks;
    }
  }

  /** The loop of `_gcs_upload` over the labelled chunks of `chunks`: one
      PUT per chunk, each at the running offset, with the complete length
      only on the last; request `i` answers `putStatus(i)`, and a status
      that raises stops the upload. */
  method GcsSend(ghost chunks: seq<Bytes>, labelled: seq<(Bytes, bool)>, putStatus: nat -> int)
    returns (requests: seq<(Bytes, ChunkHeaders)>, ok: bool)
    requires |labelled| == |chunks| >= 1
    requires forall i :: 0 <= i < |chunks| ==> labelled[i] == (chunks[i], i == |chunks| - 1)
    ensures 1 <= |requests| <= |chunks|
    ensures requests == GcsRequests(chunks)[..|requests|]
    ensures ok <==> forall i :: 0 <= i < |chunks| ==> !RaisesForStatus(putStatus(i))
    ensures ok ==> |requests| == |chunks|
    ensures !ok ==>
      RaisesForStatus(putStatus(|requests| - 1)) && forall i :: 0 <= i < |requests| - 1 ==> !RaisesForStatus(putStatus(i))
  {
    ghost var all := GcsRequests(chunks);
    var startIndex: nat := 0;
    requests := [];
    for i := 0 to |labelled|
      invariant requests == all[..i]
      invariant startIndex == TotalLength(chunks[..i])
      invariant forall j :: 0 <= j < i ==> !RaisesForStatus(putStatus(j))
    {
      var chunk, isLast := labelled[i].0, labelled[i].1;
      var total := if isLast then Size(startIndex + |chunk|) else Star;
      var headers := GcsChunkHeaders(chunk, startIndex, total);
      GcsStep(chunks, i, startIndex);
      assert all[i] == (chunk, headers);
      assert all[..i + 1] == all[..i] + [all[i]];
      requests := requests + [(chunk, headers)];
      if RaisesForStatus(putStatus(i)) {
        return requests, false;
      }
      startIndex := startIndex + |chunk|;
    }
    ok := true;
  }

  /** `_gcs_upload`: the content re-chunked and labelled, then sent. */
  method GcsUpload(content: seq<Bytes>, chunkSize: nat, putStatus: nat -> int)
    returns (requests: seq<(Bytes, ChunkHeaders)>, ok: bool)
    requires chunkSize > 0
    ensures var cs := Chunks(Flatten(content), chunkSize);
      1 <= |requests| <= |cs|
      && requests == GcsRequests(cs)[..|requests|]
      && (ok <==> forall i :: 0 <= i < |cs| ==> !RaisesForStatus(putStatus(i)))
      && (ok ==> |requests| == |cs|)
      && (!ok ==> RaisesForStatus(putStatus(|requests| - 1))
                  && forall i :: 0 <= i < |requests| - 1 ==> !RaisesForStatus(putStatus(i)))
  {
    var labelled := RechunkAndLabelAsLast(content, chunkSize);
    requests, ok := GcsSend(Chunks(Flatten(content), chunkSize), labelled, putStatus);
  }

  // ---------------------------------------------------------------------------
  // Dispatch
  // ---------------------------------------------------------------------------

  datatype UploadOutcome =
    | S3Outcome(sent: seq<(nat, Bytes)>, result: Result<seq<CompletedUploadPart>, int>)
    | GcsOutcome(requests: seq<(Bytes, ChunkHeaders)>, ok: bool)

  /** `_upload_stream` after `presign_upload`: the provider picks the part
      size and the protocol. */
  method UploadStream(provider: CloudStorageProvider, content: seq<Bytes>, knownFileSize: Option<nat>,
                      putStatus: nat -> int, etagOf: nat -> string)
    returns (outcome: UploadOutcome)
    ensures var cs := Chunks(Flatten(content), ChunkSize(provider, knownFileSize));
      (provider == S3 <==> outcome.S3Outcome?)
      && (outcome.S3Outcome? ==>
            var sent, r := outcome.sent, outcome.result;
            |sent| <= |cs| && (forall i :: 0 <= i < |sent| ==> sent[i] == (i + 1, cs[i]))
            && (r.Ok? <==> forall n :: 1 <= n <= |cs| ==> !RaisesForStatus(putStatus(n)))
            && (r.Ok? ==> |sent| == |cs| && r.value == Parts(|cs|, etagOf))
            && (r.Err? ==> |sent| >= 1 && r.error == putStatus(|sent|) && RaisesForStatus(r.error)
                           && forall n :: 1 <= n < |sent| ==> !RaisesForStatus(putStatus(n))))
      && (outcome.GcsOutcome? ==>
            var requests, ok := outcome.requests, outcome.ok;
            1 <= |requests| <= |cs|
            && requests == GcsRequests(cs)[..|requests|]
            && (ok <==> forall i :: 0 <= i < |cs| ==> !RaisesForStatus(putStatus(i)))
            && (ok ==> |requests| == |cs|)
            && (!ok ==> RaisesForStatus(putStatus(|requests| - 1))
                        && forall i :: 0 <= i < |requests| - 1 ==> !RaisesForStatus(putStatus(i))))
      && (provider == GCS ==> knownFileSize.None? || ChunkSize(provider, knownFileSize) == DEFAULT_CHUNK_SIZE)
  {
    var chunkSize := ChunkSize(provider, knownFileSize);
    if provider == S3 {
      var sent, result := S3Upload(content, chunkSize, putStatus, etagOf);
      outcome := S3Outcome(sent, result);
    } else {
      var requests, ok := GcsUpload(content, chunkSize, putStatus);
      outcome := GcsOutcome(requests, ok);
    }
  }
}
