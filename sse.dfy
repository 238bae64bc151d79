/** Server-sent event streams as the CLI's `FacultyService._stream`
    (`faculty/cli/client.py`) and `ServerAgentClient._stream`
    (`faculty/clients/server_agent.py`) read them: a simplified form of the
    event-stream framing of section 9.2.6 of the WHATWG HTML Living
    Standard. Lines are grouped into messages at each blank line, and each
    group's `id:`, `event:` and `data:` lines make one message. Decoding
    the data text (`json.loads`) is a parameter. */
module ServerSentEvents {
  import opened Wrappers
  import opened Strings
  import opened Json
  import CliParse

  // ---------------------------------------------------------------------------
  // from_lines
  // ---------------------------------------------------------------------------

  /** A message as `ServerSentEventMessage.from_lines` builds it. */
  datatype RawMessage = RawMessage(id: Option<int>, event: Option<string>, data: Json)

  /** What a line of a message is, by its prefix, with its stripped value. */
  datatype Line = IdLine(value: string) | EventLine(value: string) | DataLine(value: string) | OtherLine

  function Classify(line: string): Line {
    if StartsWith(line, "id:") then IdLine(StripSpace(line[3..]))
    else if StartsWith(line, "event:") then EventLine(StripSpace(line[6..]))
    else if StartsWith(line, "data:") then DataLine(StripSpace(line[5..]))
    else OtherLine
  }

  function UnexpectedLine(line: string): string { "unexpected sse line: " + line }

  /** The `ValueError` of `int(text)`. */
  function InvalidInt(text: string): string { "invalid literal for int() with base 10: " + text }

  /** The `ValueError` of `json.loads` on text that is not JSON. */
  const InvalidJson := "data lines are not a JSON document"

  /** The error a line raises, if any: an unknown prefix, or an id that is
      not an integer. */
  function LineError(line: string): Option<string> {
    match Classify(line)
    case IdLine(t) => if CliParse.PyInt(t).None? then Some(InvalidInt(t)) else None
    case OtherLine => Some(UnexpectedLine(line))
    case _ => None
  }

  predicate IsIdLine(line: string) { Classify(line).IdLine? }

  predicate IsEventLine(line: string) { Classify(line).EventLine? }

  function DataValue(line: string): Option<string> {
    match Classify(line) case DataLine(t) => Some(t) case _ => None
  }

  // Three folds over a sequence, with what they compute proved once for
  // any element test.

  /** The first `f(x)` that is present. */
  function FirstSome<T, E>(xs: seq<T>, f: T -> Option<E>): Option<E>
    decreases |xs|
  {
    if |xs| == 0 then None
    else if FirstSome(xs[..|xs| - 1], f).Some? then FirstSome(xs[..|xs| - 1], f)
    else f(xs[|xs| - 1])
  }

  /** The last element that passes `p`. */
  function LastWhere<T>(xs: seq<T>, p: T -> bool): (r: Option<T>)
    ensures r.Some? ==> p(r.value)
    decreases |xs|
  {
    if |xs| == 0 then None
    else if p(xs[|xs| - 1]) then Some(xs[|xs| - 1])
    else LastWhere(xs[..|xs| - 1], p)
  }

  /** The present values `f(x)`, in order. */
  function Collect<T, U>(xs: seq<T>, f: T -> Option<U>): seq<U>
    decreases |xs|
  {
    if |xs| == 0 then []
    else Collect(xs[..|xs| - 1], f) + (if f(xs[|xs| - 1]).Some? then [f(xs[|xs| - 1]).value] else [])
  }

  lemma FoldStep<T, E, U>(xs: seq<T>, i: nat, f: T -> Option<E>, p: T -> bool, g: T -> Option<U>)
    requires i < |xs|
    ensures FirstSome(xs[..i + 1], f) == if FirstSome(xs[..i], f).Some? then FirstSome(xs[..i], f) else f(xs[i])
    ensures LastWhere(xs[..i + 1], p) == if p(xs[i]) then Some(xs[i]) else LastWhere(xs[..i], p)
    ensures Collect(xs[..i + 1], g) == Collect(xs[..i], g) + if g(xs[i]).Some? then [g(xs[i]).value] else []
  {
    var q := xs[..i + 1];
    assert q[..|q| - 1] == xs[..i] && q[|q| - 1] == xs[i];
  }

  /** Once a prefix has a first value, every longer prefix has the same. */
  lemma {:induction false} FirstSomeExtends<T, E>(xs: seq<T>, k: nat, f: T -> Option<E>)
    requires k <= |xs| && FirstSome(xs[..k], f).Some?
    ensures FirstSome(xs, f) == FirstSome(xs[..k], f)
    decreases |xs| - k
  {
    if k < |xs| {
      assert xs[..k + 1][..k] == xs[..k];
      FirstSomeExtends(xs, k + 1, f);
    } else {
      assert xs[..k] == xs;
    }
  }

  lemma {:induction false} FirstSomeNone<T, E>(xs: seq<T>, f: T -> Option<E>)
    ensures FirstSome(xs, f).None? <==> forall k | 0 <= k < |xs| :: f(xs[k]).None?
    decreases |xs|
  {
    if |xs| > 0 {
      var init := xs[..|xs| - 1];
      FirstSomeNone(init, f);
      assert forall j | 0 <= j < |init| :: init[j] == xs[j];
    }
  }

  lemma {:induction false} FirstSomeIsFirst<T, E>(xs: seq<T>, f: T -> Option<E>)
    ensures FirstSome(xs, f).Some? ==>
      exists k | 0 <= k < |xs| :: f(xs[k]) == FirstSome(xs, f) && forall j | 0 <= j < k :: f(xs[j]).None?
    decreases |xs|
  {
    if |xs| > 0 && FirstSome(xs, f).Some? {
      var init := xs[..|xs| - 1];
      if FirstSome(init, f).Some? {
        FirstSomeIsFirst(init, f);
        var k :| 0 <= k < |init| && f(init[k]) == FirstSome(init, f) && forall j | 0 <= j < k :: f(init[j]).None?;
        assert forall j | 0 <= j <= k :: init[j] == xs[j];
      } else {
        FirstSomeNone(init, f);
        assert forall j | 0 <= j < |init| :: init[j] == xs[j];
      }
    }
  }

  lemma {:induction false} LastWhereNone<T>(xs: seq<T>, p: T -> bool)
    requires forall k | 0 <= k < |xs| :: !p(xs[k])
    ensures LastWhere(xs, p).None?
    decreases |xs|
  {
    if |xs| > 0 {
      var init := xs[..|xs| - 1];
      assert forall j | 0 <= j < |init| :: init[j] == xs[j];
      LastWhereNone(init, p);
    }
  }

  lemma {:induction false} LastWhereAt<T>(xs: seq<T>, p: T -> bool, k: nat)
    requires k < |xs| && p(xs[k]) && forall j | k < j < |xs| :: !p(xs[j])
    ensures LastWhere(xs, p) == Some(xs[k])
    decreases |xs|
  {
    if k < |xs| - 1 {
      var init := xs[..|xs| - 1];
      assert forall j | 0 <= j < |init| :: init[j] == xs[j];
      LastWhereAt(init, p, k);
    }
  }

  lemma {:induction false} CollectAppend<T, U>(a: seq<T>, b: seq<T>, f: T -> Option<U>)
    ensures Collect(a + b, f) == Collect(a, f) + Collect(b, f)
    decreases |b|
  {
    if |b| == 0 {
      assert a + b == a;
    } else {
      var b' := b[..|b| - 1];
      assert (a + b)[..|a + b| - 1] == a + b';
      CollectAppend(a, b', f);
    }
  }

  /** The error of the first line that raises one. */
  function FirstError(lines: seq<string>): Option<string> {
    FirstSome(lines, LineError)
  }

  /** The value of the last `id:` line. */
  function LastId(lines: seq<string>): Option<int> {
    match LastWhere(lines, IsIdLine)
    case None => None
    case Some(line) => CliParse.PyInt(Classify(line).value)
  }

  /** The value of the last `event:` line. */
  function LastEvent(lines: seq<string>): Option<string> {
    match LastWhere(lines, IsEventLine)
    case None => None
    case Some(line) => Some(Classify(line).value)
  }

  /** The values of the `data:` lines, in order. */
  function DataValues(lines: seq<string>): seq<string> {
    Collect(lines, DataValue)
  }

  /** Reference definition of `from_lines`: the first line error, else the
      data text decoded, with the last id and event. */
  function ParseMessage(lines: seq<string>, decode: string -> Option<Json>): Result<RawMessage, string> {
    if FirstError(lines).Some? then Err(FirstError(lines).value)
    else match decode(JoinWith(DataValues(lines), "\n"))
      case None => Err(InvalidJson)
      case Some(d) => Ok(RawMessage(LastId(lines), LastEvent(lines), d))
  }

  /** `from_lines(lines)`: the loop over the lines, then `json.loads` of the
      data lines joined by newlines. */
  method FromLines(lines: seq<string>, decode: string -> Option<Json>) returns (r: Result<RawMessage, string>)
    ensures r == ParseMessage(lines, decode)
  {
    var id: Option<int> := None;
    var event: Option<string> := None;
    var dataLines: seq<string> := [];
    for i := 0 to |lines|
      invariant FirstError(lines[..i]).None?
      invariant id == LastId(lines[..i]) && event == LastEvent(lines[..i])
      invariant dataLines == DataValues(lines[..i])
    {
      var line := lines[i];
      FoldStep(lines, i, LineError, IsIdLine, DataValue);
      FoldStep(lines, i, LineError, IsEventLine, DataValue);
      if StartsWith(line, "id:") {
        var n := CliParse.PyInt(StripSpace(line[3..]));
        if n.None? {
          FirstSomeExtends(lines, i + 1, LineError);
          return Err(InvalidInt(StripSpace(line[3..])));
        }
        id := n;
      } else if StartsWith(line, "event:") {
        event := Some(StripSpace(line[6..]));
      } else if StartsWith(line, "data:") {
        dataLines := dataLines + [StripSpace(line[5..])];
      } else {
        FirstSomeExtends(lines, i + 1, LineError);
        return Err(UnexpectedLine(line));
      }
    }
    assert lines[..|lines|] == lines;
    var data := decode(JoinWith(dataLines, "\n"));
    if data.None? {
      return Err(InvalidJson);
    }
    r := Ok(RawMessage(id, event, data.value));
  }

  /** A message fails on its lines exactly when one of them raises, and the
      error is that of the first one that does. */
  lemma FirstErrorIsFirst(lines: seq<string>)
    ensures FirstError(lines).None? <==> forall k | 0 <= k < |lines| :: LineError(lines[k]).None?
    ensures FirstError(lines).Some? ==>
      exists k | 0 <= k < |lines| ::
        LineError(lines[k]) == FirstError(lines) && forall j | 0 <= j < k :: LineError(lines[j]).None?
  {
    FirstSomeNone(lines, LineError);
    FirstSomeIsFirst(lines, LineError);
  }

  /** A later `id:` line overwrites an earlier one: the id is that of the
      last `id:` line, and there is none without one. */
  lemma LastIdNone(lines: seq<string>)
    requires forall k | 0 <= k < |lines| :: !IsIdLine(lines[k])
    ensures LastId(lines).None?
  {
    LastWhereNone(lines, IsIdLine);
  }

  lemma LastIdIsLast(lines: seq<string>, k: nat)
    requires k < |lines| && IsIdLine(lines[k]) && forall j | k < j < |lines| :: !IsIdLine(lines[j])
    ensures LastId(lines) == CliParse.PyInt(Classify(lines[k]).value)
  {
    LastWhereAt(lines, IsIdLine, k);
  }

  /** A later `event:` line overwrites an earlier one. */
  lemma LastEventNone(lines: seq<string>)
    requires forall k | 0 <= k < |lines| :: !IsEventLine(lines[k])
    ensures LastEvent(lines).None?
  {
    LastWhereNone(lines, IsEventLine);
  }

  lemma LastEventIsLast(lines: seq<string>, k: nat)
    requires k < |lines| && IsEventLine(lines[k]) && forall j | k < j < |lines| :: !IsEventLine(lines[j])
    ensures LastEvent(lines) == Some(Classify(lines[k]).value)
  {
    LastWhereAt(lines, IsEventLine, k);
  }

  /** The data values keep the order of the lines: those of `a + b` are
      those of `a` followed by those of `b`, and a `data:` line gives its
      stripped value. */
  lemma DataValuesAppend(a: seq<string>, b: seq<string>)
    ensures DataValues(a + b) == DataValues(a) + DataValues(b)
  {
    CollectAppend(a, b, DataValue);
  }

  lemma DataValuesOne(line: string)
    requires StartsWith(line, "data:") && !StartsWith(line, "id:") && !StartsWith(line, "event:")
    ensures DataValues([line]) == [StripSpace(line[5..])]
  {
    assert DataValue(line) == Some(StripSpace(line[5..]));
    FoldStep([line], 0, LineError, IsIdLine, DataValue);
    assert [line][..0] == [] && [line][..1] == [line];
  }

  // ---------------------------------------------------------------------------
  // The stream: grouping lines into messages
  // ---------------------------------------------------------------------------

  predicate Blank(line: string) { StripSpace(line) == "" }

  /** The groups closed by blank lines so far, and the lines buffered since
      the last blank line. */
  datatype Framing = Framing(groups: seq<seq<string>>, pending: seq<string>)

  /** Reference definition of the `buf` loop of `sse_stream_iterator`. */
  function Frame(lines: seq<string>): Framing
    decreases |lines|
  {
    if |lines| == 0 then Framing([], [])
    else
      var f := Frame(lines[..|lines| - 1]);
      var line := lines[|lines| - 1];
      if Blank(line) then Framing(f.groups + [f.pending], []) else Framing(f.groups, f.pending + [line])
  }

  function Concat(gs: seq<seq<string>>): seq<string>
    decreases |gs|
  {
    if |gs| == 0 then [] else Concat(gs[..|gs| - 1]) + gs[|gs| - 1]
  }

  /** The non-blank lines, in order. */
  function NonBlank(lines: seq<string>): seq<string>
    decreases |lines|
  {
    if |lines| == 0 then []
    else NonBlank(lines[..|lines| - 1]) + (if Blank(lines[|lines| - 1]) then [] else [lines[|lines| - 1]])
  }

  function CountBlank(lines: seq<string>): nat
    decreases |lines|
  {
    if |lines| == 0 then 0 else CountBlank(lines[..|lines| - 1]) + (if Blank(lines[|lines| - 1]) then 1 else 0)
  }

  /** Grouping loses no line and invents none: the groups followed by the
      buffer are the non-blank lines in order, there is one group per blank
      line, and no group holds a blank line. The buffered lines after the
      last blank line belong to no message. */
  lemma {:induction false} FrameSpec(lines: seq<string>)
    ensures Concat(Frame(lines).groups) + Frame(lines).pending == NonBlank(lines)
    ensures |Frame(lines).groups| == CountBlank(lines)
    ensures forall g, j | 0 <= g < |Frame(lines).groups| && 0 <= j < |Frame(lines).groups[g]| ::
      !Blank(Frame(lines).groups[g][j])
    ensures forall j | 0 <= j < |Frame(lines).pending| :: !Blank(Frame(lines).pending[j])
    decreases |lines|
  {
    if |lines| > 0 {
      var init := lines[..|lines| - 1];
      FrameSpec(init);
      var f := Frame(init);
      if Blank(lines[|lines| - 1]) {
        assert (f.groups + [f.pending])[..|f.groups|] == f.groups;
        assert Concat(f.groups + [f.pending]) == Concat(f.groups) + f.pending;
      } else {
        assert Concat(f.groups) + (f.pending + [lines[|lines| - 1]]) == Concat(f.groups) + f.pending + [lines[|lines| - 1]];
      }
    }
  }

  /** The groups of a prefix are a prefix of the groups. */
  lemma {:induction false} FramePrefix(lines: seq<string>, k: nat)
    requires k <= |lines|
    ensures Frame(lines[..k]).groups <= Frame(lines).groups
    decreases |lines| - k
  {
    if k < |lines| {
      assert lines[..k + 1][..k] == lines[..k];
      FramePrefix(lines, k + 1);
    } else {
      assert lines[..k] == lines;
    }
  }

  /** Reference definition: parse the groups in order, stopping at the first
      one that fails, whose error ends the stream. */
  function Parsed<M>(gs: seq<seq<string>>, parse: seq<string> -> Result<M, string>): (seq<M>, Option<string>)
    decreases |gs|
  {
    if |gs| == 0 then ([], None)
    else match parse(gs[0])
      case Err(e) => ([], Some(e))
      case Ok(m) => var rest := Parsed(gs[1..], parse); ([m] + rest.0, rest.1)
  }

  /** The messages are those of the leading groups that parse, in order;
      the stream ends early exactly when a group fails, with its error. */
  lemma {:induction false} ParsedSpec<M>(gs: seq<seq<string>>, parse: seq<string> -> Result<M, string>)
    ensures |Parsed(gs, parse).0| <= |gs|
    ensures forall i | 0 <= i < |Parsed(gs, parse).0| :: parse(gs[i]) == Ok(Parsed(gs, parse).0[i])
    ensures Parsed(gs, parse).1.None? <==> |Parsed(gs, parse).0| == |gs|
    ensures Parsed(gs, parse).1.Some? ==> parse(gs[|Parsed(gs, parse).0|]) == Err(Parsed(gs, parse).1.value)
    decreases |gs|
  {
    if |gs| > 0 && parse(gs[0]).Ok? {
      ParsedSpec(gs[1..], parse);
    }
  }

  /** Parsing one more group after a run of successes. */
  lemma {:induction false} ParsedSnoc<M>(gs: seq<seq<string>>, g: seq<string>, parse: seq<string> -> Result<M, string>)
    requires Parsed(gs, parse).1.None?
    ensures parse(g).Err? ==> Parsed(gs + [g], parse) == (Parsed(gs, parse).0, Some(parse(g).error))
    ensures parse(g).Ok? ==> Parsed(gs + [g], parse) == (Parsed(gs, parse).0 + [parse(g).value], None)
    decreases |gs|
  {
    if |gs| == 0 {
      assert gs + [g] == [g];
      assert [g][1..] == [];
      assert Parsed(gs, parse).0 == [];
      if parse(g).Ok? {
        assert [parse(g).value] + [] == [] + [parse(g).value];
      }
    } else {
      var gs' := (gs + [g])[1..];
      assert (gs + [g])[0] == gs[0];
      assert gs' == gs[1..] + [g];
      var m0 := parse(gs[0]).value;
      ParsedSnoc(gs[1..], g, parse);
      if parse(g).Ok? {
        assert [m0] + (Parsed(gs[1..], parse).0 + [parse(g).value])
            == ([m0] + Parsed(gs[1..], parse).0) + [parse(g).value];
      }
    }
  }

  /** A failure ends the stream: later groups are never parsed. */
  lemma {:induction false} ParsedStops<M>(gs: seq<seq<string>>, later: seq<seq<string>>, parse: seq<string> -> Result<M, string>)
    requires Parsed(gs, parse).1.Some?
    ensures Parsed(gs + later, parse) == Parsed(gs, parse)
    decreases |gs|
  {
    assert (gs + later)[0] == gs[0];
    if parse(gs[0]).Ok? {
      assert (gs + later)[1..] == gs[1..] + later;
      ParsedStops(gs[1..], later, parse);
    }
  }

  /** A failing prefix decides the whole parse. */
  lemma ParsedPrefixStops<M>(pre: seq<seq<string>>, all: seq<seq<string>>, parse: seq<string> -> Result<M, string>)
    requires pre <= all && Parsed(pre, parse).1.Some?
    ensures Parsed(all, parse) == Parsed(pre, parse)
  {
    assert all == pre + all[|pre|..];
    ParsedStops(pre, all[|pre|..], parse);
  }

  /** One more line of the stream. */
  lemma FrameStep(lines: seq<string>, i: nat)
    requires i < |lines|
    ensures Blank(lines[i]) ==> Frame(lines[..i + 1]) == Framing(Frame(lines[..i]).groups + [Frame(lines[..i]).pending], [])
    ensures !Blank(lines[i]) ==> Frame(lines[..i + 1]) == Framing(Frame(lines[..i]).groups, Frame(lines[..i]).pending + [lines[i]])
  {
    var p := lines[..i + 1];
    assert p[..|p| - 1] == lines[..i] && p[|p| - 1] == lines[i];
  }

  /** A group that fails at line `i` ends the whole stream with its error. */
  lemma StreamStops<M>(lines: seq<string>, i: nat, parse: seq<string> -> Result<M, string>)
    requires i < |lines| && Blank(lines[i])
    requires Parsed(Frame(lines[..i]).groups, parse).1.None? && parse(Frame(lines[..i]).pending).Err?
    ensures Parsed(Frame(lines).groups, parse)
         == (Parsed(Frame(lines[..i]).groups, parse).0, Some(parse(Frame(lines[..i]).pending).error))
  {
    var gs := Frame(lines[..i]).groups;
    var buf := Frame(lines[..i]).pending;
    FrameStep(lines, i);
    ParsedSnoc(gs, buf, parse);
    FramePrefix(lines, i + 1);
    ParsedPrefixStops(gs + [buf], Frame(lines).groups, parse);
  }

  /** `sse_stream_iterator()` over the response's lines: at each blank line
      the buffered lines are parsed into a message and the buffer is
      cleared; a message that does not parse raises and ends the stream. */
  method Stream<M>(lines: seq<string>, parse: seq<string> -> Result<M, string>)
    returns (messages: seq<M>, failure: Option<string>)
    ensures (messages, failure) == Parsed(Frame(lines).groups, parse)
  {
    var buf: seq<string> := [];
    messages := [];
    for i := 0 to |lines|
      invariant buf == Frame(lines[..i]).pending
      invariant Parsed(Frame(lines[..i]).groups, parse) == (messages, None)
    {
      var line := lines[i];
      FrameStep(lines, i);
      if Blank(line) {
        ParsedSnoc(Frame(lines[..i]).groups, buf, parse);
        var m := parse(buf);
        if m.Err? {
          StreamStops(lines, i, parse);
          return messages, Some(m.error);
        }
        messages := messages + [m.value];
        buf := [];
      } else {
        buf := buf + [line];
      }
    }
    assert lines[..|lines|] == lines;
    failure := None;
  }

  /** The CLI's parser: `from_lines` on each group. */
  function CliParser(decode: string -> Option<Json>): seq<string> -> Result<RawMessage, string> {
    (ls: seq<string>) => ParseMessage(ls, decode)
  }

  /** The CLI's stream: each group parsed by `from_lines`. */
  method CliStream(lines: seq<string>, decode: string -> Option<Json>)
    returns (messages: seq<RawMessage>, failure: Option<string>)
    ensures (messages, failure) == Parsed(Frame(lines).groups, CliParser(decode))
    ensures |messages| <= |Frame(lines).groups|
    ensures forall i | 0 <= i < |messages| :: ParseMessage(Frame(lines).groups[i], decode) == Ok(messages[i])
    ensures failure.None? <==> |messages| == |Frame(lines).groups|
    ensures failure.Some? ==> ParseMessage(Frame(lines).groups[|messages|], decode) == Err(failure.value)
  {
    messages, failure := Stream(lines, CliParser(decode));
    ParsedSpec(Frame(lines).groups, CliParser(decode));
  }

  // ---------------------------------------------------------------------------
  // The server agent: typed messages and the resources filter
  // ---------------------------------------------------------------------------

  /** The server agent's message after `_ServerSentEventMessageSchema`:
      an integer id, a string event and a JSON object of data. */
  datatype Message = Message(id: int, event: string, data: map<string, Json>)

  /** `_ServerSentEventMessageSchema().load(...)`: none of its fields
      accepts `None`, and `data` must be a JSON object. */
  function LoadMessage(m: RawMessage): (r: Result<Message, string>)
    ensures r.Ok? <==> m.id.Some? && m.event.Some? && m.data.JObject?
    ensures r.Ok? ==> r.value.id == m.id.value && r.value.event == m.event.value && r.value.data == m.data.fields
  {
    if m.id.None? then Err("id_: Field may not be null.")
    else if m.event.None? then Err("event: Field may not be null.")
    else if !m.data.JObject? then Err("data: Not a valid mapping type.")
    else Ok(Message(m.id.value, m.event.value, m.data.fields))
  }

  /** The server agent's `from_lines`: parse, then load through the schema. */
  function AgentMessage(lines: seq<string>, decode: string -> Option<Json>): Result<Message, string> {
    match ParseMessage(lines, decode)
    case Err(e) => Err(e)
    case Ok(m) => LoadMessage(m)
  }

  /** The server agent's message parser for a given decoder. */
  function AgentParser(decode: string -> Option<Json>): seq<string> -> Result<Message, string> {
    (ls: seq<string>) => AgentMessage(ls, decode)
  }

  const ServerResourcesEvent := "@SSE/SERVER_RESOURCES_UPDATED"

  /** Reference definition: what `pick` finds in each message, for the
      messages where it finds something, in stream order. */
  function Selected<M, D>(ms: seq<M>, pick: M -> Option<D>): seq<D>
    decreases |ms|
  {
    if |ms| == 0 then []
    else Selected(ms[..|ms| - 1], pick)
         + (if pick(ms[|ms| - 1]).Some? then [pick(ms[|ms| - 1]).value] else [])
  }

  /** Every item selected was found in some message, and with nothing to
      find nothing is selected. */
  lemma {:induction false} SelectedSpec<M, D>(ms: seq<M>, pick: M -> Option<D>)
    ensures forall i | 0 <= i < |Selected(ms, pick)| ::
      exists j | 0 <= j < |ms| :: pick(ms[j]) == Some(Selected(ms, pick)[i])
    ensures (forall j | 0 <= j < |ms| :: pick(ms[j]).None?) ==> Selected(ms, pick) == []
    decreases |ms|
  {
    if |ms| > 0 {
      var init := ms[..|ms| - 1];
      var last := ms[|ms| - 1];
      SelectedSpec(init, pick);
      assert forall j | 0 <= j < |init| :: init[j] == ms[j];
      var r := Selected(ms, pick);
      var r0 := Selected(init, pick);
      assert r == r0 + (if pick(last).Some? then [pick(last).value] else []);
      forall i | 0 <= i < |r|
        ensures exists j | 0 <= j < |ms| :: pick(ms[j]) == Some(r[i])
      {
        if i < |r0| {
          assert r[i] == r0[i];
          var j :| 0 <= j < |init| && pick(init[j]) == Some(r0[i]);
          assert ms[j] == init[j];
        } else {
          assert pick(last) == Some(r[i]);
          assert ms[|ms| - 1] == last;
        }
      }
    } else {
      assert Selected(ms, pick) == [];
    }
  }

  /** Selecting from a stream in two pieces selects from each piece: the
      order of the messages is kept. */
  lemma {:induction false} SelectedAppend<M, D>(a: seq<M>, b: seq<M>, pick: M -> Option<D>)
    ensures Selected(a + b, pick) == Selected(a, pick) + Selected(b, pick)
    decreases |b|
  {
    if |b| == 0 {
      assert a + b == a;
    } else {
      var b' := b[..|b| - 1];
      assert (a + b)[..|a + b| - 1] == a + b';
      SelectedAppend(a, b', pick);
    }
  }

  /** The data of an agent message whose event is a resource update. */
  function AgentUpdate(m: Message): Option<map<string, Json>> {
    if m.event == ServerResourcesEvent then Some(m.data) else None
  }

  // ---------------------------------------------------------------------------
  // Server resources
  // ---------------------------------------------------------------------------

  datatype CpuUsage = CpuUsage(total: int, used: int)

  datatype MemoryUsage = MemoryUsage(total: int, used: int, cache: int, rss: int)

  datatype ServerResources = ServerResources(milliCpus: CpuUsage, memoryMb: MemoryUsage)

  /** What loading a resource update raises: marshmallow's
      `ValidationError`, or the `TypeError` a `post_load` constructor raises
      when a field it needs was not sent. */
  datatype ResourcesError = ValidationError | TypeError

  /** A field that is absent, or an integer; `Integer` and `Number` refuse
      anything else, `null` included. */
  predicate NumberOrAbsent(f: map<string, Json>, key: string) {
    key !in f || f[key].JInt?
  }

  predicate IntField(f: map<string, Json>, key: string) {
    key in f && f[key].JInt?
  }

  /** `_CpuUsageSchema().load`: a mapping whose present fields are
      integers, then `CpuUsage(**data)`, which needs both. */
  function LoadCpuUsage(j: Json): (r: Result<CpuUsage, ResourcesError>)
    ensures r.Ok? <==> j.JObject? && IntField(j.fields, "total") && IntField(j.fields, "used")
    ensures r.Ok? ==> r.value == CpuUsage(j.fields["total"].i, j.fields["used"].i)
    ensures r == Err(ValidationError) <==>
      !j.JObject? || !NumberOrAbsent(j.fields, "total") || !NumberOrAbsent(j.fields, "used")
  {
    if !j.JObject? then Err(ValidationError)
    else
      var f := j.fields;
      if !NumberOrAbsent(f, "total") || !NumberOrAbsent(f, "used") then Err(ValidationError)
      else if "total" !in f || "used" !in f then Err(TypeError)
      else Ok(CpuUsage(f["total"].i, f["used"].i))
  }

  /** `_MemoryUsageSchema().load`, the same way over its four fields. */
  function LoadMemoryUsage(j: Json): (r: Result<MemoryUsage, ResourcesError>)
    ensures r.Ok? <==> j.JObject? && IntField(j.fields, "total") && IntField(j.fields, "used")
                       && IntField(j.fields, "cache") && IntField(j.fields, "rss")
    ensures r.Ok? ==> r.value == MemoryUsage(j.fields["total"].i, j.fields["used"].i, j.fields["cache"].i, j.fields["rss"].i)
    ensures r == Err(ValidationError) <==>
      !j.JObject? || !NumberOrAbsent(j.fields, "total") || !NumberOrAbsent(j.fields, "used")
      || !NumberOrAbsent(j.fields, "cache") || !NumberOrAbsent(j.fields, "rss")
  {
    if !j.JObject? then Err(ValidationError)
    else
      var f := j.fields;
      if !NumberOrAbsent(f, "total") || !NumberOrAbsent(f, "used") || !NumberOrAbsent(f, "cache")
         || !NumberOrAbsent(f, "rss")
      then Err(ValidationError)
      else if "total" !in f || "used" !in f || "cache" !in f || "rss" !in f then Err(TypeError)
      else Ok(MemoryUsage(f["total"].i, f["used"].i, f["cache"].i, f["rss"].i))
  }

  /** `_ServerResourcesSchema().load(data)`: the nested fields in declared
      order, a `TypeError` from a nested constructor escaping at once,
      validation errors collected, then `ServerResources(**data)`, which
      needs both fields. */
  function LoadServerResources(d: map<string, Json>): (r: Result<ServerResources, ResourcesError>)
    ensures r.Ok? <==> "milliCpus" in d && LoadCpuUsage(d["milliCpus"]).Ok?
                       && "memoryMB" in d && LoadMemoryUsage(d["memoryMB"]).Ok?
    ensures r.Ok? ==> r.value == ServerResources(LoadCpuUsage(d["milliCpus"]).value, LoadMemoryUsage(d["memoryMB"]).value)
    ensures "milliCpus" in d && LoadCpuUsage(d["milliCpus"]) == Err(TypeError) ==> r == Err(TypeError)
    ensures ("milliCpus" !in d || LoadCpuUsage(d["milliCpus"]).Ok?) && "memoryMB" !in d ==> r == Err(TypeError)
  {
    var cpu := if "milliCpus" in d then Some(LoadCpuUsage(d["milliCpus"])) else None;
    var memory := if "memoryMB" in d then Some(LoadMemoryUsage(d["memoryMB"])) else None;
    if cpu == Some(Err(TypeError)) || memory == Some(Err(TypeError)) then Err(TypeError)
    else if (cpu.Some? && cpu.value.Err?) || (memory.Some? && memory.value.Err?) then Err(ValidationError)
    else if cpu.None? || memory.None? then Err(TypeError)
    else Ok(ServerResources(cpu.value.value, memory.value.value))
  }

  /** The update the server agent sends for given resources. */
  function ResourcesData(r: ServerResources): map<string, Json> {
    map["milliCpus" := JObject(map["total" := JInt(r.milliCpus.total), "used" := JInt(r.milliCpus.used)]),
        "memoryMB" := JObject(map["total" := JInt(r.memoryMb.total), "used" := JInt(r.memoryMb.used),
                                  "cache" := JInt(r.memoryMb.cache), "rss" := JInt(r.memoryMb.rss)])]
  }

  /** Every update loads back as the resources it describes. */
  lemma ResourcesRoundTrip(r: ServerResources)
    ensures LoadServerResources(ResourcesData(r)) == Ok(r)
  {
    var d := ResourcesData(r);
    assert LoadCpuUsage(d["milliCpus"]) == Ok(r.milliCpus);
    assert LoadMemoryUsage(d["memoryMB"]) == Ok(r.memoryMb);
  }

  /** An update without its memory figures raises `TypeError` rather than
      a validation error: the schema declares no field required. */
  lemma MissingMemoryIsTypeError(cpu: CpuUsage)
    ensures LoadServerResources(map["milliCpus" := JObject(map["total" := JInt(cpu.total), "used" := JInt(cpu.used)])])
            == Err(TypeError)
  {
    var d := map["milliCpus" := JObject(map["total" := JInt(cpu.total), "used" := JInt(cpu.used)])];
    assert "memoryMB" !in d;
    assert LoadCpuUsage(d["milliCpus"]).Ok?;
  }

  /** Loading items one by one until the first refusal: the loaded prefix,
      and the error that stopped it, if any. */
  function LoadUntilFailure<D, T, E>(ds: seq<D>, load: D -> Result<T, E>): (seq<T>, Option<E>)
    decreases |ds|
  {
    if |ds| == 0 then ([], None)
    else match load(ds[0])
      case Err(e) => ([], Some(e))
      case Ok(x) =>
        var rest := LoadUntilFailure(ds[1..], load);
        ([x] + rest.0, rest.1)
  }

  /** What was loaded is a prefix of the items, each loaded in place; the
      run stops early exactly when an item is refused, at that item. */
  lemma {:induction false} LoadUntilFailureSpec<D, T, E>(ds: seq<D>, load: D -> Result<T, E>)
    ensures var r := LoadUntilFailure(ds, load);
      && |r.0| <= |ds|
      && (forall i | 0 <= i < |r.0| :: load(ds[i]) == Ok(r.0[i]))
      && (r.1.None? <==> |r.0| == |ds|)
      && (r.1.Some? ==> load(ds[|r.0|]) == Err(r.1.value))
    decreases |ds|
  {
    if |ds| > 0 && load(ds[0]).Ok? {
      LoadUntilFailureSpec(ds[1..], load);
      var rest := LoadUntilFailure(ds[1..], load);
      var r := LoadUntilFailure(ds, load);
      assert r.0 == [load(ds[0]).value] + rest.0;
      forall i | 0 <= i < |r.0| ensures load(ds[i]) == Ok(r.0[i]) {
        if i > 0 {
          assert ds[1..][i - 1] == ds[i];
        }
      }
      if r.1.Some? {
        assert ds[1..][|rest.0|] == ds[|r.0|];
      }
    }
  }

  /** Loading two runs of items in turn: the second is reached only when
      the first loads in full. */
  lemma {:induction false} LoadUntilFailureAppend<D, T, E>(a: seq<D>, b: seq<D>, load: D -> Result<T, E>)
    ensures var ra := LoadUntilFailure(a, load);
      LoadUntilFailure(a + b, load)
      == if ra.1.Some? then ra else (ra.0 + LoadUntilFailure(b, load).0, LoadUntilFailure(b, load).1)
    decreases |a|
  {
    if |a| == 0 {
      assert a + b == b;
      assert [] + LoadUntilFailure(b, load).0 == LoadUntilFailure(b, load).0;
    } else {
      assert (a + b)[0] == a[0] && (a + b)[1..] == a[1..] + b;
      LoadUntilFailureAppend(a[1..], b, load);
      var ra := LoadUntilFailure(a, load);
      var rab := LoadUntilFailure(a + b, load);
      if load(a[0]).Ok? {
        var x := load(a[0]).value;
        var rest := LoadUntilFailure(a[1..], load);
        var restb := LoadUntilFailure(a[1..] + b, load);
        var rb := LoadUntilFailure(b, load);
        assert ra == ([x] + rest.0, rest.1);
        assert rab == ([x] + restb.0, restb.1);
        assert [x] + (rest.0 + rb.0) == ([x] + rest.0) + rb.0;
      }
    }
  }

  /** A single item loads as itself or stops with its error. */
  lemma LoadOne<D, T, E>(d: D, load: D -> Result<T, E>)
    ensures LoadUntilFailure([d], load)
      == if load(d).Ok? then ([load(d).value], None) else ([], Some(load(d).error))
  {
    assert [d][0] == d && [d][1..] == [];
    if load(d).Ok? {
      assert [load(d).value] + [] == [load(d).value];
    }
  }

  /** One message of the loading loop that does not end it: one with
      nothing to load leaves the loaded items, one that loads adds its
      item. */
  lemma LoadStep<M, D, T, E>(ms: seq<M>, i: nat, loaded: seq<T>, pick: M -> Option<D>, load: D -> Result<T, E>)
    requires i < |ms|
    requires LoadUntilFailure(Selected(ms[..i], pick), load) == (loaded, None)
    ensures pick(ms[i]).None? ==>
      LoadUntilFailure(Selected(ms[..i + 1], pick), load) == (loaded, None)
    ensures pick(ms[i]).Some? && load(pick(ms[i]).value).Ok? ==>
      LoadUntilFailure(Selected(ms[..i + 1], pick), load)
      == (loaded + [load(pick(ms[i]).value).value], None)
  {
    var upto := ms[..i + 1];
    assert upto[..i] == ms[..i];
    assert Selected(upto, pick)
      == Selected(ms[..i], pick) + (if pick(ms[i]).Some? then [pick(ms[i]).value] else []);
    if pick(ms[i]).Some? {
      var data := pick(ms[i]).value;
      LoadUntilFailureAppend(Selected(ms[..i], pick), [data], load);
      LoadOne(data, load);
    } else {
      assert Selected(upto, pick) == Selected(ms[..i], pick);
    }
  }

  /** An item that does not load ends the stream: what any later message
      holds is never loaded. */
  lemma LoadStop<M, D, T, E>(ms: seq<M>, i: nat, loaded: seq<T>, pick: M -> Option<D>, load: D -> Result<T, E>, e: E)
    requires i < |ms| && pick(ms[i]).Some? && load(pick(ms[i]).value) == Err(e)
    requires LoadUntilFailure(Selected(ms[..i], pick), load) == (loaded, None)
    ensures LoadUntilFailure(Selected(ms, pick), load) == (loaded, Some(e))
  {
    SplitAfter(ms, i);
    LoadStopHere(ms[..i + 1], loaded, pick, load, e);
    StoppedStaysStopped(ms[..i + 1], ms[i + 1..], pick, load);
  }

  /** Cutting a sequence just after one of its positions. */
  lemma SplitAfter<X>(s: seq<X>, i: nat)
    requires i < |s|
    ensures |s[..i + 1]| == i + 1 && s[..i + 1][..i] == s[..i] && s[..i + 1][i] == s[i]
    ensures s == s[..i + 1] + s[i + 1..]
  {
  }

  /** The item that ends a stream prefix stops its loading. */
  lemma LoadStopHere<M, D, T, E>(upto: seq<M>, loaded: seq<T>, pick: M -> Option<D>, load: D -> Result<T, E>, e: E)
    requires |upto| > 0
    requires pick(upto[|upto| - 1]).Some? && load(pick(upto[|upto| - 1]).value) == Err(e)
    requires LoadUntilFailure(Selected(upto[..|upto| - 1], pick), load) == (loaded, None)
    ensures LoadUntilFailure(Selected(upto, pick), load) == (loaded, Some(e))
  {
    var data := pick(upto[|upto| - 1]).value;
    var init := Selected(upto[..|upto| - 1], pick);
    assert Selected(upto, pick) == init + [data];
    LoadUntilFailureAppend(init, [data], load);
    LoadOne(data, load);
    assert loaded + [] == loaded;
  }

  /** Once loading has stopped on a prefix of the stream, the rest of the
      stream changes nothing. */
  lemma StoppedStaysStopped<M, D, T, E>(upto: seq<M>, rest: seq<M>, pick: M -> Option<D>, load: D -> Result<T, E>)
    requires LoadUntilFailure(Selected(upto, pick), load).1.Some?
    ensures LoadUntilFailure(Selected(upto + rest, pick), load) == LoadUntilFailure(Selected(upto, pick), load)
  {
    SelectedAppend(upto, rest, pick);
    LoadUntilFailureAppend(Selected(upto, pick), Selected(rest, pick), load);
  }

  /** Loading what `pick` finds in a stream of messages, one message at a
      time, up to the first item that does not load. */
  method LoadSelected<M, D, T, E>(ms: seq<M>, pick: M -> Option<D>, load: D -> Result<T, E>)
    returns (loaded: seq<T>, failure: Option<E>)
    ensures (loaded, failure) == LoadUntilFailure(Selected(ms, pick), load)
  {
    loaded := [];
    for i := 0 to |ms|
      invariant LoadUntilFailure(Selected(ms[..i], pick), load) == (loaded, None)
    {
      LoadStep(ms, i, loaded, pick, load);
      if pick(ms[i]).Some? {
        match load(pick(ms[i]).value)
        case Err(e) =>
          LoadStop(ms, i, loaded, pick, load, e);
          failure := Some(e);
          return;
        case Ok(x) =>
          loaded := loaded + [x];
      }
    }
    assert ms[..|ms|] == ms;
    failure := None;
  }

  /** Why a resources stream stopped early: a message that did not parse,
      or an update that did not load. */
  datatype StreamFailure = MessageFailure(message: string) | ResourcesFailure(error: ResourcesError)

  /** `stream_server_resources()`: the events stream, loading the data of
      each message whose event is `@SSE/SERVER_RESOURCES_UPDATED`; the first
      update that does not load ends the stream with its error, before any
      later message is read. */
  method StreamServerResources(lines: seq<string>, decode: string -> Option<Json>)
    returns (updates: seq<ServerResources>, failure: Option<StreamFailure>)
    ensures var p := Parsed(Frame(lines).groups, AgentParser(decode));
      var l := LoadUntilFailure(Selected(p.0, AgentUpdate), LoadServerResources);
      && updates == l.0
      && failure == (if l.1.Some? then Some(ResourcesFailure(l.1.value))
                     else if p.1.Some? then Some(MessageFailure(p.1.value)) else None)
  {
    var messages, streamFailure := Stream(lines, AgentParser(decode));
    var loadFailure;
    updates, loadFailure := LoadSelected(messages, AgentUpdate, LoadServerResources);
    failure := if loadFailure.Some? then Some(ResourcesFailure(loadFailure.value))
               else if streamFailure.Some? then Some(MessageFailure(streamFailure.value)) else None;
  }
}
