/** `faculty/clients/notification.py`: the error message of a failed
    template publication, the filters that pick one operation's events out
    of a user's notification stream, and the loops that wait for that
    operation to complete. The stream is a finite sequence of events;
    `json.loads` of an event's data and Python's `str` of a non-string JSON
    value are parameters. */
module Notifications {
  import opened Wrappers
  import opened Strings
  import opened Json

  /** A server-sent event as `sseclient` yields it. */
  datatype Event = Event(event: string, data: string)

  /** The exceptions this code raises or lets through. */
  datatype Failure =
    | TypeError
    | AttributeError
    | JsonDecodeError
    | TemplatePublishingError(message: Json)

  const UnexpectedResponse := "Unexpected server response"

  const UnexpectedCode := "Unexpected error code received"

  const RenderingHeader := "Failed to render the template with default parameters:"

  /** `"{}".format(value)`: a string as itself, anything else by `str`. */
  function Str(value: Json, str: Json -> string): string {
    if value.JString? then value.s else str(value)
  }

  /** Why one entry of `errors` gives no line: a key is missing (the
      `KeyError` the function catches) or it is not an object (a
      `TypeError` it does not). */
  datatype LineFailure = MissingKey | NotAnObject

  /** The line one rendering error adds to the message. */
  function ErrorLine(e: Json, str: Json -> string): (r: Result<string, LineFailure>)
    ensures r.Ok? <==> e.JObject? && "error" in e.fields && "path" in e.fields
    ensures r.Err? ==> (r.error == NotAnObject <==> !e.JObject?)
  {
    if !e.JObject? then Err(NotAnObject)
    else if "error" !in e.fields || "path" !in e.fields then Err(MissingKey)
    else Ok("\n\t" + Str(e.fields["error"], str) + " in file " + Str(e.fields["path"], str))
  }

  /** Reference definition: the lines of the entries in order, or the
      failure of the first entry that gives none. */
  function ErrorLines(items: seq<Json>, str: Json -> string): Result<string, LineFailure>
    decreases |items|
  {
    if |items| == 0 then Ok("")
    else
      match ErrorLine(items[0], str)
      case Err(f) => Err(f)
      case Ok(line) =>
        match ErrorLines(items[1..], str)
        case Err(f) => Err(f)
        case Ok(rest) => Ok(line + rest)
  }

  lemma StringAssoc(x: string, y: string, z: string)
    ensures x + (y + z) == (x + y) + z
  {
  }

  /** The lines of two runs of entries are the lines of the first followed
      by those of the second, and a failure in the first wins. */
  lemma {:induction false} ErrorLinesConcat(a: seq<Json>, b: seq<Json>, str: Json -> string)
    ensures ErrorLines(a, str).Err? ==> ErrorLines(a + b, str) == ErrorLines(a, str)
    ensures ErrorLines(a, str).Ok? && ErrorLines(b, str).Err? ==> ErrorLines(a + b, str) == ErrorLines(b, str)
    ensures ErrorLines(a, str).Ok? && ErrorLines(b, str).Ok? ==>
      ErrorLines(a + b, str) == Ok(ErrorLines(a, str).value + ErrorLines(b, str).value)
    decreases |a|
  {
    if |a| == 0 {
      assert a + b == b;
      if ErrorLines(b, str).Ok? {
        assert "" + ErrorLines(b, str).value == ErrorLines(b, str).value;
      }
    } else {
      var ab := a + b;
      assert ab[0] == a[0];
      assert ab[1..] == a[1..] + b;
      ErrorLinesConcat(a[1..], b, str);
      var head := ErrorLine(a[0], str);
      if head.Ok? && ErrorLines(a[1..], str).Ok? && ErrorLines(b, str).Ok? {
        var line, x, y := head.value, ErrorLines(a[1..], str).value, ErrorLines(b, str).value;
        assert ErrorLines(a, str) == Ok(line + x);
        assert ErrorLines(ab[1..], str) == Ok(x + y);
        assert ErrorLines(ab, str) == Ok(line + (x + y));
        StringAssoc(line, x, y);
      }
    }
  }

  /** What `for e in errors` runs over, as far as the outcome goes: a
      list's items; nothing for an empty object or string; and for any
      other value a `TypeError`, either at once or on its first key or
      character. */
  function ErrorItems(errors: Json): (r: Result<seq<Json>, Failure>)
    ensures errors.JArray? ==> r == Ok(errors.items)
    ensures r.Err? ==> r.error == TypeError
  {
    match errors
    case JArray(items) => Ok(items)
    case JObject(fields) => if |fields| == 0 then Ok([]) else Err(TypeError)
    case JString(s) => if s == "" then Ok([]) else Err(TypeError)
    case _ => Err(TypeError)
  }

  /** The message `_extract_publishing_error_msg` gives for a failure body:
      the body's own `error` for the two plain codes, the header and one
      line per rendering error for a rendering failure, fixed texts for an
      unknown code or a missing key, and the `TypeError` that escapes for a
      body or code of the wrong kind. */
  function PublishingErrorMessage(body: Json, str: Json -> string): (r: Result<Json, Failure>)
    ensures !body.JObject? ==> r == Err(TypeError)
    ensures body.JObject? && "errorCode" !in body.fields ==> r == Ok(JString(UnexpectedResponse))
    ensures body.JObject? && "errorCode" in body.fields
            && body.fields["errorCode"] in {JString("name_conflict"), JString("unexpected_error")} ==>
      r == Ok(if "error" in body.fields then body.fields["error"] else JString(UnexpectedResponse))
    ensures body.JObject? && "errorCode" in body.fields && body.fields["errorCode"].JString?
            && body.fields["errorCode"].s !in {"name_conflict", "unexpected_error", "template_rendering_error"} ==>
      r == Ok(JString(UnexpectedCode))
    ensures r.Ok? && body.JObject? && "errorCode" in body.fields
            && body.fields["errorCode"] == JString("template_rendering_error") ==>
      r.value == JString(UnexpectedResponse) || (r.value.JString? && StartsWith(r.value.s, RenderingHeader))
  {
    if !body.JObject? then Err(TypeError)
    else if "errorCode" !in body.fields then Ok(JString(UnexpectedResponse))
    else
      var f := body.fields;
      var code := f["errorCode"];
      if code.JArray? || code.JObject? then Err(TypeError)
      else if code == JString("name_conflict") || code == JString("unexpected_error") then
        if "error" in f then Ok(f["error"]) else Ok(JString(UnexpectedResponse))
      else if code == JString("template_rendering_error") then
        if "errors" !in f then Ok(JString(UnexpectedResponse))
        else
          match ErrorItems(f["errors"])
          case Err(e) => Err(e)
          case Ok(items) =>
            match ErrorLines(items, str)
            case Ok(lines) => Ok(JString(RenderingHeader + lines))
            case Err(MissingKey) => Ok(JString(UnexpectedResponse))
            case Err(NotAnObject) => Err(TypeError)
      else Ok(JString(UnexpectedCode))
  }

  /** `_extract_publishing_error_msg`, with its `msg +=` loop. */
  method ExtractPublishingErrorMsg(body: Json, str: Json -> string) returns (r: Result<Json, Failure>)
    ensures r == PublishingErrorMessage(body, str)
  {
    if !body.JObject? {
      return Err(TypeError);
    }
    if "errorCode" !in body.fields {
      return Ok(JString(UnexpectedResponse));
    }
    var code := body.fields["errorCode"];
    if code.JArray? || code.JObject? {
      return Err(TypeError);
    }
    if code == JString("name_conflict") || code == JString("unexpected_error") {
      if "error" !in body.fields {
        return Ok(JString(UnexpectedResponse));
      }
      return Ok(body.fields["error"]);
    }
    if code != JString("template_rendering_error") {
      return Ok(JString(UnexpectedCode));
    }
    if "errors" !in body.fields {
      return Ok(JString(UnexpectedResponse));
    }
    var errors := ErrorItems(body.fields["errors"]);
    if errors.Err? {
      return Err(errors.error);
    }
    var items := errors.value;
    var msg := RenderingHeader;
    ghost var lines := "";
    var i := 0;
    while i < |items|
      invariant 0 <= i <= |items|
      invariant ErrorLines(items[..i], str) == Ok(lines)
      invariant msg == RenderingHeader + lines
    {
      var line := ErrorLine(items[i], str);
      assert items[..i + 1] == items[..i] + [items[i]];
      ErrorLinesConcat(items[..i], [items[i]], str);
      if line.Err? {
        ErrorLinesConcat(items[..i], items[i..], str);
        assert items[..i] + items[i..] == items;
        if line.error == MissingKey {
          return Ok(JString(UnexpectedResponse));
        }
        return Err(TypeError);
      }
      assert ErrorLines([items[i]], str) == Ok(line.value) by {
        assert [items[i]][1..] == [];
        assert line.value + "" == line.value;
      }
      StringAssoc(RenderingHeader, lines, line.value);
      msg := msg + line.value;
      lines := lines + line.value;
      i := i + 1;
    }
    assert items[..i] == items;
    return Ok(JString(msg));
  }

  function ErrorEntry(error: string, path: string): Json {
    JObject(map["error" := JString(error), "path" := JString(path)])
  }

  lemma EntryLine(error: string, path: string, str: Json -> string)
    ensures ErrorLine(ErrorEntry(error, path), str) == Ok("\n\t" + error + " in file " + path)
  {
    var e := ErrorEntry(error, path);
    assert e.fields["error"] == JString(error) && e.fields["path"] == JString(path);
  }

  lemma TwoLines(e1: Json, e2: Json, str: Json -> string)
    requires ErrorLine(e1, str).Ok? && ErrorLine(e2, str).Ok?
    ensures ErrorLines([e1, e2], str) == Ok(ErrorLine(e1, str).value + ErrorLine(e2, str).value)
  {
    var l2 := ErrorLine(e2, str).value;
    assert [e2][1..] == [];
    assert ErrorLines([], str) == Ok("");
    assert l2 + "" == l2;
    assert ErrorLines([e2], str) == Ok(l2);
    assert [e1, e2][1..] == [e2];
  }

  /** A rendering failure whose errors all give lines has the header and
      those lines as its message. */
  lemma RenderingBody(items: seq<Json>, str: Json -> string)
    requires ErrorLines(items, str).Ok?
    ensures PublishingErrorMessage(JObject(map["errorCode" := JString("template_rendering_error"),
                                               "errors" := JArray(items)]), str)
            == Ok(JString(RenderingHeader + ErrorLines(items, str).value))
  {
    var body := JObject(map["errorCode" := JString("template_rendering_error"), "errors" := JArray(items)]);
    assert body.fields["errorCode"] == JString("template_rendering_error") && body.fields["errors"] == JArray(items);
  }

  /** The message for two rendering errors, as the tests of this function
      expect it. */
  lemma RenderingMessageExample(str: Json -> string)
    ensures PublishingErrorMessage(
      JObject(map["errorCode" := JString("template_rendering_error"),
                  "errors" := JArray([ErrorEntry("Unexpected key { abc }", "a.py"),
                                      ErrorEntry("Unexpected key { abc }", "a/b.py")])]),
      str)
      == Ok(JString(RenderingHeader
                    + ("\n\t" + "Unexpected key { abc }" + " in file " + "a.py")
                    + ("\n\t" + "Unexpected key { abc }" + " in file " + "a/b.py")))
  {
    var e1 := ErrorEntry("Unexpected key { abc }", "a.py");
    var e2 := ErrorEntry("Unexpected key { abc }", "a/b.py");
    var l1 := "\n\t" + "Unexpected key { abc }" + " in file " + "a.py";
    var l2 := "\n\t" + "Unexpected key { abc }" + " in file " + "a/b.py";
    EntryLine("Unexpected key { abc }", "a.py", str);
    EntryLine("Unexpected key { abc }", "a/b.py", str);
    TwoLines(e1, e2, str);
    RenderingBody([e1, e2], str);
    StringAssoc(RenderingHeader, l1, l2);
  }

  // ---------------------------------------------------------------------------
  // Waiting for an operation
  // ---------------------------------------------------------------------------

  /** The two operations whose notifications are awaited. */
  datatype Operation = PublishTemplate | AddToProjectFromDirectory

  function EventPrefix(op: Operation): string {
    match op
    case PublishTemplate => "@SSE/PROJECT_TEMPLATE_PUBLISH"
    case AddToProjectFromDirectory => "@SSE/PROJECT_TEMPLATE_APPLY_FROM_DIRECTORY_ADD_TO_PROJECT"
  }

  /** The member naming the project an event is about. */
  function ProjectKey(op: Operation): string {
    match op
    case PublishTemplate => "sourceProjectId"
    case AddToProjectFromDirectory => "projectId"
  }

  function FailedEvent(op: Operation): string {
    match op
    case PublishTemplate => "@SSE/PROJECT_TEMPLATE_PUBLISH_NEW_FAILED"
    case AddToProjectFromDirectory => "@SSE/PROJECT_TEMPLATE_APPLY_FROM_DIRECTORY_ADD_TO_PROJECT_FAILED"
  }

  function CompletedEvent(op: Operation): string {
    match op
    case PublishTemplate => "@SSE/PROJECT_TEMPLATE_PUBLISH_NEW_COMPLETED"
    case AddToProjectFromDirectory => "@SSE/PROJECT_TEMPLATE_APPLY_FROM_DIRECTORY_ADD_TO_PROJECT_COMPLETED"
  }

  const ApplyFailed := "Failed to apply template to directory"

  /** `is_publishing_event` of either operation: the event's name has the
      operation's prefix and its data names the project; data that is not
      JSON, or JSON without `.get`, raises. */
  function IsOperationEvent(op: Operation, projectId: string, e: Event, loads: string -> Option<Json>): (r: Result<bool, Failure>)
    ensures !StartsWith(e.event, EventPrefix(op)) ==> r == Ok(false)
    ensures r == Ok(true) <==>
      && StartsWith(e.event, EventPrefix(op)) && loads(e.data).Some? && loads(e.data).value.JObject?
      && ProjectKey(op) in loads(e.data).value.fields
      && loads(e.data).value.fields[ProjectKey(op)] == JString(projectId)
  {
    if !StartsWith(e.event, EventPrefix(op)) then Ok(false)
    else match loads(e.data)
      case None => Err(JsonDecodeError)
      case Some(body) =>
        if !body.JObject? then Err(AttributeError)
        else Ok(ProjectKey(op) in body.fields && body.fields[ProjectKey(op)] == JString(projectId))
  }

  /** The failure a FAILED event raises: for a publication, the message
      extracted from its data; for the other operation, after its data is
      decoded, a fixed message. */
  function FailureOf(op: Operation, e: Event, loads: string -> Option<Json>, str: Json -> string): (r: Failure)
    ensures loads(e.data).None? ==> r == JsonDecodeError
    ensures op == AddToProjectFromDirectory && loads(e.data).Some? ==> r == TemplatePublishingError(JString(ApplyFailed))
  {
    match loads(e.data)
    case None => JsonDecodeError
    case Some(body) =>
      if op == AddToProjectFromDirectory then TemplatePublishingError(JString(ApplyFailed))
      else match PublishingErrorMessage(body, str)
        case Ok(msg) => TemplatePublishingError(msg)
        case Err(f) => f
  }

  /** An event that ends the wait: one the filter fails on, or a kept
      event that completes or fails the operation. */
  predicate Decisive(op: Operation, projectId: string, e: Event, loads: string -> Option<Json>) {
    var kept := IsOperationEvent(op, projectId, e, loads);
    kept.Err? || (kept.value && (e.event == FailedEvent(op) || e.event == CompletedEvent(op)))
  }

  /** How a decisive event ends the wait. */
  function Outcome(op: Operation, projectId: string, e: Event, loads: string -> Option<Json>, str: Json -> string): Result<(), Failure> {
    var kept := IsOperationEvent(op, projectId, e, loads);
    if kept.Err? then Err(kept.error)
    else if e.event == FailedEvent(op) then Err(FailureOf(op, e, loads, str))
    else Ok(())
  }

  /** `wait_for_completion` on the filtered stream of either operation:
      events are pulled through the filter one at a time, other events are
      passed over, the first FAILED event raises and the first COMPLETED
      event returns; a stream that ends returns too. */
  method WaitForCompletion(op: Operation, projectId: string, events: seq<Event>,
                           loads: string -> Option<Json>, str: Json -> string)
    returns (r: Result<(), Failure>)
    ensures (forall i | 0 <= i < |events| :: !Decisive(op, projectId, events[i], loads)) ==> r == Ok(())
    ensures forall i | 0 <= i < |events| ::
      (Decisive(op, projectId, events[i], loads) && forall k | 0 <= k < i :: !Decisive(op, projectId, events[k], loads))
      ==> r == Outcome(op, projectId, events[i], loads, str)
  {
    var i := 0;
    while i < |events|
      invariant 0 <= i <= |events|
      invariant forall k | 0 <= k < i :: !Decisive(op, projectId, events[k], loads)
    {
      var e := events[i];
      var kept := IsOperationEvent(op, projectId, e, loads);
      if kept.Err? || (kept.value && (e.event == FailedEvent(op) || e.event == CompletedEvent(op))) {
        if kept.Err? {
          r := Err(kept.error);
        } else if e.event == FailedEvent(op) {
          var body := loads(e.data);
          if body.None? {
            r := Err(JsonDecodeError);
          } else if op == AddToProjectFromDirectory {
            r := Err(TemplatePublishingError(JString(ApplyFailed)));
          } else {
            var msg := ExtractPublishingErrorMsg(body.value, str);
            r := if msg.Err? then Err(msg.error) else Err(TemplatePublishingError(msg.value));
          }
        } else {
          r := Ok(());
        }
        FirstDecisive(op, projectId, events, loads, i);
        return;
      }
      i := i + 1;
    }
    return Ok(());
  }

  /** The first decisive event is the only one before which none is. */
  lemma FirstDecisive(op: Operation, projectId: string, events: seq<Event>, loads: string -> Option<Json>, i: int)
    requires 0 <= i < |events| && Decisive(op, projectId, events[i], loads)
    requires forall k | 0 <= k < i :: !Decisive(op, projectId, events[k], loads)
    ensures forall j | 0 <= j < |events| ::
      (Decisive(op, projectId, events[j], loads) && forall k | 0 <= k < j :: !Decisive(op, projectId, events[k], loads))
      ==> j == i
  {
  }

  /** Events about another project are passed over, whatever they say. */
  lemma OtherProjectIgnored(op: Operation, projectId: string, e: Event, loads: string -> Option<Json>)
    requires loads(e.data).Some? && loads(e.data).value.JObject?
    requires ProjectKey(op) !in loads(e.data).value.fields
             || loads(e.data).value.fields[ProjectKey(op)] != JString(projectId)
    ensures !Decisive(op, projectId, e, loads)
  {
  }

  /** A publication's FAILED event carrying a plain error raises that
      error, and its COMPLETED event returns normally. */
  lemma PublishOutcomes(projectId: string, e: Event, loads: string -> Option<Json>, str: Json -> string)
    requires loads(e.data).Some? && loads(e.data).value.JObject?
    requires "sourceProjectId" in loads(e.data).value.fields
             && loads(e.data).value.fields["sourceProjectId"] == JString(projectId)
    ensures e.event == CompletedEvent(PublishTemplate) ==>
      Decisive(PublishTemplate, projectId, e, loads) && Outcome(PublishTemplate, projectId, e, loads, str) == Ok(())
    ensures e.event == FailedEvent(PublishTemplate)
            && "errorCode" in loads(e.data).value.fields
            && loads(e.data).value.fields["errorCode"] == JString("name_conflict")
            && "error" in loads(e.data).value.fields ==>
      Decisive(PublishTemplate, projectId, e, loads)
      && Outcome(PublishTemplate, projectId, e, loads, str)
         == Err(TemplatePublishingError(loads(e.data).value.fields["error"]))
  {
    assert StartsWith(CompletedEvent(PublishTemplate), EventPrefix(PublishTemplate));
    assert StartsWith(FailedEvent(PublishTemplate), EventPrefix(PublishTemplate));
  }
}
