/**
 * The request/response records of app/models/agent.py and the Server-Sent
 * Events framing of a response (section 9.2 of the WHATWG HTML Living
 * Standard, "Server-sent events").
 */
module AgentModels {
  import opened Outcomes

  /** `AgentRequest`: the question, in natural language. */
  datatype AgentRequest = AgentRequest(request: string)

  /** `AgentResponseType`, a string enum with exactly two members. */
  datatype AgentResponseType = Error | Message {
    /** The member's string value. */
    function Value(): string {
      match this
      case Error => "error"
      case Message => "message"
    }
  }

  /** `AgentResponseType(value)`: looks a member up by its string value. */
  function ParseResponseType(value: string): Option<AgentResponseType> {
    if value == "error" then Some(Error)
    else if value == "message" then Some(Message)
    else None
  }

  /** The two members have distinct values, and the lookup by value finds
      exactly the two members and nothing else. */
  lemma ResponseTypeValues(t: AgentResponseType, value: string)
    ensures t.Value() == "error" || t.Value() == "message"
    ensures ParseResponseType(t.Value()) == Some(t)
    ensures ParseResponseType(value).Some? ==> ParseResponseType(value).value.Value() == value
    ensures ParseResponseType(value).Some? <==> value == "error" || value == "message"
  {
    assert "error" != "message" by {
      assert "error"[0] != "message"[0];
    }
  }

  /** `ENTITY_SYSTEM`. */
  const ENTITY_SYSTEM: string := "system"

  /** `AgentMessage`: who speaks and what is said. */
  datatype AgentMessage = AgentMessage(entity: string, message: string)

  /** `AgentResponse`: a response type and its detail. The field the source
      calls `type` is named `kind` here, `type` being a Dafny keyword. */
  datatype AgentResponse = AgentResponse(kind: AgentResponseType, detail: AgentMessage)

  /** The keyword arguments a caller passes to the `AgentResponse`
      constructor, for its two declared fields; an argument naming no field
      is not represented, pydantic ignoring it. */
  datatype ResponseFields = ResponseFields(kind: Option<AgentResponseType>, detail: Option<AgentMessage>)

  /** pydantic's validation in `AgentResponse(...)`: both fields are required
      (a `ValidationError` otherwise). */
  function ValidateResponse(fields: ResponseFields): (r: Result<AgentResponse, string>)
    ensures r.Success? <==> fields.kind.Some? && fields.detail.Some?
    ensures r.Success? ==> r.value.kind == fields.kind.value && r.value.detail == fields.detail.value
  {
    match (fields.kind, fields.detail)
    case (Some(k), Some(d)) => Success(AgentResponse(k, d))
    case _ => Failure("Field required")
  }

  // ------------------------------------------------------------ SSE framing

  const DATA_PREFIX: string := "data: "
  const EVENT_END: string := "\n\n"

  /** `AgentResponse.to_stream_response_data`: the response's JSON as one SSE
      `data` field followed by the blank line that ends the event.
      `modelDumpJson` stands for pydantic's `model_dump_json`. */
  function ToStreamResponseData(r: AgentResponse, modelDumpJson: AgentResponse -> string): (frame: string)
    ensures |frame| == |modelDumpJson(r)| + 8
    ensures frame[..6] == "data: "
    ensures frame[|frame| - 2..] == "\n\n"
  {
    DATA_PREFIX + modelDumpJson(r) + EVENT_END
  }

  /** Recovers the payload of a frame built by `ToStreamResponseData`:
      drops the 6-character prefix and the 2-character terminator. */
  function FramePayload(frame: string): Option<string> {
    if |frame| >= 8 && frame[..6] == DATA_PREFIX && frame[|frame| - 2..] == EVENT_END
    then Some(frame[6..|frame| - 2])
    else None
  }

  /** Framing and unframing are inverse: the payload of a frame is the JSON it
      was built from, and a string with a payload is exactly the frame of it. */
  lemma FramePayloadRoundTrip(r: AgentResponse, modelDumpJson: AgentResponse -> string, frame: string)
    ensures FramePayload(ToStreamResponseData(r, modelDumpJson)) == Some(modelDumpJson(r))
    ensures FramePayload(frame).Some? ==> frame == DATA_PREFIX + FramePayload(frame).value + EVENT_END
  {
    var json := modelDumpJson(r);
    var f := ToStreamResponseData(r, modelDumpJson);
    assert f[6..|f| - 2] == json;
    if FramePayload(frame).Some? {
      assert frame == frame[..6] + frame[6..|frame| - 2] + frame[|frame| - 2..];
    }
  }

  // ------------------------------------------------------------ SSE reading

  predicate IsLineBreak(c: char) {
    c == '\n' || c == '\r'
  }

  /** Index of the first character of `s` in `stops`, or `|s|` if none. */
  function FirstOf(s: string, stops: set<char>): (i: nat)
    ensures i <= |s|
  {
    if |s| == 0 || s[0] in stops then 0 else 1 + FirstOf(s[1..], stops)
  }

  lemma {:induction false} FirstOfAt(s: string, stops: set<char>, i: nat)
    requires i <= |s|
    requires forall k :: 0 <= k < i ==> s[k] !in stops
    requires i == |s| || s[i] in stops
    ensures FirstOf(s, stops) == i
  {
    if i > 0 {
      FirstOfAt(s[1..], stops, i - 1);
    }
  }

  /** The value of a `data` line, or `None` for any other line: the field
      name runs up to the first colon, and one space after it is dropped. */
  function DataValue(line: string): Option<string> {
    var c := FirstOf(line, {':'});
    if line[..c] != "data" then None
    else if c == |line| then Some("")
    else
      var v := line[c + 1..];
      Some(if |v| > 0 && v[0] == ' ' then v[1..] else v)
  }

  /** The data of the first event of an SSE stream, read line by line as the
      standard's event-stream interpretation does for `data` fields: each
      `data` line appends its value and a line feed to the buffer, other lines
      are ignored, and a blank line dispatches the buffer without its final
      line feed (a blank line with an empty buffer dispatches nothing). */
  function FirstEventData(stream: string, buffer: string): Option<string>
    decreases |stream|
  {
    var e := FirstOf(stream, {'\n', '\r'});
    if e == |stream| then None
    else
      var line := stream[..e];
      var next := if stream[e] == '\r' && e + 1 < |stream| && stream[e + 1] == '\n' then e + 2 else e + 1;
      if line == [] then
        if buffer == [] then FirstEventData(stream[next..], buffer)
        else Some(buffer[..|buffer| - 1])
      else
        match DataValue(line)
        case Some(v) => FirstEventData(stream[next..], buffer + v + "\n")
        case None => FirstEventData(stream[next..], buffer)
  }

  /** An SSE client reading a frame whose JSON holds no raw line break (JSON
      escapes them) receives exactly that JSON as the data of one event. */
  lemma FrameIsOneEvent(r: AgentResponse, modelDumpJson: AgentResponse -> string)
    requires forall k :: 0 <= k < |modelDumpJson(r)| ==> !IsLineBreak(modelDumpJson(r)[k])
    ensures FirstEventData(ToStreamResponseData(r, modelDumpJson), "") == Some(modelDumpJson(r))
  {
    var json := modelDumpJson(r);
    var f := ToStreamResponseData(r, modelDumpJson);
    var line := DATA_PREFIX + json;
    assert f == line + "\n\n";
    FirstOfAt(f, {'\n', '\r'}, |line|);
    assert f[..|line|] == line;
    FirstOfAt(line, {':'}, 4);
    assert line[..4] == "data";
    assert line[5..] == " " + json;
    assert DataValue(line) == Some(json);
    assert f[|line|] == '\n' && line != [];
    assert f[|line| + 1..] == "\n";
    assert "" + json + "\n" == json + "\n";
    assert FirstEventData(f, "") == FirstEventData("\n", json + "\n");
    assert FirstEventData("\n", json + "\n") == Some(json);
  }
}
