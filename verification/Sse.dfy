/**
 * The frames of a streamed answer (services/gateway/streaming.py, `_sse`) and the event
 * stream parser of section 9.2.6 of the WHATWG HTML standard, over decoded text.
 */
module Sse {
  import opened Wrappers
  import opened Json
  import opened BedrockClient

  datatype Frame =
    | Delta(text: string)
    | StreamError(message: string, requestId: string)
    | DoneMarker
    | Summary(aborted: bool, final: Option<StreamChunk>)

  function OptionalText(s: Option<string>): Value {
    match s
    case None => Null
    case Some(text) => Text(text)
  }

  function OptionalInt(i: Option<int>): Value {
    match i
    case None => Null
    case Some(n) => Int(n)
  }

  function ErrorData(message: string, requestId: string): Value {
    Object(Member("error", Object(
      Member("code", Text("UPSTREAM_ERROR"),
      Member("message", Text(message),
      Member("request_id", Text(requestId), EndMembers)))), EndMembers))
  }

  function Usage(inputTokens: Option<int>, outputTokens: Option<int>): Value {
    Object(Member("input_tokens", OptionalInt(inputTokens),
                  Member("output_tokens", OptionalInt(outputTokens), EndMembers)))
  }

  function SummaryData(aborted: bool, stopReason: Option<string>, usage: Value): Value {
    Object(
      Member("done", Bool(true),
      Member("aborted", Bool(aborted),
      Member("stop_reason", OptionalText(stopReason),
      Member("usage", usage, EndMembers)))))
  }

  /** The JSON value in the frame's data. */
  function Data(f: Frame): Value {
    match f
    case Delta(text) => Object(Member("delta", Text(text), EndMembers))
    case StreamError(message, requestId) => ErrorData(message, requestId)
    case DoneMarker => Object(EndMembers)
    case Summary(aborted, None) => SummaryData(aborted, None, Usage(None, None))
    case Summary(aborted, Some(chunk)) =>
      SummaryData(aborted, chunk.stopReason, Usage(chunk.inputTokens, chunk.outputTokens))
  }

  function EventName(f: Frame): Option<string> {
    if f.DoneMarker? then Some("done") else None
  }

  /** `_sse`: the event's name if it has one, its data on one line, and a blank line. */
  function Format(data: Value, event: Option<string>): string {
    var line := "data: " + Dumps(SPACED, data) + "\n" + "\n";
    match event
    case None => line
    case Some(name) => "event: " + name + "\n" + line
  }

  /** One frame as it goes over the wire. */
  function Render(f: Frame): string {
    Format(Data(f), EventName(f))
  }

  function Wire(frames: seq<Frame>): string {
    if frames == [] then "" else Render(frames[0]) + Wire(frames[1..])
  }

  // ----- The receiving side -----

  datatype Event = Event(kind: string, data: string)

  /** The first line, ended by LF, CR or CR LF, and what follows it. */
  function TakeLine(input: string): (r: Option<(string, string)>)
    ensures r.Some? ==> |r.value.1| < |input|
  {
    if input == "" then None
    else if input[0] == '\n' then Some(("", input[1..]))
    else if input[0] == '\r' then
      if |input| > 1 && input[1] == '\n' then Some(("", input[2..])) else Some(("", input[1..]))
    else
      var (line, rest) :- TakeLine(input[1..]);
      Some(([input[0]] + line, rest))
  }

  /** A line up to its first colon, and the value after it without one leading space. */
  function Field(line: string): (string, string) {
    if line == "" then ("", "")
    else if line[0] == ':' then
      if |line| > 1 && line[1] == ' ' then ("", line[2..]) else ("", line[1..])
    else
      var (name, value) := Field(line[1..]);
      ([line[0]] + name, value)
  }

  /** The events dispatched from here on, given the data and event type buffers. */
  function Parse(input: string, data: string, kind: string): seq<Event>
    decreases |input|
  {
    match TakeLine(input)
    case None => []
    case Some((line, rest)) =>
      if line == "" then
        if data == "" then Parse(rest, "", "")
        else [Event(if kind == "" then "message" else kind, data[..|data| - 1])] + Parse(rest, "", "")
      else
        var (name, value) := Field(line);
        if name == "data" then Parse(rest, data + value + "\n", kind)
        else if name == "event" then Parse(rest, data, value)
        else Parse(rest, data, kind)
  }

  // ----- What is sent is what is received -----

  function Dispatched(f: Frame): Event {
    Event(if f.DoneMarker? then "done" else "message", Dumps(SPACED, Data(f)))
  }

  function DispatchedAll(frames: seq<Frame>): seq<Event> {
    if frames == [] then [] else [Dispatched(frames[0])] + DispatchedAll(frames[1..])
  }

  predicate NoBreak(s: string) {
    forall c | c in s :: c != '\n' && c != '\r'
  }

  lemma {:induction false} TakesLine(line: string, rest: string)
    requires NoBreak(line)
    ensures TakeLine(line + "\n" + rest) == Some((line, rest))
  {
    var input := line + "\n" + rest;
    if line == "" {
      assert input[1..] == rest;
    } else {
      assert line[0] in line;
      assert input[0] == line[0] && input[1..] == line[1..] + "\n" + rest;
      assert forall c | c in line[1..] :: c in line;
      TakesLine(line[1..], rest);
      assert [line[0]] + line[1..] == line;
    }
  }

  lemma {:induction false} SplitsField(name: string, value: string)
    requires ':' !in name
    ensures Field(name + ": " + value) == (name, value)
  {
    var line := name + ": " + value;
    if name == "" {
      assert line[0] == ':' && line[1] == ' ' && line[2..] == value;
    } else {
      assert line[0] == name[0] && line[1..] == name[1..] + ": " + value;
      SplitsField(name[1..], value);
      assert [name[0]] + name[1..] == name;
    }
  }

  /** One field line fills its buffer. */
  lemma ParsesField(name: string, value: string, rest: string, data: string, kind: string)
    requires name != "" && NoBreak(name + ": " + value) && ':' !in name
    ensures Parse(name + ": " + value + "\n" + rest, data, kind)
            == if name == "data" then Parse(rest, data + value + "\n", kind)
               else if name == "event" then Parse(rest, data, value)
               else Parse(rest, data, kind)
  {
    TakesLine(name + ": " + value, rest);
    SplitsField(name, value);
  }

  /** The blank line dispatches. */
  lemma ParsesBlank(rest: string, data: string, kind: string)
    requires data != ""
    ensures Parse("\n" + rest, data, kind)
            == [Event(if kind == "" then "message" else kind, data[..|data| - 1])] + Parse(rest, "", "")
  {
    assert ("\n" + rest)[1..] == rest;
  }

  lemma ParsesData(payload: string, rest: string, kind: string)
    requires NoBreak(payload)
    ensures Parse("data: " + payload + "\n" + ("\n" + rest), "", kind)
            == [Event(if kind == "" then "message" else kind, payload)] + Parse(rest, "", "")
  {
    var line := "data: " + payload;
    assert line == "data" + ": " + payload && NoBreak(line);
    ParsesField("data", payload, "\n" + rest, "", kind);
    ParsesBlank(rest, payload + "\n", kind);
    assert "" + payload + "\n" == payload + "\n";
    assert (payload + "\n")[..|payload|] == payload;
  }

  lemma {:induction false} DumpsPrintable(v: Value)
    ensures Printable(Dumps(SPACED, v))
    decreases v, 0
  {
    match v
    case Text(text) => EscapePrintable(text);
    case Array(items) => ItemsPrintable(items, true);
    case Object(members) => MembersPrintable(members, true);
    case _ =>
  }

  lemma {:induction false} ItemsPrintable(items: Items, first: bool)
    ensures Printable(DumpsItems(SPACED, items, first))
    decreases items, 1
  {
    match items
    case EndItems =>
    case Item(v, others) =>
      DumpsPrintable(v);
      ItemsPrintable(others, false);
  }

  lemma {:induction false} MembersPrintable(members: Members, first: bool)
    ensures Printable(DumpsMembers(SPACED, members, first))
    decreases members, 1
  {
    match members
    case EndMembers =>
    case Member(name, v, more) =>
      EscapePrintable(name);
      DumpsPrintable(v);
      MembersPrintable(more, false);
  }

  lemma DataReceived(payload: string, rest: string, kind: string)
    requires NoBreak(payload)
    ensures Parse("data: " + payload + "\n" + "\n" + rest, "", kind)
            == [Event(if kind == "" then "message" else kind, payload)] + Parse(rest, "", "")
  {
    ParsesData(payload, rest, kind);
    assert "data: " + payload + "\n" + "\n" + rest == "data: " + payload + "\n" + ("\n" + rest);
  }

  lemma NameReceived(line: string, rest: string)
    ensures Parse("event: done\n" + line + rest, "", "") == Parse(line + rest, "", "done")
  {
    ParsesField("event", "done", line + rest, "", "");
    assert "event: done\n" + line + rest == "event" + ": " + "done" + "\n" + (line + rest);
  }

  lemma FormatRoundTrip(data: Value, event: Option<string>, rest: string)
    requires event == None || event == Some("done")
    ensures Parse(Format(data, event) + rest, "", "")
            == [Event(if event.Some? then "done" else "message", Dumps(SPACED, data))] + Parse(rest, "", "")
  {
    var payload := Dumps(SPACED, data);
    DumpsPrintable(data);
    PrintableNoBreak(payload);
    if event.Some? {
      DataReceived(payload, rest, "done");
      NameReceived("data: " + payload + "\n" + "\n", rest);
      assert "event: " + "done" + "\n" == "event: done\n";
    } else {
      DataReceived(payload, rest, "");
    }
  }

  /** Whatever follows it, a frame is received as exactly its event. */
  lemma FrameRoundTrip(f: Frame, rest: string)
    ensures Parse(Render(f) + rest, "", "") == [Dispatched(f)] + Parse(rest, "", "")
  {
    FormatRoundTrip(Data(f), EventName(f), rest);
  }

  lemma PrintableNoBreak(s: string)
    requires Printable(s)
    ensures NoBreak(s)
  {
  }

  /** For every sequence of frames the receiver dispatches exactly the events that were sent, in order. */
  lemma {:induction false} WireRoundTrip(frames: seq<Frame>)
    ensures Parse(Wire(frames), "", "") == DispatchedAll(frames)
  {
    if frames != [] {
      FrameRoundTrip(frames[0], Wire(frames[1..]));
      WireRoundTrip(frames[1..]);
    }
  }

  /** And the data of each event decodes to the value that was put in. */
  lemma DataRoundTrip(f: Frame)
    ensures Read(SPACED, Dispatched(f).data) == Some((Data(f), ""))
  {
    DumpsInverts(SPACED, Data(f), "");
    assert Dispatched(f).data + "" == Dispatched(f).data;
  }

  // ----- What a client finds under each name -----

  function Named(members: Members, name: string): Option<Value> {
    match members
    case EndMembers => None
    case Member(n, value, more) => if n == name then Some(value) else Named(more, name)
  }

  function Get(v: Value, name: string): Option<Value> {
    if v.Object? then Named(v.members, name) else None
  }

  lemma Skip(n: string, value: Value, more: Members, name: string)
    requires n != name
    ensures Named(Member(n, value, more), name) == Named(more, name)
  {
  }

  /** Each part of a frame is found in its data under its own name. */
  lemma DataByName(f: Frame)
    ensures match f
            case Delta(text) => Get(Data(f), "delta") == Some(Text(text))
            case StreamError(message, requestId) =>
              Get(Data(f), "error").Some? &&
              var error := Get(Data(f), "error").value;
              && Get(error, "code") == Some(Text("UPSTREAM_ERROR")) && Get(error, "message") == Some(Text(message))
              && Get(error, "request_id") == Some(Text(requestId))
            case DoneMarker => forall name :: Get(Data(f), name) == None
            case Summary(aborted, final) =>
              && Get(Data(f), "done") == Some(Bool(true)) && Get(Data(f), "aborted") == Some(Bool(aborted))
              && Get(Data(f), "stop_reason") == Some(OptionalText(if final.Some? then final.value.stopReason else None))
              && Get(Data(f), "usage").Some? &&
              var usage := Get(Data(f), "usage").value;
              && Get(usage, "input_tokens") == Some(OptionalInt(if final.Some? then final.value.inputTokens else None))
              && Get(usage, "output_tokens")
                 == Some(OptionalInt(if final.Some? then final.value.outputTokens else None))
  {
    match f
    case Delta(_) =>
    case DoneMarker =>
    case StreamError(message, requestId) =>
      var last := Member("request_id", Text(requestId), EndMembers);
      var rest := Member("message", Text(message), last);
      Skip("code", Text("UPSTREAM_ERROR"), rest, "message");
      Skip("code", Text("UPSTREAM_ERROR"), rest, "request_id");
      Skip("message", Text(message), last, "request_id");
    case Summary(aborted, final) =>
      var chunk := if final.Some? then final.value else StreamChunk("", true, None, None, None);
      var output := Member("output_tokens", OptionalInt(chunk.outputTokens), EndMembers);
      Skip("input_tokens", OptionalInt(chunk.inputTokens), output, "output_tokens");
      var usage := Member("usage", Usage(chunk.inputTokens, chunk.outputTokens), EndMembers);
      var stop := Member("stop_reason", OptionalText(chunk.stopReason), usage);
      var abort := Member("aborted", Bool(aborted), stop);
      Skip("done", Bool(true), abort, "aborted");
      Skip("done", Bool(true), abort, "stop_reason");
      Skip("done", Bool(true), abort, "usage");
      Skip("aborted", Bool(aborted), stop, "stop_reason");
      Skip("aborted", Bool(aborted), stop, "usage");
      Skip("stop_reason", OptionalText(chunk.stopReason), usage, "usage");
  }

  /** The text of a delta, if this is one. */
  function DeltaText(data: Value): Option<string> {
    match Get(data, "delta")
    case Some(Text(text)) => Some(text)
    case _ => None
  }

  lemma OnlyDeltasHaveText(f: Frame)
    ensures DeltaText(Data(f)) == if f.Delta? then Some(f.text) else None
  {
    match f
    case Delta(_) =>
    case DoneMarker =>
    case StreamError(message, requestId) =>
      assert "error"[0] != "delta"[0];
      Skip("error", Data(f).members.value, EndMembers, "delta");
    case Summary(aborted, final) =>
      var chunk := if final.Some? then final.value else StreamChunk("", true, None, None, None);
      var usage := Member("usage", Usage(chunk.inputTokens, chunk.outputTokens), EndMembers);
      var stop := Member("stop_reason", OptionalText(chunk.stopReason), usage);
      assert "usage"[0] != "delta"[0];
      Skip("done", Bool(true), Member("aborted", Bool(aborted), stop), "delta");
      Skip("aborted", Bool(aborted), stop, "delta");
      Skip("stop_reason", OptionalText(chunk.stopReason), usage, "delta");
      Skip("usage", usage.value, EndMembers, "delta");
  }

  /** What a client reads: the text of every event whose data decodes to a delta, in order. */
  function ClientText(events: seq<Event>): seq<string> {
    if events == [] then [] else
    var rest := ClientText(events[1..]);
    match Read(SPACED, events[0].data)
    case Some((data, _)) => if DeltaText(data).Some? then [DeltaText(data).value] + rest else rest
    case None => rest
  }
}
