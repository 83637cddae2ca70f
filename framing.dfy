/** The server side of the push stream (backend/src/routes/chats.ts): each event the
    relay enqueues goes on the wire as one `text/event-stream` frame,
    `"data: " + JSON.stringify(payload) + "\n\n"`. The JSON serialiser and parser are
    parameters; what the framing needs of them is stated as a predicate. */
module Framing {
  import opened Common
  import opened Types

  const DataPrefix := "data: "

  /** A stream payload as JSON sees it: the `type` tag and the fields a reader may ask
      for. A field the object does not have is `None`. */
  datatype Payload = Payload(kind: string, message: Option<Message>, content: Option<string>, error: Option<string>)

  /** `JSON.stringify`, and `JSON.parse` giving the value or its `SyntaxError` message. */
  datatype Json = Json(stringify: Payload -> string, parse: string -> Result<Payload>)

  /** The object literal the relay serialises for each event. */
  function PayloadOf(e: Event): (p: Payload)
    ensures e.UserMessageEvent? <==> p.kind == "userMessage"
    ensures e.ChunkEvent? <==> p.kind == "chunk"
    ensures e.DoneEvent? <==> p.kind == "done"
    ensures e.ErrorEvent? <==> p.kind == "error"
  {
    match e
    case UserMessageEvent(m) => Payload("userMessage", Some(m), None, None)
    case ChunkEvent(c) => Payload("chunk", None, Some(c), None)
    case DoneEvent(m) => Payload("done", Some(m), None, None)
    case ErrorEvent(msg) => Payload("error", None, None, Some(msg))
  }

  /** Distinct events are serialised from distinct payloads. */
  lemma {:induction false} PayloadOfInjective(e1: Event, e2: Event)
    requires PayloadOf(e1) == PayloadOf(e2)
    ensures e1 == e2
  {
  }

  predicate NoNewline(s: string) {
    forall i :: 0 <= i < |s| ==> s[i] != '\n'
  }

  /** What framing relies on for one event: its JSON text is a single line (JSON
      escapes newlines inside strings) and parses back to the same payload. */
  predicate RoundTrips(json: Json, e: Event) {
    NoNewline(json.stringify(PayloadOf(e))) && json.parse(json.stringify(PayloadOf(e))) == Ok(PayloadOf(e))
  }

  /** One event on the wire. */
  function Frame(json: Json, e: Event): string {
    DataPrefix + json.stringify(PayloadOf(e)) + "\n\n"
  }

  /** Everything the stream has carried: the frames of its events, in order. */
  function Wire(json: Json, es: seq<Event>): string {
    if es == [] then "" else Wire(json, es[..|es| - 1]) + Frame(json, es[|es| - 1])
  }

  /** A frame's text ends with the blank line that separates it from the next. */
  lemma {:induction false} FrameShape(json: Json, e: Event)
    ensures var f := Frame(json, e);
      StartsWith(f, DataPrefix) && |f| >= |DataPrefix| + 2 && f[|f| - 2..] == "\n\n" &&
      f[|DataPrefix|..|f| - 2] == json.stringify(PayloadOf(e))
  {
    var s := json.stringify(PayloadOf(e));
    var f := Frame(json, e);
    assert f == DataPrefix + (s + "\n\n");
    assert f[..|DataPrefix|] == DataPrefix;
  }
}
