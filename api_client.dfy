/** The browser client (frontend/src/lib/api.ts): the header and error rules of
    `request`, and `sendMessageStream`, which decodes the push stream line by line and
    calls one callback per `data: ` line. `fetch` is a parameter from the request
    headers to the response; the stream body is the sequence of texts `read()`
    returned, already decoded. */
module ApiClient {
  import opened Common
  import opened Types
  import opened Framing
  import Middleware

  const UnknownError := "An error occurred"
  const NoResponseBody := "No response body"
  const JsonContentType := "application/json"

  // ---------------------------------------------------------------- request

  /** The headers `request` sends: `Content-Type` first, then the caller's own headers
      over it, then `Authorization` when a token is stored. */
  function Headers(token: Option<string>, given: map<string, string>): (h: map<string, string>)
    ensures Truthy(token) ==> "Authorization" in h && h["Authorization"] == "Bearer " + token.value
    ensures !Truthy(token) ==> ("Authorization" in h <==> "Authorization" in given)
    ensures forall k :: k in given && (k != "Authorization" || !Truthy(token)) ==> k in h && h[k] == given[k]
    ensures "Content-Type" in h && ("Content-Type" !in given ==> h["Content-Type"] == JsonContentType)
    ensures h.Keys == given.Keys + {"Content-Type"} + (if Truthy(token) then {"Authorization"} else {})
  {
    var base := map["Content-Type" := JsonContentType] + given;
    if Truthy(token) then base["Authorization" := "Bearer " + token.value] else base
  }

  /** The server's middleware reads back exactly the token the client stored. */
  lemma {:induction false} ServerSeesStoredToken(token: Option<string>, given: map<string, string>)
    requires Truthy(token)
    ensures Middleware.BearerToken(Some(Headers(token, given)["Authorization"])) == Some(token.value)
  {
    Middleware.BearerTokenRoundTrip(token.value);
  }

  /** What `fetch` answers: `ok`, the status, the `error` field of the JSON body
      (`None` when the body is not JSON) and the body as parsed on success. */
  datatype Response = Response(ok: bool, status: int, errorJson: Option<Option<string>>, json: string)

  /** How `request` ends: it throws with a message, returns `{}`, or returns the body. */
  datatype RequestResult = Threw(message: string) | EmptyObject | Parsed(value: string)

  /** `error.error || "An error occurred"`, where a body that is not JSON counts as
      `{ error: "An error occurred" }`: the server's message when it sent a non-empty
      one, else the fixed text; never empty. */
  function ErrorMessage(errorJson: Option<Option<string>>): (m: string)
    ensures m != ""
    ensures errorJson.Some? && Truthy(errorJson.value) ==> m == errorJson.value.value
    ensures !(errorJson.Some? && Truthy(errorJson.value)) ==> m == UnknownError
  {
    if errorJson.Some? && Truthy(errorJson.value) then errorJson.value.value else UnknownError
  }

  /** `request`: builds the header record, then throws on a non-ok status, returns `{}`
      on 204, and the parsed body otherwise. */
  method Request(token: Option<string>, given: map<string, string>, fetch: map<string, string> -> Response)
    returns (headers: map<string, string>, result: RequestResult)
    ensures headers == Headers(token, given)
    ensures !fetch(headers).ok ==> result == Threw(ErrorMessage(fetch(headers).errorJson))
    ensures fetch(headers).ok && fetch(headers).status == 204 ==> result == EmptyObject
    ensures fetch(headers).ok && fetch(headers).status != 204 ==> result == Parsed(fetch(headers).json)
  {
    headers := map["Content-Type" := JsonContentType] + given;
    if Truthy(token) {
      headers := headers["Authorization" := "Bearer " + token.value];
    }
    var response := fetch(headers);
    if !response.ok {
      return headers, Threw(ErrorMessage(response.errorJson));
    }
    if response.status == 204 {
      return headers, EmptyObject;
    }
    result := Parsed(response.json);
  }

  // ---------------------------------------------------------------- split("\n")

  /** `s.split("\n")`: the pieces between newlines, always at least one. */
  function Lines(s: string): (r: seq<string>)
    ensures |r| >= 1
    ensures forall i :: 0 <= i < |r| ==> NoNewline(r[i])
  {
    if s == [] then [""]
    else
      var rest := Lines(s[1..]);
      if s[0] == '\n' then [""] + rest else [[s[0]] + rest[0]] + rest[1..]
  }

  /** `ls.join("\n")`. */
  function Join(ls: seq<string>): string
    requires |ls| >= 1
  {
    if |ls| == 1 then ls[0] else ls[0] + "\n" + Join(ls[1..])
  }

  /** Joining the pieces gives back the text. */
  lemma {:induction false} JoinLines(s: string)
    ensures Join(Lines(s)) == s
  {
    if s != [] {
      var rest := Lines(s[1..]);
      JoinLines(s[1..]);
      if s[0] == '\n' {
        assert ([""] + rest)[1..] == rest;
      } else {
        var r := Lines(s);
        if |rest| > 1 {
          assert r[1..] == rest[1..];
          assert Join(rest) == rest[0] + "\n" + Join(rest[1..]);
          assert Join(r) == ([s[0]] + rest[0]) + "\n" + Join(rest[1..]);
        }
        assert Join(r) == [s[0]] + Join(rest);
        assert s == [s[0]] + s[1..];
      }
    }
  }

  lemma {:induction false} LinesOfLine(a: string)
    requires NoNewline(a)
    ensures Lines(a) == [a]
  {
    if a != [] {
      LinesOfLine(a[1..]);
      assert [a[0]] + a[1..] == a;
    }
  }

  /** A newline after a newline-free text ends exactly one piece. */
  lemma {:induction false} LinesSep(a: string, b: string)
    requires NoNewline(a)
    ensures Lines(a + "\n" + b) == [a] + Lines(b)
  {
    var s := a + "\n" + b;
    if a == [] {
      assert s == "\n" + b && s[1..] == b;
    } else {
      assert s[1..] == a[1..] + "\n" + b;
      LinesSep(a[1..], b);
      assert [a[0]] + a[1..] == a;
    }
  }

  /** Splitting newline-free pieces joined by newlines gives back the pieces. */
  lemma {:induction false} SplitJoin(ls: seq<string>)
    requires |ls| >= 1 && forall i :: 0 <= i < |ls| ==> NoNewline(ls[i])
    ensures Lines(Join(ls)) == ls
  {
    if |ls| == 1 {
      LinesOfLine(ls[0]);
    } else {
      SplitJoin(ls[1..]);
      LinesSep(ls[0], Join(ls[1..]));
      assert [ls[0]] + ls[1..] == ls;
    }
  }

  /** The pieces before the last: the lines a newline has ended. */
  function CompleteLines(text: string): seq<string> {
    var ls := Lines(text);
    ls[..|ls| - 1]
  }

  /** The last piece: the text after the last newline. */
  function Remainder(text: string): string {
    var ls := Lines(text);
    ls[|ls| - 1]
  }

  /** Appending text changes only the last piece: the lines already ended stay, and
      the last piece with the new text is split on its own. */
  /** Splitting text that starts with a known character. */
  lemma {:induction false} LinesCons(c: char, u: string)
    ensures Lines([c] + u) ==
      if c == '\n' then [""] + Lines(u) else [[c] + Lines(u)[0]] + Lines(u)[1..]
  {
    assert ([c] + u)[1..] == u;
  }

  /** The ended lines and the last piece of text that starts with a known character. */
  lemma {:induction false} PartsCons(c: char, u: string)
    ensures c == '\n' ==>
      CompleteLines([c] + u) == [""] + CompleteLines(u) && Remainder([c] + u) == Remainder(u)
    ensures c != '\n' && |Lines(u)| > 1 ==>
      CompleteLines([c] + u) == [[c] + Lines(u)[0]] + CompleteLines(u)[1..] && Remainder([c] + u) == Remainder(u)
    ensures c != '\n' && |Lines(u)| == 1 ==>
      CompleteLines([c] + u) == [] && Remainder([c] + u) == [c] + Remainder(u)
  {
    LinesCons(c, u);
    var l := Lines(u);
    if c == '\n' {
      ConsInit("", l);
    } else if |l| > 1 {
      ReplaceHeadInit([c] + l[0], l);
    }
  }

  lemma ConsInit<T>(x: T, l: seq<T>)
    requires |l| >= 1
    ensures ([x] + l)[..|l|] == [x] + l[..|l| - 1]
  {
  }

  lemma ReplaceHeadInit<T>(x: T, l: seq<T>)
    requires |l| >= 2
    ensures ([x] + l[1..])[..|l| - 1] == [x] + l[..|l| - 1][1..]
  {
  }

  /** One step of `LinesAppend`, for each kind of leading character. */
  lemma {:induction false} LinesAppendNewline(u: string, t: string)
    requires Lines(u + t) == CompleteLines(u) + Lines(Remainder(u) + t)
    ensures Lines(['\n'] + (u + t)) == CompleteLines(['\n'] + u) + Lines(Remainder(['\n'] + u) + t)
  {
    LinesCons('\n', u + t);
    PartsCons('\n', u);
    var done, tail := CompleteLines(u), Lines(Remainder(u) + t);
    AppendAssoc([""], done, tail);
  }

  lemma {:induction false} LinesAppendInside(c: char, u: string, t: string)
    requires c != '\n' && |Lines(u)| > 1
    requires Lines(u + t) == CompleteLines(u) + Lines(Remainder(u) + t)
    ensures Lines([c] + (u + t)) == CompleteLines([c] + u) + Lines(Remainder([c] + u) + t)
  {
    LinesCons(c, u + t);
    PartsCons(c, u);
    var done, tail := CompleteLines(u), Lines(Remainder(u) + t);
    assert (done + tail)[0] == Lines(u)[0];
    ReplaceHead([c] + Lines(u)[0], done, tail);
  }

  lemma ReplaceHead<T>(x: T, d: seq<T>, tl: seq<T>)
    requires |d| >= 1
    ensures [x] + (d + tl)[1..] == ([x] + d[1..]) + tl
  {
    assert (d + tl)[1..] == d[1..] + tl;
  }

  lemma {:induction false} LinesAppendLast(c: char, u: string, t: string)
    requires c != '\n' && |Lines(u)| == 1
    requires Lines(u + t) == CompleteLines(u) + Lines(Remainder(u) + t)
    ensures Lines([c] + (u + t)) == CompleteLines([c] + u) + Lines(Remainder([c] + u) + t)
  {
    var r := Remainder(u);
    PartsCons(c, u);
    AppendAssoc([c], r, t);
    assert CompleteLines(u) == [];
    EmptyAppend(Lines(r + t));
    LinesCons(c, u + t);
    LinesCons(c, r + t);
    EmptyAppend(Lines([c] + (r + t)));
  }

  lemma AppendAssoc<T>(a: seq<T>, b: seq<T>, c: seq<T>)
    ensures (a + b) + c == a + (b + c)
  {
  }

  lemma EmptyAppend<T>(s: seq<T>)
    ensures [] + s == s
  {
  }

  lemma {:induction false} LinesAppend(s: string, t: string)
    ensures Lines(s + t) == CompleteLines(s) + Lines(Remainder(s) + t)
  {
    if s == [] {
      assert s + t == t;
    } else {
      var c, u := s[0], s[1..];
      assert s == [c] + u;
      assert s + t == [c] + (u + t);
      LinesAppend(u, t);
      if c == '\n' {
        LinesAppendNewline(u, t);
      } else if |Lines(u)| > 1 {
        LinesAppendInside(c, u, t);
      } else {
        LinesAppendLast(c, u, t);
      }
    }
  }

  /** The decoder's buffer step: the lines ended so far grow by the lines the new text
      ends, and the buffer becomes what follows the last newline. */
  lemma {:induction false} ReadStep(seen: string, read: string)
    ensures CompleteLines(seen + read) == CompleteLines(seen) + CompleteLines(Remainder(seen) + read)
    ensures Remainder(seen + read) == Remainder(Remainder(seen) + read)
  {
    LinesAppend(seen, read);
  }

  /** A trailing piece without a newline is held back: it adds no complete line and
      only extends the remainder. */
  lemma {:induction false} TrailingPartialHeld(text: string, partial: string)
    requires NoNewline(partial)
    ensures CompleteLines(text + partial) == CompleteLines(text)
    ensures Remainder(text + partial) == Remainder(text) + partial
  {
    ReadStep(text, partial);
    assert NoNewline(Remainder(text) + partial) by {
      var x := Remainder(text) + partial;
      forall i | 0 <= i < |x| ensures x[i] != '\n' {
        if i >= |Remainder(text)| {
          assert x[i] == partial[i - |Remainder(text)|];
        }
      }
    }
    LinesOfLine(Remainder(text) + partial);
  }

  // ---------------------------------------------------------------- dispatch

  /** The callbacks `sendMessageStream` is given, with the argument each call passed. */
  datatype Callback =
    | OnUserMessage(message: Option<Message>)
    | OnChunk(content: Option<string>)
    | OnComplete(message: Option<Message>)
    | OnError(error: Option<string>)

  /** The `if` chain on `data.type`; an unknown type calls nothing. */
  function Dispatch(p: Payload): seq<Callback> {
    if p.kind == "userMessage" then [OnUserMessage(p.message)]
    else if p.kind == "chunk" then [OnChunk(p.content)]
    else if p.kind == "done" then [OnComplete(p.message)]
    else if p.kind == "error" then [OnError(p.error)]
    else []
  }

  /** The calls decoding has made, and the `JSON.parse` error that stopped it, if any. */
  datatype Decoded = Decoded(calls: seq<Callback>, failure: Option<string>)

  /** The complete lines, in order: each line starting with `data: ` is parsed after
      those six characters and dispatched; other lines are skipped; the first parse
      error ends decoding. */
  function DecodeLines(json: Json, lines: seq<string>): (d: Decoded)
    ensures |d.calls| <= |lines|
  {
    if lines == [] then Decoded([], None)
    else
      var d := DecodeLines(json, lines[..|lines| - 1]);
      var line := lines[|lines| - 1];
      if d.failure.Some? || !StartsWith(line, DataPrefix) then d
      else match json.parse(line[|DataPrefix|..])
        case Err(m) => Decoded(d.calls, Some(m))
        case Ok(p) => Decoded(d.calls + Dispatch(p), None)
  }

  /** Lines are handled one after the other: the calls of a sequence of lines are those
      of its first part followed by those of the rest, unless the first part already
      failed, after which nothing is handled. */
  lemma {:induction false} DecodeAppend(json: Json, a: seq<string>, b: seq<string>)
    ensures var da := DecodeLines(json, a);
      DecodeLines(json, a + b) ==
        if da.failure.Some? then da
        else Decoded(da.calls + DecodeLines(json, b).calls, DecodeLines(json, b).failure)
  {
    if b == [] {
      assert a + b == a;
    } else {
      var init := b[..|b| - 1];
      DecodeAppend(json, a, init);
      assert (a + b)[..|a + b| - 1] == a + init;
      assert (a + b)[|a + b| - 1] == b[|b| - 1];
    }
  }

  /** The calls the stream's text results in: the complete lines decoded, then
      `onError` with the parse error if one stopped it. */
  function Outcome(d: Decoded): seq<Callback> {
    d.calls + (if d.failure.Some? then [OnError(d.failure)] else [])
  }

  function DecodeText(json: Json, text: string): Decoded {
    DecodeLines(json, CompleteLines(text))
  }

  /** Where the reads split the text does not matter, and text after the last newline
      is never decoded. */
  lemma {:induction false} PartialLineDropped(json: Json, text: string, partial: string)
    requires NoNewline(partial)
    ensures DecodeText(json, text + partial) == DecodeText(json, text)
  {
    TrailingPartialHeld(text, partial);
  }

  // ---------------------------------------------------------------- the read loop

  lemma {:induction false} SliceSnoc(lines: seq<string>, j: nat)
    requires j < |lines|
    ensures lines[..j + 1] == lines[..j] + [lines[j]]
  {
  }

  /** The `for (const line of lines)` loop: a `data: ` line is parsed after its six
      characters and dispatched, other lines are skipped, and a parse error ends it. */
  method HandleLines(json: Json, lines: seq<string>) returns (d: Decoded)
    ensures d == DecodeLines(json, lines)
  {
    d := Decoded([], None);
    var j := 0;
    while j < |lines|
      invariant 0 <= j <= |lines|
      invariant d == DecodeLines(json, lines[..j]) && d.failure.None?
    {
      var line := lines[j];
      SliceSnoc(lines, j);
      if StartsWith(line, DataPrefix) {
        var parsed := json.parse(line[|DataPrefix|..]);
        if parsed.Err? {
          d := Decoded(d.calls, Some(parsed.error));
          DecodeAppend(json, lines[..j + 1], lines[j + 1..]);
          assert lines[..j + 1] + lines[j + 1..] == lines;
          return;
        }
        d := Decoded(d.calls + Dispatch(parsed.value), None);
      }
      j := j + 1;
    }
    assert lines[..|lines|] == lines;
  }

  /** The `while (true)` loop of `sendMessageStream` over the texts `read()` returned:
      the buffer takes each text, the pieces but the last are handled, the last is
      kept. A `JSON.parse` error leaves the loop for the `catch`, which calls `onError`. */
  method ReadEventStream(json: Json, received: seq<string>) returns (calls: seq<Callback>)
    ensures calls == Outcome(DecodeText(json, Concat(received)))
  {
    calls := [];
    var buffer := "";
    ghost var seen: seq<string> := [];
    var k := 0;
    while k < |received|
      invariant 0 <= k <= |received|
      invariant seen == CompleteLines(Concat(received[..k])) && buffer == Remainder(Concat(received[..k]))
      invariant DecodeLines(json, seen) == Decoded(calls, None)
    {
      var lines := Lines(buffer + received[k]);
      var ended := lines[..|lines| - 1];
      ReadAdvances(received, k);
      buffer := lines[|lines| - 1];
      var d := HandleLines(json, ended);
      DecodeAppend(json, seen, ended);
      seen := seen + ended;
      if d.failure.Some? {
        StopsAtParseError(json, received, k, seen);
        return calls + d.calls + [OnError(d.failure)];
      }
      calls := calls + d.calls;
      k := k + 1;
    }
    assert received[..|received|] == received;
  }

  /** Read `k` ends the buffered piece's lines and leaves a new buffer, as reading all
      the text so far at once would. */
  lemma {:induction false} ReadAdvances(received: seq<string>, k: nat)
    requires k < |received|
    ensures var before := Concat(received[..k]);
      CompleteLines(before) + CompleteLines(Remainder(before) + received[k]) == CompleteLines(Concat(received[..k + 1])) &&
      Remainder(Remainder(before) + received[k]) == Remainder(Concat(received[..k + 1]))
  {
    assert received[..k + 1] == received[..k] + [received[k]];
    ConcatSnoc(received[..k], received[k]);
    ReadStep(Concat(received[..k]), received[k]);
  }

  /** A parse error in the lines ended by read `k` decides the whole stream: the
      reads after it only add lines that decoding never reaches. */
  lemma {:induction false} StopsAtParseError(json: Json, received: seq<string>, k: nat, done: seq<string>)
    requires k < |received|
    requires CompleteLines(Concat(received[..k + 1])) == done
    requires DecodeLines(json, done).failure.Some?
    ensures DecodeText(json, Concat(received)) == DecodeLines(json, done)
  {
    var head, tail := Concat(received[..k + 1]), Concat(received[k + 1..]);
    assert received[..k + 1] + received[k + 1..] == received;
    ConcatAppend(received[..k + 1], received[k + 1..]);
    assert Concat(received) == head + tail;
    ReadStep(head, tail);
    var more := CompleteLines(Remainder(head) + tail);
    assert CompleteLines(Concat(received)) == done + more;
    DecodeAppend(json, done, more);
  }

  /** What `fetch` answers for the stream request: `ok`, the `error` field of a JSON
      body (`None` when the body is not JSON), and the reader's texts, if there is a body. */
  datatype StreamResponse = StreamResponse(ok: bool, errorJson: Option<Option<string>>, body: Option<seq<string>>)

  /** `sendMessageStream`: a non-ok answer and a missing body each end in one `onError`;
      otherwise the body is decoded as the loop above does. */
  method SendMessageStream(json: Json, token: Option<string>, fetch: map<string, string> -> StreamResponse)
    returns (headers: map<string, string>, calls: seq<Callback>)
    ensures headers == Headers(token, map[])
    ensures !fetch(headers).ok ==> calls == [OnError(Some(ErrorMessage(fetch(headers).errorJson)))]
    ensures fetch(headers).ok && fetch(headers).body.None? ==> calls == [OnError(Some(NoResponseBody))]
    ensures fetch(headers).ok && fetch(headers).body.Some? ==>
      calls == Outcome(DecodeText(json, Concat(fetch(headers).body.value)))
  {
    headers := map["Content-Type" := JsonContentType];
    if Truthy(token) {
      headers := headers["Authorization" := "Bearer " + token.value];
    }
    assert headers == Headers(token, map[]);
    var response := fetch(headers);
    if !response.ok {
      return headers, [OnError(Some(ErrorMessage(response.errorJson)))];
    }
    if response.body.None? {
      return headers, [OnError(Some(NoResponseBody))];
    }
    calls := ReadEventStream(json, response.body.value);
  }

  // ---------------------------------------------------------------- round trip

  /** The callback the client makes for each event the server frames. */
  function CallbackOf(e: Event): Callback {
    match e
    case UserMessageEvent(m) => OnUserMessage(Some(m))
    case ChunkEvent(c) => OnChunk(Some(c))
    case DoneEvent(m) => OnComplete(Some(m))
    case ErrorEvent(msg) => OnError(Some(msg))
  }

  function CallbacksOf(es: seq<Event>): (r: seq<Callback>)
    ensures |r| == |es| && forall i :: 0 <= i < |es| ==> r[i] == CallbackOf(es[i])
  {
    if es == [] then [] else CallbacksOf(es[..|es| - 1]) + [CallbackOf(es[|es| - 1])]
  }

  /** A frame is one `data: ` line and the blank line after it. */
  lemma {:induction false} FrameLines(json: Json, e: Event)
    requires RoundTrips(json, e)
    ensures Lines(Frame(json, e)) == [DataPrefix + json.stringify(PayloadOf(e)), "", ""]
  {
    var line := DataPrefix + json.stringify(PayloadOf(e));
    assert NoNewline(line) by {
      forall i | 0 <= i < |line| ensures line[i] != '\n' {
        if i >= |DataPrefix| {
          assert line[i] == json.stringify(PayloadOf(e))[i - |DataPrefix|];
        }
      }
    }
    assert Frame(json, e) == line + "\n" + ("" + "\n" + "");
    LinesSep(line, "" + "\n" + "");
    LinesSep("", "");
    assert Lines("") == [""];
  }

  /** Appending a frame to text that ends at a line break ends two more lines: the
      frame's `data: ` line and the blank line. */
  lemma {:induction false} FrameAppended(json: Json, w: string, e: Event)
    requires RoundTrips(json, e) && Remainder(w) == ""
    ensures CompleteLines(w + Frame(json, e)) == CompleteLines(w) + [DataPrefix + json.stringify(PayloadOf(e)), ""]
    ensures Remainder(w + Frame(json, e)) == ""
  {
    LinesAppend(w, Frame(json, e));
    assert Remainder(w) + Frame(json, e) == Frame(json, e);
    FrameLines(json, e);
  }

  /** The two lines of a frame make exactly the event's callback. */
  lemma {:induction false} FrameDecoded(json: Json, before: seq<string>, e: Event)
    requires RoundTrips(json, e) && DecodeLines(json, before).failure.None?
    ensures var line := DataPrefix + json.stringify(PayloadOf(e));
      DecodeLines(json, before + [line, ""]) == Decoded(DecodeLines(json, before).calls + [CallbackOf(e)], None)
  {
    var s := json.stringify(PayloadOf(e));
    var line := DataPrefix + s;
    assert line[..|DataPrefix|] == DataPrefix && line[|DataPrefix|..] == s;
    var withLine := before + [line];
    assert withLine[..|before|] == before;
    assert DecodeLines(json, withLine) == Decoded(DecodeLines(json, before).calls + [CallbackOf(e)], None);
    assert (withLine + [""])[..|withLine|] == withLine;
    assert before + [line, ""] == withLine + [""];
  }

  /** Decoding what the server wrote gives back its events, in order, as callbacks,
      with nothing left in the buffer; this needs only that each event's JSON is one
      line that parses back. */
  lemma {:induction false} RoundTrip(json: Json, es: seq<Event>)
    requires forall i :: 0 <= i < |es| ==> RoundTrips(json, es[i])
    ensures DecodeText(json, Wire(json, es)) == Decoded(CallbacksOf(es), None)
    ensures Remainder(Wire(json, es)) == ""
  {
    if es != [] {
      var init, e := es[..|es| - 1], es[|es| - 1];
      assert forall i :: 0 <= i < |init| ==> init[i] == es[i];
      RoundTrip(json, init);
      FrameAppended(json, Wire(json, init), e);
      FrameDecoded(json, CompleteLines(Wire(json, init)), e);
    }
  }

  /** However the reads cut the server's frames, the client calls back once per event,
      in the server's order, and never `onError` on its own. */
  lemma {:induction false} StreamRoundTrip(json: Json, es: seq<Event>, received: seq<string>)
    requires forall i :: 0 <= i < |es| ==> RoundTrips(json, es[i])
    requires Concat(received) == Wire(json, es)
    ensures Outcome(DecodeText(json, Concat(received))) == CallbacksOf(es)
  {
    RoundTrip(json, es);
  }
}
