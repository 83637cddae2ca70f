/** The completion call (backend/src/utils/openai.ts): the context sent upstream is an
    optional leading system turn followed by the chat history, and of the provider's
    stream only the non-empty `choices[0].delta.content` values are passed on, in
    order. The provider itself is a parameter: a function from the request it gets to
    the chunks it streams and the exception, if any, that ends the stream early. */
module Completion {
  import opened Common
  import opened Types

  const MissingKey := "GEMINI_API_KEY is not set"
  const BaseUrl := "https://generativelanguage.googleapis.com/v1beta/openai/"
  const Model := "gemini-2.5-flash"

  datatype Speaker = System | Speaks(role: Role)

  /** One entry of `chatMessages`: `{ role, content }` with the system role allowed. */
  datatype Turn = Turn(speaker: Speaker, content: string)

  /** The parts of a streamed chunk the loop reads; every level may be missing. */
  datatype Delta = Delta(content: Option<string>)
  datatype Choice = Choice(delta: Option<Delta>)
  datatype StreamChunk = StreamChunk(choices: seq<Choice>)

  /** A thrown value; `message` is present when it is an `Error`. */
  datatype Thrown = Thrown(message: Option<string>)

  /** What the provider does with a request: the chunks it streams, then possibly an
      exception instead of a normal end. */
  datatype ProviderRun = ProviderRun(chunks: seq<StreamChunk>, failure: Option<Thrown>)

  datatype Request = Request(baseUrl: string, apiKey: string, model: string, messages: seq<Turn>, stream: bool)

  /** A whole run of the generator: the request it sent (none when it threw first),
      the fragments it yielded, and the exception it ended with, if any. */
  datatype Generation = Generation(request: Option<Request>, fragments: seq<string>, failure: Option<Thrown>)

  function Lift(ms: seq<HistoryTurn>): (r: seq<Turn>)
    ensures |r| == |ms|
    ensures forall i :: 0 <= i < |ms| ==> r[i] == Turn(Speaks(ms[i].role), ms[i].content)
  {
    seq(|ms|, i requires 0 <= i < |ms| => Turn(Speaks(ms[i].role), ms[i].content))
  }

  /** `chatMessages` once built: the system turn when the system prompt is truthy, then
      the history turns. */
  function UpstreamContext(ms: seq<HistoryTurn>, systemPrompt: Option<string>): seq<Turn> {
    (if Truthy(systemPrompt) then [Turn(System, systemPrompt.value)] else []) + Lift(ms)
  }

  /** The shape of the context: one system turn first exactly when the system prompt is
      truthy, then every history turn in its order, and no other system turn. */
  lemma UpstreamContextShape(ms: seq<HistoryTurn>, systemPrompt: Option<string>)
    ensures var r := UpstreamContext(ms, systemPrompt);
      |r| == |ms| + (if Truthy(systemPrompt) then 1 else 0) &&
      (Truthy(systemPrompt) ==> r[0] == Turn(System, systemPrompt.value))
    ensures var offset := if Truthy(systemPrompt) then 1 else 0;
      UpstreamContext(ms, systemPrompt)[offset..] == Lift(ms)
    ensures var r := UpstreamContext(ms, systemPrompt);
      forall i :: 0 <= i < |r| && r[i].speaker == System ==> i == 0 && Truthy(systemPrompt)
  {
    var head := if Truthy(systemPrompt) then [Turn(System, systemPrompt.value)] else [];
    var tail := Lift(ms);
    var r := head + tail;
    assert r[|head|..] == tail;
    forall i | |head| <= i < |r| ensures r[i].speaker != System {
      assert r[i] == tail[i - |head|];
    }
  }

  /** `systemPrompt || undefined` changes nothing about the context: an empty prompt
      adds no system turn either way. */
  lemma ContextIgnoresEmptyPrompt(ms: seq<HistoryTurn>, systemPrompt: Option<string>)
    ensures UpstreamContext(ms, OrAbsent(systemPrompt)) == UpstreamContext(ms, systemPrompt)
    ensures UpstreamContext(ms, Some("")) == UpstreamContext(ms, None) == Lift(ms)
  {
  }

  /** `chunk.choices[0]?.delta?.content`. */
  function DeltaContent(c: StreamChunk): Option<string> {
    if |c.choices| > 0 && c.choices[0].delta.Some? then c.choices[0].delta.value.content else None
  }

  /** What the chunk contributes to the reply text: its delta, or nothing. */
  function DeltaText(c: StreamChunk): string {
    var d := DeltaContent(c);
    if d.Some? then d.value else ""
  }

  function Deltas(cs: seq<StreamChunk>): (r: seq<string>)
    ensures |r| == |cs| && forall i :: 0 <= i < |cs| ==> r[i] == DeltaText(cs[i])
  {
    seq(|cs|, i requires 0 <= i < |cs| => DeltaText(cs[i]))
  }

  predicate NonEmpty(s: string) { s != "" }

  /** The fragments the generator yields for a stream of chunks: the truthy deltas. */
  function Yielded(cs: seq<StreamChunk>): (r: seq<string>)
    ensures |r| <= |cs|
    ensures forall i :: 0 <= i < |r| ==> r[i] != ""
  {
    if cs == [] then []
    else
      var d := DeltaContent(cs[|cs| - 1]);
      Yielded(cs[..|cs| - 1]) + (if Truthy(d) then [d.value] else [])
  }

  lemma YieldedSnoc(cs: seq<StreamChunk>, c: StreamChunk)
    ensures Yielded(cs + [c]) == Yielded(cs) + (if Truthy(DeltaContent(c)) then [DeltaContent(c).value] else [])
  {
    assert (cs + [c])[..|cs|] == cs;
  }

  /** The yielded fragments of a stream are those of its first part followed by those
      of the rest: where the chunks are cut does not matter. */
  lemma {:induction false} YieldedAppend(a: seq<StreamChunk>, b: seq<StreamChunk>)
    ensures Yielded(a + b) == Yielded(a) + Yielded(b)
  {
    if b == [] {
      assert a + b == a;
    } else {
      var init, last := b[..|b| - 1], b[|b| - 1];
      YieldedAppend(a, init);
      assert a + b == (a + init) + [last];
      YieldedSnoc(a + init, last);
      YieldedSnoc(init, last);
      assert init + [last] == b;
    }
  }

  /** An independent reading of the filter: the yielded fragments are exactly the
      delta texts of the chunks with the empty ones removed, in order. */
  lemma {:induction false} YieldedIsFilter(cs: seq<StreamChunk>)
    ensures Yielded(cs) == Filter(Deltas(cs), NonEmpty)
  {
    if cs != [] {
      var init, last := cs[..|cs| - 1], cs[|cs| - 1];
      YieldedIsFilter(init);
      assert Deltas(cs) == Deltas(init) + [DeltaText(last)];
      FilterSnoc(Deltas(init), DeltaText(last), NonEmpty);
      assert Deltas(cs)[..|Deltas(cs)| - 1] == Deltas(init);
    }
  }

  /** Skipping the empty deltas loses no text: the fragments join to the same string
      as every chunk's delta does. */
  lemma {:induction false} YieldedConcat(cs: seq<StreamChunk>)
    ensures Concat(Yielded(cs)) == Concat(Deltas(cs))
  {
    if cs != [] {
      var init, last := cs[..|cs| - 1], cs[|cs| - 1];
      YieldedConcat(init);
      assert Deltas(cs) == Deltas(init) + [DeltaText(last)];
      ConcatSnoc(Deltas(init), DeltaText(last));
      var d := DeltaContent(last);
      if Truthy(d) {
        ConcatSnoc(Yielded(init), d.value);
      } else {
        assert Yielded(cs) == Yielded(init);
        assert Concat(Deltas(cs)) == Concat(Deltas(init)) + "";
      }
    }
  }

  /** The whole run of `sendToGeminiStream`: without a truthy key it throws before
      sending anything or yielding anything; otherwise it sends the assembled context
      and yields only non-empty fragments. */
  function Generate(apiKey: Option<string>, ms: seq<HistoryTurn>, systemPrompt: Option<string>,
                    provider: Request -> ProviderRun): (g: Generation)
    ensures !Truthy(apiKey) ==> g == Generation(None, [], Some(Thrown(Some(MissingKey))))
    ensures Truthy(apiKey) ==>
      g.request.Some? && g.request.value.apiKey == apiKey.value &&
      g.request.value.messages == UpstreamContext(ms, systemPrompt) && g.request.value.stream
    ensures Truthy(apiKey) ==> g.failure == provider(g.request.value).failure
    ensures forall i :: 0 <= i < |g.fragments| ==> g.fragments[i] != ""
  {
    if !Truthy(apiKey) then Generation(None, [], Some(Thrown(Some(MissingKey))))
    else
      var request := Request(BaseUrl, apiKey.value, Model, UpstreamContext(ms, systemPrompt), true);
      var run := provider(request);
      Generation(Some(request), Yielded(run.chunks), run.failure)
  }

  /** The fragments of a run are the non-empty deltas of the provider's chunks, in
      their order, and they join to the text of all its chunks' deltas. */
  lemma GenerateFragments(apiKey: Option<string>, ms: seq<HistoryTurn>, systemPrompt: Option<string>,
                          provider: Request -> ProviderRun)
    requires Truthy(apiKey)
    ensures var g := Generate(apiKey, ms, systemPrompt, provider);
      var chunks := provider(g.request.value).chunks;
      g.fragments == Filter(Deltas(chunks), NonEmpty) && Concat(g.fragments) == Concat(Deltas(chunks))
  {
    var g := Generate(apiKey, ms, systemPrompt, provider);
    YieldedIsFilter(provider(g.request.value).chunks);
    YieldedConcat(provider(g.request.value).chunks);
  }

  /** The pushes that build `chatMessages`: the system turn when the prompt is truthy,
      then one turn per history message. */
  method BuildContext(messages: seq<HistoryTurn>, systemPrompt: Option<string>) returns (chatMessages: seq<Turn>)
    ensures chatMessages == UpstreamContext(messages, systemPrompt)
  {
    chatMessages := [];
    if Truthy(systemPrompt) {
      chatMessages := chatMessages + [Turn(System, systemPrompt.value)];
    }
    chatMessages := chatMessages + Lift(messages);
  }

  /** The `for await` loop: each chunk's delta, when truthy, is yielded in turn. */
  method YieldDeltas(chunks: seq<StreamChunk>) returns (fragments: seq<string>)
    ensures fragments == Yielded(chunks)
  {
    fragments := [];
    var i := 0;
    while i < |chunks|
      invariant 0 <= i <= |chunks|
      invariant fragments == Yielded(chunks[..i])
    {
      var delta := DeltaContent(chunks[i]);
      if Truthy(delta) {
        fragments := fragments + [delta.value];
      }
      YieldedSnoc(chunks[..i], chunks[i]);
      assert chunks[..i + 1] == chunks[..i] + [chunks[i]];
      i := i + 1;
    }
    assert chunks[..|chunks|] == chunks;
  }

  /** `sendToGeminiStream`, run to its end: without a key it throws first; otherwise it
      builds `chatMessages`, sends the request and yields the truthy deltas. */
  method SendToGeminiStream(apiKey: Option<string>, messages: seq<HistoryTurn>, systemPrompt: Option<string>,
                            provider: Request -> ProviderRun)
    returns (g: Generation)
    ensures g == Generate(apiKey, messages, systemPrompt, provider)
  {
    if !Truthy(apiKey) {
      return Generation(None, [], Some(Thrown(Some(MissingKey))));
    }
    var chatMessages := BuildContext(messages, systemPrompt);
    var request := Request(BaseUrl, apiKey.value, Model, chatMessages, true);
    var run := provider(request);
    var fragments := YieldDeltas(run.chunks);
    g := Generation(Some(request), fragments, run.failure);
  }
}
