/** The OpenAI-compatible adapter of src/utils/openai_api.ts: the request
    body it builds and the callbacks its streaming loop makes. */
module OpenAIApi {
  import opened Wrappers
  import opened Seqs
  import opened Messages
  import opened Config
  import opened CallContract
  import opened Outgoing
  import ChatSession

  /** One entry of the request's `messages`: the role string as the session
      stores it and the content. */
  datatype WireMessage = WireMessage(role: string, content: string)

  /** The request body. */
  datatype ChatData = ChatData(model: string, messages: seq<WireMessage>, temperature: real, maxTokens: real, stream: bool)

  /** The client settings and body of one request. */
  datatype Request = Request(apiKey: string, baseUrl: string, data: ChatData)

  /** The temperature every OpenAI-style request uses. */
  const Temperature: real := 0.3

  function ToWire(m: Message): WireMessage {
    WireMessage(RoleName(m.role), m.content)
  }

  /** `prepareChatData`: the sendable messages with their roles unchanged,
      and a streamed response. */
  method PrepareChatData(ms: seq<Message>, model: string, temperature: real, maxTokens: real) returns (d: ChatData)
    ensures d.model == model && d.temperature == temperature && d.maxTokens == maxTokens && d.stream
    ensures d.messages == Prepare(ms, ToWire)
    ensures forall i :: 0 <= i < |d.messages| ==> d.messages[i].content != ""
  {
    var messages := PrepareMessages(ms, ToWire);
    PreparedContentsNonEmpty(ms);
    d := ChatData(model, messages, temperature, maxTokens, true);
  }

  /** No message without content reaches the provider. */
  lemma PreparedContentsNonEmpty(ms: seq<Message>)
    ensures forall i :: 0 <= i < |Prepare(ms, ToWire)| ==> Prepare(ms, ToWire)[i].content != ""
  {
    var f := Filter(Sendable, ms);
    forall i | 0 <= i < |Prepare(ms, ToWire)|
      ensures Prepare(ms, ToWire)[i].content != ""
    {
      assert Sendable(f[i]);
    }
  }

  /** `callOpenAIApi`: the provider's endpoint as base URL, the model's name,
      temperature 0.3 and half the model's output limit as `max_tokens`. */
  method CallOpenAIApi(provider: Provider, apiKey: string, model: Model, ms: seq<Message>) returns (r: Request)
    ensures r.apiKey == apiKey && r.baseUrl == provider.endpoint
    ensures r.data.model == model.name && r.data.temperature == Temperature && r.data.stream
    ensures r.data.maxTokens * 2.0 == model.maxOutput as real
    ensures r.data.messages == Prepare(ms, ToWire)
  {
    var d := PrepareChatData(ms, model.name, Temperature, model.maxOutput as real / 2.0);
    r := Request(apiKey, provider.endpoint, d);
  }

  /** The text of one streamed chunk: its delta content, or "" when the
      chunk has none. */
  function DeltaText(delta: Option<string>): string {
    delta.GetOr("")
  }

  /** `callModel`: one content callback per chunk received, then the finish
      callback, with the thrown error's text if the request or the stream
      failed after those chunks. */
  function CallModel(deltas: seq<Option<string>>, failure: Option<string>): (r: seq<StreamEvent>)
    ensures WellFormedStream(r)
    ensures |r| == |deltas| + 1
    ensures r[|deltas|] == Finish(failure.GetOr(""))
    ensures forall i :: 0 <= i < |deltas| ==> r[i] == Content(DeltaText(deltas[i]))
  {
    seq(|deltas|, i requires 0 <= i < |deltas| => Content(DeltaText(deltas[i]))) + [Finish(failure.GetOr(""))]
  }

  /** Feeding the session a streamed OpenAI response leaves the
      concatenated deltas (plus any error) as the last assistant turn, and the
      session idle. */
  lemma CallModelAnswer(s: ChatSession.State, prefix: seq<Message>, tag: string, deltas: seq<Option<string>>, failure: Option<string>)
    requires s.history == prefix + [Message(Assistant, "", tag)] && s.answer == ""
    ensures var t := ChatSession.Deliver(s, CallModel(deltas, failure));
            var answer := Concat(Map(DeltaText, deltas)) + ChatSession.ErrorSuffix(failure.GetOr(""));
            t.history == prefix + [Message(Assistant, answer, tag)] && t.answer == answer &&
            t.status == StatusEmpty && t.task.None?
  {
    var chunks := Map(DeltaText, deltas);
    ChatSession.StreamAccumulates(s, prefix, tag, chunks, failure.GetOr(""));
    assert seq(|chunks|, i requires 0 <= i < |chunks| => Content(chunks[i])) + [Finish(failure.GetOr(""))]
        == CallModel(deltas, failure);
  }
}
