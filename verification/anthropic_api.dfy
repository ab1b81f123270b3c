/** The Anthropic adapters of src/utils/anthropic_api.ts and
    src/utils/claude.ts: the first two messages are folded into one user
    message, since the API takes no system role, and every non-assistant
    role is sent as "user". */
module AnthropicApi {
  import opened Seqs
  import opened Messages
  import opened Config
  import opened Outgoing

  datatype WireMessage = WireMessage(role: string, content: string)

  /** The request body; Anthropic's streaming call needs no stream flag. */
  datatype ChatData = ChatData(model: string, messages: seq<WireMessage>, temperature: real, maxTokens: int)

  const Temperature: real := 0.3

  /** The model and output limit of the fixed Claude adapter. */
  const ClaudeModel: string := "claude-3-sonnet-20240229"
  const ClaudeMaxTokens: int := 2048

  /** Assistant turns keep their role; everything else is a user turn. */
  function AnthropicRole(r: Role): string {
    if r == Assistant then "assistant" else "user"
  }

  function ToWire(m: Message): WireMessage {
    WireMessage(AnthropicRole(m.role), m.content)
  }

  /** `prepareChatData` of the Anthropic adapters. */
  method PrepareChatData(ms: seq<Message>, model: string, temperature: real, maxTokens: int) returns (d: ChatData)
    ensures d.model == model && d.temperature == temperature && d.maxTokens == maxTokens
    ensures d.messages == Prepare(ms, ToWire)
    ensures forall i :: 0 <= i < |d.messages| ==> d.messages[i].role in {"user", "assistant"}
  {
    var messages := PrepareMessages(ms, ToWire);
    OnlyTwoRoles(ms);
    d := ChatData(model, messages, temperature, maxTokens);
  }

  /** Only "user" and "assistant" roles reach the provider. */
  lemma OnlyTwoRoles(ms: seq<Message>)
    ensures forall i :: 0 <= i < |Prepare(ms, ToWire)| ==> Prepare(ms, ToWire)[i].role in {"user", "assistant"}
  {
    var p := Prepare(ms, ToWire);
    var f := Filter(Sendable, ms);
    forall i | 0 <= i < |p|
      ensures p[i].role in {"user", "assistant"}
    {
      assert p[i] == ToWire(f[i]);
    }
  }

  /** `callClaude` of anthropic_api.ts: the selected model's name, and an
      output limit the caller supplies (the source reads a `maxTokens`
      field that the model record does not declare). */
  method CallClaude(model: Model, maxTokens: int, ms: seq<Message>) returns (d: ChatData)
    ensures d.model == model.name && d.temperature == Temperature && d.maxTokens == maxTokens
    ensures d.messages == Prepare(MergeFirstTwo(ms), ToWire)
  {
    d := PrepareChatData(MergeFirstTwo(ms), model.name, Temperature, maxTokens);
  }

  /** `callClaude` of claude.ts: a fixed model and 2048 output tokens. */
  method CallFixedClaude(ms: seq<Message>) returns (d: ChatData)
    ensures d.model == ClaudeModel && d.temperature == Temperature && d.maxTokens == ClaudeMaxTokens
    ensures d.messages == Prepare(MergeFirstTwo(ms), ToWire)
  {
    d := PrepareChatData(MergeFirstTwo(ms), ClaudeModel, Temperature, ClaudeMaxTokens);
  }

  /** For a session's message list (system prompt, earlier turns, the new
      question), the request opens with one user message that carries the
      system prompt and the first turn, and the rest follow in order. */
  lemma SystemPromptFolded(system: string, rest: seq<Message>)
    requires |rest| > 0
    ensures var ms := [NewMessage(System, system)] + rest;
            var merged := NewMessage(User, system + "\n\n" + rest[0].content);
            Prepare(MergeFirstTwo(ms), ToWire) == Prepare([merged], ToWire) + Prepare(rest[1..], ToWire)
  {
    var ms := [NewMessage(System, system)] + rest;
    var merged := NewMessage(User, system + "\n\n" + rest[0].content);
    assert MergeFirstTwo(ms) == [merged] + rest[1..];
    PrepareConcat([merged], rest[1..], ToWire);
  }
}
