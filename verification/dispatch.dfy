/** The provider dispatch at the end of `chatWithLLM` in
    src/components/chat_session.tsx: Google models go to the Gemini adapter,
    Anthropic models to the Claude adapter, everything else to the
    OpenAI-compatible one. */
module Dispatch {
  import opened Wrappers
  import opened Seqs
  import opened Messages
  import opened Config
  import opened CallContract
  import ChatSession
  import Outgoing
  import OpenAIApi
  import AnthropicApi
  import GoogleApi

  /** The adapter a call is handed to, with what that adapter sends. */
  datatype Outbound =
    | ToGemini(run: GoogleApi.GeminiRun)
    | ToClaude(data: AnthropicApi.ChatData)
    | ToOpenAI(request: OpenAIApi.Request)

  /** The dispatch, with the Gemini arguments bound as the adapter declares
      them. The Gemini temperature and stream, and the Claude output limit,
      are inputs. */
  method Send(call: ChatSession.Call, temperature: real, claudeMaxTokens: int,
              chunks: seq<string>, failure: Option<string>, thrown: string) returns (r: Outbound)
    ensures call.provider.apiType == Google <==> r.ToGemini?
    ensures call.provider.apiType == Anthropic <==> r.ToClaude?
    ensures r.ToGemini? ==> r.run == GoogleApi.CallGemini(call.model, temperature, call.messages, chunks, failure, thrown)
    ensures r.ToClaude? ==>
              r.data.model == call.model.name && r.data.maxTokens == claudeMaxTokens &&
              r.data.messages == Outgoing.Prepare(Outgoing.MergeFirstTwo(call.messages), AnthropicApi.ToWire)
    ensures r.ToOpenAI? ==>
              r.request.baseUrl == call.provider.endpoint && r.request.apiKey == call.apiKey &&
              r.request.data.model == call.model.name &&
              r.request.data.messages == Outgoing.Prepare(call.messages, OpenAIApi.ToWire)
  {
    if call.provider.apiType == Google {
      r := ToGemini(GoogleApi.CallGemini(call.model, temperature, call.messages, chunks, failure, thrown));
    } else if call.provider.apiType == Anthropic {
      var d := AnthropicApi.CallClaude(call.model, claudeMaxTokens, call.messages);
      r := ToClaude(d);
    } else {
      var q := OpenAIApi.CallOpenAIApi(call.provider, call.apiKey, call.model, call.messages);
      r := ToOpenAI(q);
    }
  }

  /** The arguments the chat session passes to `callGemini` after `apiKey`
      and `model`: the message list and its two callbacks, with no
      temperature. */
  function CallSiteArgs(call: ChatSession.Call): seq<GoogleApi.Arg> {
    [GoogleApi.MessageList(call.messages), GoogleApi.ContentCallback, GoogleApi.FinishCallback]
  }

  /** The arguments in the order `callGemini` declares its parameters. */
  function DeclaredArgs(call: ChatSession.Call, temperature: real): seq<GoogleApi.Arg> {
    [GoogleApi.Number(temperature), GoogleApi.MessageList(call.messages), GoogleApi.ContentCallback, GoogleApi.FinishCallback]
  }

  /** The callbacks a Google call delivers as the call site is written:
      `messages` receives the content callback and `onFinish` nothing, so
      the adapter throws before the stream and its handler throws again
      calling the missing `onFinish`. No callback ever runs. */
  function GoogleEventsAsWritten(call: ChatSession.Call, chunks: seq<string>,
                                 failure: Option<string>, thrown: string): (r: seq<StreamEvent>)
    ensures r == []
    ensures !WellFormedStream(r)
  {
    GoogleApi.CallGeminiWith(CallSiteArgs(call), chunks, failure, thrown)
  }

  /** The callbacks a Google call delivers with the arguments bound as
      declared: those of the adapter's run. */
  function GoogleEvents(call: ChatSession.Call, temperature: real, chunks: seq<string>,
                        failure: Option<string>, thrown: string): (r: seq<StreamEvent>)
    ensures r == GoogleApi.CallGemini(call.model, temperature, call.messages, chunks, failure, thrown).events
    ensures WellFormedStream(r)
  {
    GoogleApi.DeclaredBinding(call.model, temperature, call.messages, chunks, failure, thrown);
    GoogleApi.CallGeminiWith(DeclaredArgs(call, temperature), chunks, failure, thrown)
  }

  /** As written, a chat with a Google model never finishes: the session
      stays "processing" and ignores every later task until it is cleared. */
  lemma GoogleChatHangsAsWritten(env: ChatSession.Env, s: ChatSession.State, content: string,
                                 refs: seq<Reference>, task: ChatTask, cap: ChatSession.Capture,
                                 chunks: seq<string>, failure: Option<string>, thrown: string)
    requires ChatSession.ChatWithLLM(env, s, content, refs).call.Some?
    requires ChatSession.ChatWithLLM(env, s, content, refs).call.value.provider.apiType == Google
    ensures var step := ChatSession.ChatWithLLM(env, s, content, refs);
            var t := ChatSession.Deliver(step.state, GoogleEventsAsWritten(step.call.value, chunks, failure, thrown));
            t.status == StatusProcessing &&
            ChatSession.HandleTask(env, t.(task := Some(task)), cap) == ChatSession.Step(t.(task := Some(task)), None)
  {
  }

  /** A Google call bound as declared, from a state whose last history
      entry is the empty answer, ends idle with the streamed chunks (and any
      error) in that entry. */
  lemma GoogleDelivers(st: ChatSession.State, prefix: seq<Message>, tag: string, call: ChatSession.Call,
                       temperature: real, chunks: seq<string>, failure: Option<string>, thrown: string)
    requires st.history == prefix + [Message(Assistant, "", tag)] && st.answer == ""
    requires |call.messages| > 0
    ensures var t := ChatSession.Deliver(st, GoogleEvents(call, temperature, chunks, failure, thrown));
            && t.status == StatusEmpty && t.task.None?
            && t.history == prefix + [Message(Assistant, Concat(chunks) + ChatSession.ErrorSuffix(failure.GetOr("")), tag)]
  {
    var run := GoogleApi.CallGemini(call.model, temperature, call.messages, chunks, failure, thrown);
    assert run.request.Some?;
    ChatSession.StreamAccumulates(st, prefix, tag, chunks, failure.GetOr(""));
  }

  /** With the arguments bound as declared, a chat with a Google model ends
      idle, with the streamed chunks (and any error) as the answer shown in
      the last history entry. */
  lemma GoogleChatFinishes(env: ChatSession.Env, s: ChatSession.State, content: string, refs: seq<Reference>,
                           temperature: real, chunks: seq<string>, failure: Option<string>, thrown: string)
    requires ChatSession.ChatWithLLM(env, s, content, refs).call.Some?
    requires ChatSession.ChatWithLLM(env, s, content, refs).call.value.provider.apiType == Google
    ensures var step := ChatSession.ChatWithLLM(env, s, content, refs);
            var t := ChatSession.Deliver(step.state, GoogleEvents(step.call.value, temperature, chunks, failure, thrown));
            var answer := Concat(chunks) + ChatSession.ErrorSuffix(failure.GetOr(""));
            && t.status == StatusEmpty && t.task.None?
            && t.history == s.history + [Message(User, content, ""), Message(Assistant, answer, env.modelName)]
  {
    var step := ChatSession.ChatWithLLM(env, s, content, refs);
    var call := step.call.value;
    assert |call.messages| > 0;
    var prefix := s.history + [Message(User, content, "")];
    assert step.state.history == prefix + [Message(Assistant, "", env.modelName)];
    GoogleDelivers(step.state, prefix, env.modelName, call, temperature, chunks, failure, thrown);
    var answer := Concat(chunks) + ChatSession.ErrorSuffix(failure.GetOr(""));
    assert prefix + [Message(Assistant, answer, env.modelName)]
           == s.history + [Message(User, content, ""), Message(Assistant, answer, env.modelName)];
  }
}
