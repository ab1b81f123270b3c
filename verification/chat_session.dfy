/** The chat-session state machine of src/components/chat_session.tsx: a
    task arriving is accepted or ignored, its references are resolved, the
    prompt and system prompt are built, the user message and an empty
    assistant placeholder are pushed, streamed chunks are accumulated into
    the last history entry, and finishing resets status and task. Each
    React effect is one transition; the provider call is returned as data. */
module ChatSession {
  import opened Wrappers
  import opened Seqs
  import opened Text
  import opened Messages
  import opened Config
  import opened CallContract
  import ReferenceCore
  import ReferenceBox

  /** The session: the history and status the parent owns, the current task,
      the streamed answer of the component, and the parent's references. */
  datatype State = State(history: seq<Message>, status: string, task: Option<ChatTask>, answer: string, references: seq<Reference>)

  /** The props that do not change during a transition: the localized text
      lookup, the chat language, the selected model name, the selectable
      models, the providers and their configurations keyed by provider id. */
  datatype Env = Env(
    displayText: string -> string,
    chatLanguage: string,
    modelName: string,
    models: seq<Model>,
    providers: seq<Provider>,
    providerConfigs: map<string, ProviderConfig>)

  /** What capturing the current page and the current selection yields while
      this task is handled (`None` when capture fails). */
  datatype Capture = Capture(page: Option<Reference>, selection: Option<string>)

  /** A provider call issued by the session; `apiType` picks the adapter. */
  datatype Call = Call(provider: Provider, apiKey: string, model: Model, messages: seq<Message>)

  /** The state after a transition and the call it issues, if any. */
  datatype Step = Step(state: State, call: Option<Call>)

  const ErrEmptyPrompt: string := "empty prompt"
  const ErrPageCapture: string := "fail to get content of current page"
  const ErrSelectionCapture: string := "fail to get selection of current page"

  /** An error status: neither idle nor the in-flight marker. */
  predicate IsErrorStatus(status: string) {
    status != StatusEmpty && status != StatusProcessing
  }

  /** The fixed opening of the system prompt, naming the chat language. */
  function SystemHead(chatLanguage: string): string {
    "You are a smart assistant, please try to answer user's questions as accurately as possible.\n"
    + "    You should use following language to communicate with user: `" + chatLanguage + "` \n"
  }

  /** The listing of one reference under its 1-based index. */
  function RefEntry(r: Reference, index: nat): string {
    NatToString(index) + ": type=" + r.kind.Name()
    + (if r.kind == Webpage then ", url=" + r.url + ", title=" + r.title else "")
    + "\n===\n" + r.content + "\n===\n"
  }

  /** The listings of `refs`, numbered from `start`, as the `for` loop
      appends them. */
  function RefListing(refs: seq<Reference>, start: nat): string
    decreases |refs|
  {
    if |refs| == 0 then "" else RefEntry(refs[0], start) + RefListing(refs[1..], start + 1)
  }

  /** The system prompt `initMessages` builds. */
  function SystemPrompt(env: Env, refs: seq<Reference>): string {
    SystemHead(env.chatLanguage)
    + (if |refs| > 0 then env.displayText("prompt_useReferences") + "\n" + RefListing(refs, 1) else "")
  }

  /** The per-reference listings as a list: the i-th reference under number
      `start + i`. */
  function Entries(refs: seq<Reference>, start: nat): (r: seq<string>)
    ensures |r| == |refs|
    ensures forall i :: 0 <= i < |refs| ==> r[i] == RefEntry(refs[i], start + i)
    decreases |refs|
  {
    if |refs| == 0 then [] else [RefEntry(refs[0], start)] + Entries(refs[1..], start + 1)
  }

  /** The listing is the concatenation of the entries in reference order. */
  lemma {:induction false} ListingIsEntries(refs: seq<Reference>, start: nat)
    ensures RefListing(refs, start) == Concat(Entries(refs, start))
    decreases |refs|
  {
    if |refs| > 0 {
      ListingIsEntries(refs[1..], start + 1);
      ConcatCons(RefEntry(refs[0], start), Entries(refs[1..], start + 1));
    }
  }

  /** The system prompt has no reference block without references, and
      otherwise lists every reference, numbered from 1, after the head. */
  lemma SystemPromptShape(env: Env, refs: seq<Reference>)
    ensures |refs| == 0 ==> SystemPrompt(env, refs) == SystemHead(env.chatLanguage)
    ensures |refs| > 0 ==>
              SystemPrompt(env, refs) ==
              SystemHead(env.chatLanguage) + (env.displayText("prompt_useReferences") + "\n" + Concat(Entries(refs, 1)))
  {
    if |refs| > 0 {
      ListingIsEntries(refs, 1);
    }
  }

  /** `initMessages`: the list sent to the provider and the new history. */
  function InitMessages(env: Env, history: seq<Message>, content: string, refs: seq<Reference>): (r: (seq<Message>, seq<Message>))
    ensures |r.0| == |history| + 2 && |r.1| == |history| + 2
    ensures r.0[0] == Message(System, SystemPrompt(env, refs), "")
    ensures r.0[1..] == r.1[..|history| + 1]
    ensures r.1[..|history|] == history
    ensures r.1[|history|] == Message(User, content, "")
    ensures r.1[|history| + 1] == Message(Assistant, "", env.modelName)
  {
    var query := NewMessage(User, content);
    var reply := NewMessage(Assistant, "", env.modelName);
    var systemMsg := NewMessage(System, SystemPrompt(env, refs));
    ([systemMsg] + history + [query], history + [query, reply])
  }

  /** The first letters of the configuration errors, which keep them apart
      from the idle and in-flight statuses. */
  lemma ConfigErrorsAreErrors(name: string, providerName: string)
    ensures IsErrorStatus("model " + name + " not found")
    ensures IsErrorStatus("provider of " + name + " not found")
    ensures IsErrorStatus("api key of " + providerName + ":" + name + " not found")
  {
    assert ("model " + name + " not found")[0] == 'm';
    assert ("provider of " + name + " not found")[3] == 'v';
    assert ("api key of " + providerName + ":" + name + " not found")[0] == 'a';
  }

  /** The API key configured for a provider; a missing config reads as "". */
  function ApiKeyOf(configs: map<string, ProviderConfig>, p: Provider): string {
    if p.id in configs then configs[p.id].apiKey else ""
  }

  /** The outcome of resolving the selected model: the provider call's
      target, or the status describing what is missing. */
  datatype Resolution = Ready(provider: Provider, apiKey: string, model: Model) | ConfigError(status: string)

  /** The guards of `chatWithLLM`: the first model with the selected name,
      the first provider with that model's provider id, and a non-empty key
      in that provider's config. */
  function Resolve(env: Env): (r: Resolution)
    ensures r.ConfigError? ==> IsErrorStatus(r.status)
    ensures r.Ready? <==>
              && Find((m: Model) => m.name == env.modelName, env.models).Some?
              && var model := Find((m: Model) => m.name == env.modelName, env.models).value;
                 && Find((p: Provider) => p.id == model.providerId, env.providers).Some?
                 && ApiKeyOf(env.providerConfigs, Find((p: Provider) => p.id == model.providerId, env.providers).value) != ""
    ensures r.Ready? ==> r.model.name == env.modelName && r.provider.id == r.model.providerId && r.apiKey != ""
    ensures r.Ready? ==> r.model in env.models && r.provider in env.providers && r.apiKey == ApiKeyOf(env.providerConfigs, r.provider)
  {
    match Find((m: Model) => m.name == env.modelName, env.models)
    case None =>
      ConfigErrorsAreErrors(env.modelName, "");
      ConfigError("model " + env.modelName + " not found")
    case Some(model) =>
      match Find((p: Provider) => p.id == model.providerId, env.providers)
      case None =>
        ConfigErrorsAreErrors(env.modelName, "");
        ConfigError("provider of " + env.modelName + " not found")
      case Some(provider) =>
        var apiKey := ApiKeyOf(env.providerConfigs, provider);
        if apiKey == "" then
          ConfigErrorsAreErrors(env.modelName, provider.name);
          ConfigError("api key of " + provider.name + ":" + env.modelName + " not found")
        else Ready(provider, apiKey, model)
  }

  /** `chatWithLLM`: on a configuration error only the status changes; on
      success the query and placeholder are pushed, the answer is reset,
      the status becomes "processing" and the call is issued. */
  function ChatWithLLM(env: Env, s: State, content: string, refs: seq<Reference>): (r: Step)
    ensures r.call.None? <==> Resolve(env).ConfigError?
    ensures r.call.None? ==> r.state == s.(status := r.state.status) && IsErrorStatus(r.state.status)
    ensures r.call.Some? ==>
              && r.state == s.(history := s.history + [Message(User, content, ""), Message(Assistant, "", env.modelName)],
                               answer := "", status := StatusProcessing)
              && r.call.value.messages == [Message(System, SystemPrompt(env, refs), "")] + s.history + [Message(User, content, "")]
              && Resolve(env) == Ready(r.call.value.provider, r.call.value.apiKey, r.call.value.model)
  {
    match Resolve(env)
    case ConfigError(status) => Step(s.(status := status), None)
    case Ready(provider, apiKey, model) =>
      var (messages, history) := InitMessages(env, s.history, content, refs);
      Step(s.(history := history, answer := "", status := StatusProcessing), Some(Call(provider, apiKey, model, messages)))
  }

  /** The prompt of a page task: the page instruction, the page title in
      backticks, then the task prompt. */
  function PagePrompt(env: Env, title: string, prompt: string): string {
    env.displayText("prompt_pageReference") + "\n\n```" + title + "```\n\n" + prompt
  }

  /** The prompt of a selection task: the selection instruction, the
      selection in backticks (after a line break and the template literal's
      indentation), then the task prompt. */
  function SelectionPrompt(env: Env, selection: string, prompt: string): string {
    env.displayText("prompt_selectionReference") + "\n\n\n          ```" + selection + "```\n\n" + prompt
  }

  /** The effect that runs when the task changes. */
  function HandleTask(env: Env, s: State, cap: Capture): (r: Step)
    ensures s.task.None? || s.status == StatusProcessing ==> r == Step(s, None)
    ensures s.task.Some? && s.status != StatusProcessing && s.task.value.prompt == "" ==>
              r == Step(s.(status := ErrEmptyPrompt, task := None), None)
    ensures r.call.None? ==> r.state.history == s.history && r.state.answer == s.answer
    ensures r.call.None? && s.task.Some? && s.status != StatusProcessing ==> IsErrorStatus(r.state.status)
    ensures r.call.Some? ==> s.task.Some? && s.status != StatusProcessing && r.state.task == s.task
    ensures s.task.Some? && s.status != StatusProcessing && s.task.value.prompt != "" && s.task.value.refType == All ==>
              r == ChatWithLLM(env, s, s.task.value.prompt, s.references)
  {
    match s.task
    case None => Step(s, None)
    case Some(task) =>
      if s.status == StatusProcessing then Step(s, None)
      else if task.prompt == "" then Step(s.(status := ErrEmptyPrompt, task := None), None)
      else match task.refType
        case Page =>
          var added := ReferenceBox.AddPageToReference(s.references, cap.page);
          var s1 := s.(references := added.setCall.GetOr(s.references));
          (match added.returned
           case Some(pageRef) => ChatWithLLM(env, s1, PagePrompt(env, pageRef.title, task.prompt), [pageRef])
           case None => Step(s1.(status := ErrPageCapture, task := None), None))
        case Selection =>
          if cap.selection.Some? && cap.selection.value != "" then
            ChatWithLLM(env, s, SelectionPrompt(env, cap.selection.value, task.prompt), s.references)
          else
            Step(s.(status := ErrSelectionCapture, task := None), None)
        case All => ChatWithLLM(env, s, task.prompt, s.references)
  }

  /** A page task sends exactly the captured page as context, with the page
      prompt; a failed capture ends the task with its status and leaves the
      references alone. */
  lemma PageScope(env: Env, s: State, cap: Capture)
    requires s.task.Some? && s.task.value.refType == Page && s.task.value.prompt != "" && s.status != StatusProcessing
    ensures cap.page.None? ==> HandleTask(env, s, cap) == Step(s.(status := ErrPageCapture, task := None), None)
    ensures cap.page.Some? ==>
              var page := cap.page.value;
              var refs := ReferenceCore.AddPage(s.references, cap.page).After(s.references);
              HandleTask(env, s, cap) == ChatWithLLM(env, s.(references := refs), PagePrompt(env, page.title, s.task.value.prompt), [page])
  {
  }

  /** A selection task sends the current references as context and inlines
      the selection into the prompt; without a selection the task ends with
      its status. */
  lemma SelectionScope(env: Env, s: State, cap: Capture)
    requires s.task.Some? && s.task.value.refType == Selection && s.task.value.prompt != "" && s.status != StatusProcessing
    ensures cap.selection.None? || cap.selection == Some("") ==>
              HandleTask(env, s, cap) == Step(s.(status := ErrSelectionCapture, task := None), None)
    ensures cap.selection.Some? && cap.selection.value != "" ==>
              HandleTask(env, s, cap) == ChatWithLLM(env, s, SelectionPrompt(env, cap.selection.value, s.task.value.prompt), s.references)
  {
  }

  /** The effect on an answer change: rewrite the last history entry with
      the answer when the answer is non-empty and that entry is an assistant
      turn, keeping its model tag. */
  function SyncAnswer(s: State): (r: State)
    ensures r == s.(history := r.history)
    ensures |r.history| == |s.history|
    ensures |s.history| > 0 ==> r.history[..|s.history| - 1] == s.history[..|s.history| - 1]
    ensures |s.history| > 0 && s.answer != "" && s.history[|s.history| - 1].role == Assistant ==>
              r.history[|s.history| - 1] == s.history[|s.history| - 1].(content := s.answer)
    ensures s.answer == "" || |s.history| == 0 || s.history[|s.history| - 1].role != Assistant ==> r == s
  {
    if s.answer == "" then s
    else if |s.history| > 0 && s.history[|s.history| - 1].role == Assistant then
      var last := s.history[|s.history| - 1];
      s.(history := s.history[..|s.history| - 1] + [NewMessage(last.role, s.answer, last.model)])
    else s
  }

  /** `onResponseContent`: append the chunk; the effect reruns only when the
      answer actually changes. */
  function OnContent(s: State, chunk: string): State {
    if chunk == "" then s else SyncAnswer(s.(answer := s.answer + chunk))
  }

  /** The suffix `onResponseFinish` appends for an error message. */
  function ErrorSuffix(error: string): string {
    if error == "" then "" else " [ERROR]:" + error
  }

  /** `onResponseFinish`: append the error suffix if any, go idle, drop the
      task. */
  function OnFinish(s: State, error: string): (r: State)
    ensures r.status == StatusEmpty && r.task.None?
    ensures r.answer == s.answer + ErrorSuffix(error)
    ensures r.references == s.references
  {
    var s1 := s.(status := StatusEmpty, task := None);
    if error == "" then s1 else SyncAnswer(s1.(answer := s.answer + ErrorSuffix(error)))
  }

  /** Delivers the callbacks of one provider call in order. */
  function Deliver(s: State, events: seq<StreamEvent>): State
    decreases |events|
  {
    if |events| == 0 then s
    else
      var s1 := match events[0]
        case Content(text) => OnContent(s, text)
        case Finish(error) => OnFinish(s, error);
      Deliver(s1, events[1..])
  }

  /** The history is `prefix` followed by an assistant turn tagged `tag`
      that shows the answer so far. */
  predicate ShowsAnswer(s: State, prefix: seq<Message>, tag: string) {
    s.history == prefix + [Message(Assistant, s.answer, tag)]
  }

  lemma {:induction false} ContentKeepsShape(s: State, prefix: seq<Message>, tag: string, chunks: seq<string>)
    requires ShowsAnswer(s, prefix, tag)
    ensures var t := Deliver(s, seq(|chunks|, i requires 0 <= i < |chunks| => Content(chunks[i])));
            ShowsAnswer(t, prefix, tag) && t.answer == s.answer + Concat(chunks) &&
            t.status == s.status && t.task == s.task && t.references == s.references
    decreases |chunks|
  {
    var evs := seq(|chunks|, i requires 0 <= i < |chunks| => Content(chunks[i]));
    if |chunks| > 0 {
      var s1 := OnContent(s, chunks[0]);
      assert s.history[..|s.history| - 1] == prefix;
      assert ShowsAnswer(s1, prefix, tag);
      var rest := seq(|chunks| - 1, i requires 0 <= i < |chunks| - 1 => Content(chunks[1..][i]));
      assert evs[1..] == rest;
      ContentKeepsShape(s1, prefix, tag, chunks[1..]);
      assert chunks == [chunks[0]] + chunks[1..];
      ConcatCons(chunks[0], chunks[1..]);
    }
  }

  /** Streaming: from the placeholder pushed by `initMessages`, a well-formed
      stream of chunks and a finish leaves the history as before except the
      last entry, which holds the concatenated chunks (plus the error suffix)
      under the placeholder's model tag; the session is idle again. */
  lemma StreamAccumulates(s: State, prefix: seq<Message>, tag: string, chunks: seq<string>, error: string)
    requires s.history == prefix + [Message(Assistant, "", tag)] && s.answer == ""
    ensures var events := seq(|chunks|, i requires 0 <= i < |chunks| => Content(chunks[i])) + [Finish(error)];
            var t := Deliver(s, events);
            && WellFormedStream(events)
            && t.history == prefix + [Message(Assistant, Concat(chunks) + ErrorSuffix(error), tag)]
            && t.answer == Concat(chunks) + ErrorSuffix(error)
            && t.status == StatusEmpty && t.task.None? && t.references == s.references
  {
    var contents := seq(|chunks|, i requires 0 <= i < |chunks| => Content(chunks[i]));
    ContentKeepsShape(s, prefix, tag, chunks);
    DeliverSplit(s, contents, [Finish(error)]);
    var m := Deliver(s, contents);
    var f := OnFinish(m, error);
    assert m.answer == Concat(chunks);
    assert f.answer == Concat(chunks) + ErrorSuffix(error);
    assert Deliver(m, [Finish(error)]) == Deliver(f, []) == f;
    if error != "" {
      assert m.history[..|m.history| - 1] == prefix;
      var n := |f.history|;
      assert f.history[..n - 1] == prefix;
      assert f.history[n - 1] == Message(Assistant, f.answer, tag);
      assert f.history == f.history[..n - 1] + [f.history[n - 1]];
    }
  }

  lemma {:induction false} DeliverSplit(s: State, a: seq<StreamEvent>, b: seq<StreamEvent>)
    ensures Deliver(s, a + b) == Deliver(Deliver(s, a), b)
    decreases |a|
  {
    if |a| == 0 {
      assert a + b == b;
    } else {
      assert (a + b)[1..] == a[1..] + b;
      var s1 := match a[0]
        case Content(text) => OnContent(s, text)
        case Finish(error) => OnFinish(s, error);
      DeliverSplit(s1, a[1..], b);
    }
  }
}
