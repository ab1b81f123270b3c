# membrain core, modelled in Dafny

membrain is a browser side-panel assistant. The user collects **references**:
captured web pages and text selections. The user then sets a **chat task**: a
prompt plus a reference scope (all references, the current page, or the
current selection). The **chat session** turns the task into a message list.
That list is a system prompt listing the references, the earlier turns and
the new question. The session resolves the selected model, its provider and
the API key, and hands the list to a **provider adapter** (OpenAI-compatible,
Anthropic or Gemini). The adapter streams the answer back through
`onContent`/`onFinish` callbacks.

The project models each part as pure functions over immutable values. React
setters are the values the function returns. Storage is a `map`. Page
capture, the clock and the network are inputs.

| file | module | models |
|---|---|---|
| wrappers.dfy, seqs.dfy, text.dfy | `Wrappers`, `Seqs`, `Text` | `Option`, filter/map/find/concat, JavaScript `trim` |
| message.dfy, config.dfy, call_contract.dfy | `Messages`, `Config`, `CallContract` | the records of `src/utils/message.ts` and `src/utils/config.ts`; the callback protocol |
| reference_core.dfy | `ReferenceCore` | the add/remove/clear rules shared by the three reference lists |
| reference_state.dfy, reference_store.dfy, references.dfy | `ReferenceState`, `ReferenceStore`, `ReferenceBox` | the three reference lists; each is proved to agree with `ReferenceCore` |
| chat_state.dfy | `ChatState` | the model registry: all, enabled and current models |
| chat_session.dfy | `ChatSession` | the task effect, `chatWithLLM`, `initMessages` and the streaming callbacks |
| chat_actions.dfy, chat_input.dfy | `ChatActions`, `ChatInput` | the task builders |
| assistant.dfy, prompt_settings.dfy, model_settings.dfy | `Assistant`, `PromptSettings`, `ModelSettings` | the panel host and the two settings editors |
| outgoing.dfy, openai_api.dfy, openai_compat.dfy, anthropic_api.dfy, google_api.dfy, dispatch.dfy | `Outgoing`, `OpenAIApi`, `OpenAICompat`, `AnthropicApi`, `GoogleApi`, `Dispatch` | provider message preparation and the provider choice |

Behaviour of the code worth noting:

- The empty-prompt check of the task effect is `prompt == ""`. A prompt of blanks passes it. The task builders never produce one; `ChatInput.SubmittedTaskIsNeverEmpty` proves this for the input box.
- A configuration error in `chatWithLLM` sets the status but keeps the task. The processing guard does not block a retry.
- `loadChatState` leaves the current model alone when no enabled model has the stored id. It does not fall back to the first enabled model.
- The code carries no task id, so streamed chunks are not matched to a task.
- `src/assistant.tsx` renders the session and the input box with props (`lang`, `inChatTask`, `allModels={enabledModels}`) that do not match what `src/components/chat_session.tsx:11-13` and `src/components/chat_input.tsx:7-8` declare (`displayText`, `chatLanguage`, `enabled`). Taken literally, `enabled` would be undefined and the input box would never submit. The model follows each component's declared props.
- `src/utils/message.ts` does not define `CHAT_STATUS_EMPTY`. It is taken to be `""`, the status the session resets to.
- `src/components/model_settings.tsx` keys configs by provider name. `chat_state.ts` keys them by provider id. Each module uses the key its file uses.

## Model

| member | source | states |
|---|---|---|
| Messages.NewMessage | src/utils/message.ts:6-10 | a message carries the given role and content; the model tag defaults to "" |
| Messages.NewReference | src/utils/message.ts:22-32 | a web page's id is "webpage:" + url; any other reference's id is "text:" + title |
| Messages.SameUrlSameId | src/utils/message.ts:27-28 | two captures of one url get the same id, whatever their titles or contents |
| Messages.IdDetermines | src/utils/message.ts:27-31 | for constructed references, equal ids mean equal kinds, and equal urls (pages) or titles (text) |
| Text.Trim | src/components/chat_input.tsx:24 | `trim` returns the slice of the string between a run of leading and a run of trailing JavaScript white space, with no white space at either end; it returns "" exactly when the string is all white space |
| Text.TrimCut | src/components/chat_input.tsx:24 | the trimmed text starts right after the leading white space and is followed only by white space |
| Text.TrimEmpty | src/components/chat_input.tsx:24 | trimming leaves nothing exactly when the string is all white space |
| ReferenceCore.AddPage | src/logic/reference_state.ts:18-34 | a failed capture returns null and changes nothing; a page whose url is already listed as a web page is not added again; otherwise it is appended; the capture is returned either way |
| ReferenceCore.AddSelection | src/logic/reference_state.ts:36-49 | a selection is appended without any duplicate test; a failed capture changes nothing |
| ReferenceCore.Remove | src/logic/reference_state.ts:51-55 | exactly the references with a different id survive |
| ReferenceCore.AddPageFailed | src/logic/reference_state.ts:19-22 | when the page cannot be captured, nothing is written and null is returned |
| ReferenceCore.AddPageTwice | src/logic/reference_state.ts:24-31 | adding the same page a second time leaves the list unchanged |
| ReferenceCore.MutationsKeepUnique | src/logic/reference_state.ts:18-60 | page adds, removals and clears keep at most one web page per url |
| ReferenceCore.AddSelectionKeepsUnique | src/logic/reference_state.ts:36-49 | adding a text selection keeps at most one web page per url |
| ReferenceCore.RemoveAbsent | src/logic/reference_state.ts:51-55 | removing an id no reference has is a no-op |
| ReferenceCore.RemovePresent | src/logic/reference_state.ts:51-55 | removing an id some reference has makes the list strictly shorter |
| ReferenceCore.RemoveOrder | src/logic/reference_state.ts:51-55 | removal keeps the survivors in order (it distributes over concatenation) and is idempotent |
| ReferenceCore.DedupByUrlIsDedupById | src/logic/reference_state.ts:25 | for constructed references, looking for a web page with the url is looking for the id "webpage:" + url |
| ReferenceState.AddPageRef | src/logic/reference_state.ts:18-34 | the store follows `ReferenceCore.AddPage`; when it writes, it saves the new list under "references" |
| ReferenceState.AddSelectionRef | src/logic/reference_state.ts:36-49 | the store follows `ReferenceCore.AddSelection` and saves the new list |
| ReferenceState.RemoveRef | src/logic/reference_state.ts:51-55 | the store follows `ReferenceCore.Remove` and saves the result |
| ReferenceState.ClearReferences | src/logic/reference_state.ts:57-60 | the list becomes empty and the empty list is saved |
| ReferenceState.LoadReferences | src/logic/reference_state.ts:62-65 | the list becomes the saved one, or [] when nothing is saved; storage is untouched |
| ReferenceState.LoadIdempotent | src/logic/reference_state.ts:62-65 | loading twice is loading once |
| ReferenceState.ReloadRestores | src/logic/reference_state.ts:18-65 | after any mutation of a saved store, a reload gives back the same store |
| ReferenceState.ClearIdempotent | src/logic/reference_state.ts:57-65 | clearing twice is clearing once, and a reload after clearing is empty |
| ReferenceState.PageTwice | src/logic/reference_state.ts:24-31 | adding one page twice to an empty store leaves a single entry |
| ReferenceState.SelectionTwice | src/logic/reference_state.ts:43-46 | adding one selection twice leaves two entries |
| ReferenceStore.AddPageRef | src/logic/reference_store.tsx:17-32 | the non-persisting store follows `ReferenceCore.AddPage` |
| ReferenceStore.AddSelectionRef | src/logic/reference_store.tsx:34-44 | it follows `ReferenceCore.AddSelection` |
| ReferenceStore.RemoveReference | src/logic/reference_store.tsx:46-50 | it keeps exactly the references with another id, as `ReferenceCore.Remove` does |
| ReferenceStore.ClearReferences | src/logic/reference_store.tsx:52-54 | it yields the empty list |
| ReferenceBox.AddPageToReference | src/components/references.tsx:14-29 | the setter is called exactly when `ReferenceCore.AddPage` writes, and with the same list; the capture is returned |
| ReferenceBox.AddSelectionToReference | src/components/references.tsx:101-109 | the setter call follows `ReferenceCore.AddSelection` |
| ReferenceBox.RemoveReference | src/components/references.tsx:60-62 | the setter gets exactly the references with another id |
| ReferenceBox.ClearReferences | src/components/references.tsx:56-58 | the setter gets the empty list |
| ReferenceBox.CostMonotone | src/components/references.tsx:42-53 | the display width of a prefix never decreases as the prefix grows |
| ReferenceBox.Ellipse | src/components/references.tsx:42-53 | a text that fits the width limit is returned whole; otherwise the result is the longest fitting prefix followed by "..." (every longer prefix exceeds the limit) |
| ChatState.AllModels | src/logic/chat_state.ts:91-93 | the system models, then the custom models |
| ChatState.AllProviders | src/logic/chat_state.ts:94-96 | the system providers, then the custom providers |
| ChatState.PairsOf | src/logic/chat_state.ts:102-105 | one provider contributes exactly its models whose names its config enables |
| ChatState.EnabledPairs | src/logic/chat_state.ts:97-107 | a pair is listed exactly when its provider is listed with an enabled config and its model belongs to that provider and is enabled by name |
| ChatState.EnabledOrder | src/logic/chat_state.ts:97-107 | the enabled list is provider-major, then in model order |
| ChatState.EnabledSplit | src/logic/chat_state.ts:99-106 | the enabled list of a provider list split in two is the two lists concatenated |
| ChatState.PairsSplit | src/logic/chat_state.ts:103-105 | a provider's pairs over a split model list are the two halves' pairs concatenated |
| ChatState.EnabledExample | src/logic/chat_state.ts:97-107 | an enabled provider with only "m1" enabled lists just m1; a disabled one lists nothing |
| ChatState.RefreshCurrentModel | src/logic/chat_state.ts:135-162 | the current model becomes null exactly when nothing is enabled; a valid current model is kept; an invalid one becomes the first enabled pair; no other field changes |
| ChatState.RefreshFixpoint | src/logic/chat_state.ts:82-86 | the refresh that `setCurrentModel` triggers after a refresh changes nothing, so the call chain stops |
| ChatState.SetCurrentModel | src/logic/chat_state.ts:82-86 | choosing an enabled model keeps it; any model that survives is valid |
| ChatState.DisablingCascades | src/logic/chat_state.ts:77-81 | disabling the current model's provider moves the selection to another provider's model, or to none |
| ChatState.RestoreCurrentModel | src/logic/chat_state.ts:117-123 | when an enabled pair has the stored model id, the first such pair becomes current; with no stored id or no match the registry is left alone; nothing but the current choice changes |
| ChatState.LoadChatState | src/logic/chat_state.ts:108-128 | the loaded settings replace the old ones; the first pair of the loaded registry with the stored id becomes current, and with no such pair the loaded registry keeps the old current model |
| ChatState.ClearChatSession | src/logic/chat_state.ts:129-134 | status "", no task, empty history |
| ChatSession.Entries | src/components/chat_session.tsx:84-90 | one entry per reference, numbered from 1 |
| ChatSession.ListingIsEntries | src/components/chat_session.tsx:84-90 | the reference listing is the numbered entries concatenated in order |
| ChatSession.SystemPromptShape | src/components/chat_session.tsx:80-91 | the system prompt is the fixed head naming the chat language, then, with references, the localized header and the listing |
| ChatSession.InitMessages | src/components/chat_session.tsx:77-96 | the request is system prompt, history, question; the stored history is history, question, then an empty assistant turn tagged with the model name |
| ChatSession.ConfigErrorsAreErrors | src/components/chat_session.tsx:99-112 | the three configuration statuses are neither "" nor "processing" |
| ChatSession.Resolve | src/components/chat_session.tsx:98-112 | a call is possible exactly when the model is found by name, its provider by id, and the provider's API key is non-empty; otherwise an error status is given |
| ChatSession.ChatWithLLM | src/components/chat_session.tsx:98-127 | on a configuration error only the status changes; otherwise the answer is reset, the status becomes "processing", the history gains the question and the placeholder, and the call carries the resolved provider, key and model |
| ChatSession.HandleTask | src/components/chat_session.tsx:130-170 | no task or a running call does nothing; an empty prompt is rejected with its status and the task dropped; a call is issued only for a pending task; a task that ends without a call leaves an error status and the history untouched; a task over all references sends its prompt with the current references |
| ChatSession.PageScope | src/components/chat_session.tsx:142-153 | a page task adds the captured page (if new) and sends it as the only reference with the page prompt; a failed capture ends the task with its status |
| ChatSession.SelectionScope | src/components/chat_session.tsx:154-166 | a selection task inlines the selection into the prompt and sends the current references; no selection ends the task with its status |
| ChatSession.SyncAnswer | src/components/chat_session.tsx:47-61 | a non-empty answer replaces the content of a trailing assistant turn, keeping its model tag; nothing else changes |
| ChatSession.OnFinish | src/components/chat_session.tsx:68-75 | an error message is appended to the answer as " [ERROR]:…"; the status becomes "" and the task is dropped |
| ChatSession.ContentKeepsShape | src/components/chat_session.tsx:63-66 | content callbacks append to the answer, and the trailing assistant turn keeps showing it |
| ChatSession.StreamAccumulates | src/components/chat_session.tsx:47-75 | after a well-formed stream, the placeholder turn holds the concatenated chunks plus any error suffix, and the session is idle |
| ChatActions.ChatTasks | src/components/chat_actions.tsx:17-33 | the three built-in actions (all, page, selection) come first, then exactly the template actions |
| ChatActions.TemplateActions | src/components/chat_actions.tsx:29-33 | every template action has a prompt that is not blank |
| ChatActions.TemplateActionsAreUsableTemplates | src/components/chat_actions.tsx:29-33 | the template actions are exactly the templates with a non-blank prompt, in order, each copying name, prompt and reference type |
| ChatActions.TagsFollowSession | src/components/chat_actions.tsx:37-46 | an issued call shows only the processing tag; a task ended without a call shows only the error tag; a finished call shows neither |
| ChatInput.Chat | src/components/chat_input.tsx:23-29 | a task is set exactly when the input is enabled and not blank; it is the trimmed text with scope "all", and the box is cleared |
| ChatInput.KeyDown | src/components/chat_input.tsx:31-36 | only Enter with the meta key submits |
| ChatInput.SubmittedTaskIsNeverEmpty | src/components/chat_input.tsx:23-29 | a submitted prompt is non-empty with no surrounding white space, so the session never rejects it as empty |
| Assistant.EnabledModels | src/assistant.tsx:123-127 | a model is listed exactly when some enabled config names its provider and enables its name |
| Assistant.EnabledSingle | src/assistant.tsx:123-127 | one config contributes the models it admits, in model order, when enabled, and nothing otherwise |
| Assistant.EnabledConcat | src/assistant.tsx:123-127 | the list is config-major: splitting the configs splits the list |
| Assistant.ModelsOfConfigOrder | src/assistant.tsx:126 | within a config the models keep their order in the model list, and every admitted occurrence is listed, duplicates included |
| Assistant.RepairTakesFirstConfig | src/assistant.tsx:123-136 | when the name is not enabled, the repair takes the first model of the first config that lists any |
| Assistant.RepairModelName | src/assistant.tsx:129-137 | an enabled name is kept; otherwise the first enabled model's name is taken, or "" when none is enabled |
| Assistant.RepairSettles | src/assistant.tsx:129-137 | after repair the name is enabled, or "" with nothing enabled; a second repair changes nothing |
| Assistant.ClearChatSession | src/assistant.tsx:108-112 | empty history, status "", no task; the references stay |
| Assistant.ClearAll | src/assistant.tsx:114-117 | history, status and task are cleared and so are the references; the last answer stays |
| Assistant.ClearedSessionIsIdle | src/assistant.tsx:108-117 | after either clear, the task effect does nothing |
| Assistant.CheckMenuTask | src/assistant.tsx:66-87 | no stored task, or one for another window, does nothing; otherwise the record is cleared and the page is added first; the task matches the menu name, and an unknown name or a failed capture sets none |
| Assistant.SaveCustomProviders | src/assistant.tsx:55-59 | saving stores the providers under the provider key and leaves every other key as it was |
| Assistant.ProvidersOverwriteModelsAsWritten | src/assistant.tsx:54-59 | with both settings under "customModels", a provider save replaces a stored model list by the provider list, and the model list is nowhere in storage afterwards |
| Assistant.ProvidersKeepModels | src/logic/chat_state.ts:67-75 | with the provider list under "customProviders", a provider save keeps the models and reads back as saved |
| PromptSettings.IndexOf | src/components/prompt_settings.tsx:17 | the first index with the id, or none when no template has it |
| PromptSettings.UpdateTemplate | src/components/prompt_settings.tsx:16-39 | an unknown id calls no setter; otherwise only the first matching template gets the new prompt, name or reference type, and the length and every other template stay |
| PromptSettings.RemoveTemplate | src/components/prompt_settings.tsx:40-47 | an unknown id calls no setter; otherwise the first matching template is spliced out and the rest keep their order |
| PromptSettings.AddPromptTemplate | src/components/prompt_settings.tsx:48-51 | a template with the default name, an empty prompt and scope "all" is appended |
| PromptSettings.EditsKeepIds | src/components/prompt_settings.tsx:16-39 | field edits never change the list of ids, so later edits find the same template |
| PromptSettings.UpdateIdempotent | src/components/prompt_settings.tsx:16-39 | making the same field edit twice is making it once |
| PromptSettings.AddThenRemove | src/components/prompt_settings.tsx:40-51 | removing a just-added template with a fresh id restores the list |
| ModelSettings.ConfigFor | src/components/model_settings.tsx:22-23 | a provider without a config is shown as disabled, with no key and no models |
| ModelSettings.UpdateProviderConfig | src/components/model_settings.tsx:15-19 | the config is stored under its provider name; every other entry is unchanged |
| ModelSettings.ToggleProvider | src/components/model_settings.tsx:32-38 | the edited config, with only its enabled flag changed, is written back under its own provider name and nothing else changes; configs keyed by name stay so |
| ModelSettings.SetApiKey | src/components/model_settings.tsx:45-50 | the edited config, with only its key changed, is written back under its own provider name and nothing else changes |
| ModelSettings.SwitchModel | src/components/model_settings.tsx:66-74 | switching on appends the name; switching off removes every occurrence and keeps the other names |
| ModelSettings.ToggleModel | src/components/model_settings.tsx:63-75 | the edited config is written back under its own provider name; in it the model is enabled exactly when it was switched on, while other names, the flag and the key are unchanged; other providers are untouched |
| ModelSettings.ModelsOf | src/components/model_settings.tsx:24 | exactly the models of the provider are listed |
| ModelSettings.OnThenOff | src/components/model_settings.tsx:66-74 | switching a model on then off is switching it off |
| ModelSettings.OffIdempotent | src/components/model_settings.tsx:69-72 | switching off twice is switching off once |
| ModelSettings.OffAbsent | src/components/model_settings.tsx:69-72 | switching off a model that is not enabled changes nothing |
| Outgoing.PrepareMessages | src/utils/openai_api.ts:35-43 | the loop yields the sendable messages (non-empty, not "<error>" once trimmed), converted, in order |
| Outgoing.PrepareSnoc | src/utils/openai_api.ts:36-43 | one more message adds its converted form exactly when it is sendable |
| Outgoing.PrepareConcat | src/utils/openai_api.ts:36-43 | preparation works message by message |
| Outgoing.PrepareKeepsExactlySendable | src/utils/openai_api.ts:37 | nothing is dropped exactly when all messages are sendable; nothing unsendable is sent |
| Outgoing.MergeFirstTwo | src/utils/anthropic_api.ts:38-41 | with two or more messages, the first two become one user message joined by a blank line; the rest follow |
| OpenAIApi.PrepareChatData | src/utils/openai_api.ts:29-52 | the body carries the model, temperature and token limit, asks for a stream, and contains the prepared messages, none of them empty |
| OpenAIApi.PreparedContentsNonEmpty | src/utils/openai_api.ts:37 | no prepared message has empty content |
| OpenAIApi.CallOpenAIApi | src/utils/openai_api.ts:54-65 | the provider endpoint and key, the model name, temperature 0.3, half the model's output limit as `max_tokens` |
| OpenAIApi.CallModel | src/utils/openai_api.ts:5-27 | one content callback per chunk ("" for a chunk without delta content), then one finish callback with the failure text or "" |
| OpenAIApi.CallModelAnswer | src/utils/openai_api.ts:5-27 | fed to the session, the stream leaves the concatenated deltas (and any error) as the last assistant turn, and the session idle |
| OpenAICompat.TotalContentPrefix | src/utils/openai.ts:72 | the summed content length of a prefix is no larger than that of the whole list |
| OpenAICompat.YiModelFor | src/utils/openai.ts:72-73 | "yi-34b-chat-0205" exactly when the contents total fewer than 3000 characters, else "yi-34b-chat-200k" |
| OpenAICompat.YiLongStaysLong | src/utils/openai.ts:72-73 | once a conversation needs the long-context model, every extension of it does too |
| OpenAICompat.FixedRequest | src/utils/openai.ts:29-52 | a fixed adapter's body has the given model, temperature 0.3 and 2048 tokens |
| OpenAICompat.CallKimi | src/utils/openai.ts:54-63 | Moonshot's URL, "moonshot-v1-8k", 0.3, 2048 |
| OpenAICompat.CallYi | src/utils/openai.ts:65-76 | Lingyiwanwu's URL and the length-chosen Yi model |
| OpenAICompat.CallBaichuan | src/utils/openai.ts:78-87 | Baichuan's URL and "Baichuan2-Turbo" |
| OpenAICompat.CallOpenAI | src/utils/openai.ts:89-98 | OpenAI's URL and "gpt-3.5-turbo" |
| AnthropicApi.PrepareChatData | src/utils/anthropic_api.ts:6-28 | the prepared messages, with only "user" and "assistant" roles |
| AnthropicApi.OnlyTwoRoles | src/utils/anthropic_api.ts:14-20 | system messages are sent as user messages; no other role appears |
| AnthropicApi.CallClaude | src/utils/anthropic_api.ts:30-52 | the model's name, temperature 0.3, the given token limit, and the merged then prepared messages |
| AnthropicApi.CallFixedClaude | src/utils/claude.ts:29-50 | "claude-3-sonnet-20240229", temperature 0.3, 2048 tokens, merged then prepared messages |
| AnthropicApi.SystemPromptFolded | src/utils/anthropic_api.ts:38-41 | a session's system prompt reaches Anthropic inside one user message with the first turn; the other turns follow in order |
| GoogleApi.PrepareHistory | src/utils/google_api.ts:5-16 | every history entry comes from a sendable message before the last, as a "model"/"user" entry with one non-empty text part; when all of those are sendable none is dropped |
| GoogleApi.EntriesFromSendable | src/utils/google_api.ts:7-13 | each prepared entry is the conversion of a sendable message of the list |
| GoogleApi.HistoryIgnoresLast | src/utils/google_api.ts:5-16 | the history does not depend on the message being sent, and grows by the previous last message |
| GoogleApi.CallGemini | src/utils/google_api.ts:18-52 | with no messages the call fails with the thrown text; otherwise the merged list's history, its last content as the message, half the output limit, the given temperature, and the streamed callbacks |
| GoogleApi.SendsTheQuestion | src/utils/google_api.ts:29-42 | for a session's list with earlier turns, the message sent is the new question |
| Dispatch.Send | src/components/chat_session.tsx:120-126 | a Google provider goes to Gemini, an Anthropic one to Claude, every other one to the OpenAI adapter with the provider's endpoint |
| GoogleApi.Param | src/utils/google_api.ts:18-25 | arguments bind to parameters by position; missing ones are undefined |
| GoogleApi.Invoke | src/utils/google_api.ts:45-50 | only the session's two callbacks deliver an event; calling anything else delivers nothing |
| GoogleApi.Stream | src/utils/google_api.ts:43-51 | with no chunks only the finish callback runs |
| GoogleApi.StreamWithCallbacks | src/utils/google_api.ts:43-48 | with the callbacks where declared, every chunk is delivered in order, then the finish |
| GoogleApi.CallGeminiWith | src/utils/google_api.ts:26-51 | when `messages` does not hold a list the adapter throws before the stream and its handler calls whatever `onFinish` holds |
| GoogleApi.DeclaredBinding | src/utils/google_api.ts:18-52 | bound as declared, the adapter delivers exactly the callbacks of its run |
| Dispatch.GoogleEventsAsWritten | src/components/chat_session.tsx:121 | with the call site's five arguments, the adapter delivers no callback at all, so no well-formed stream |
| Dispatch.GoogleEvents | src/utils/google_api.ts:18-52 | with the arguments bound as declared, the callbacks are those of the adapter's run and form a well-formed stream |
| Dispatch.GoogleDelivers | src/utils/google_api.ts:43-51 | bound as declared, the stream fills the empty answer entry with the chunks and any error and leaves the session idle |
| Dispatch.GoogleChatHangsAsWritten | src/components/chat_session.tsx:121 | as written, a Google chat stays "processing" and every later task is ignored |
| Dispatch.GoogleChatFinishes | src/utils/google_api.ts:18-52 | with the arguments bound as declared, a Google chat ends idle, with the streamed answer in the last turn |

## Left out

- Rendering: markdown, icons, drawers, scrolling and the display of history and references are not modelled.
- Page and selection capture (`src/utils/page_content.ts`), the chrome windows and messaging API, and the network are not modelled. A capture is an `Option` input. A provider's stream is a list of chunks plus an optional failure.
- Asynchrony is not modelled. Each handler runs to completion on the state it reads. React's batching, the `round` counter and races between two tasks are out of scope.
- Aliasing through shared objects is not modelled. The settings editors mutate the config or template object in place before calling the setter; the model works on values and only models the list handed to the setter.
- Storage is a map with no quota and no failure. `src/logic/useStorage.ts` and the chrome storage wrapper are not part of this model.
- Assistant.LoadCustomModels: stored values are typed (a model list or a provider list) and the loaders read back only a value of their own type. The source re-reads the JSON under whatever key the hook names and uses it as the declared type. So after a provider save under "customModels", the source reads the provider objects back as models, and at mount it reads a stored model list as providers. The model reads `[]` in both cases. The finding about that key rests on what the save writes, not on this read-back.
- `setTemperature`, `setPromptTemplates` and `setHistory` in `src/logic/chat_state.ts` set their field and save it to storage under "temperature", "promptTemplates" and "history". Neither the field write nor the save is modelled: each is one assignment and one storage write with no logic to state.
- Text.Trim: models characters as Unicode scalar values. JavaScript strings count UTF-16 code units. The same difference applies to `ReferenceBox.Ellipse`, where `charCodeAt` sees a surrogate pair as two wide units, and to `OpenAICompat.YiModelFor`'s length sum.
- AnthropicApi.CallClaude: the token limit is a parameter. The source reads `model.maxTokens`, a field the model record does not declare.
- Dispatch.Send: the Gemini temperature is a parameter, because the call site passes none (see Findings).
- The Anthropic adapters' callback order depends on the SDK's event emitter. Only the request they build is modelled.
- The error text of a thrown exception (`error?.toString()`) is an input. A thrown `undefined` finishes with "" and so reads as success. The model allows that through its `failure` input.
- Background menu registration (`src/background.ts`), the options page and locale lookup are context. `displayText` is a function input.

## Findings

| source | as written | input that shows it | evidently intended | confidence | as-written member | corrected member |
|---|---|---|---|---|---|---|
| src/assistant.tsx:55-59 | the custom providers are read from and saved under the storage key "customModels" | a stored model list, then any provider save: the model list is gone | the key "customProviders", as `src/logic/chat_state.ts:72-75` uses | high, not executed | Assistant.ProvidersOverwriteModelsAsWritten | Assistant.ProvidersKeepModels |
| src/components/chat_session.tsx:121 | `callGemini` gets five arguments but declares six (apiKey, model, temperature, messages, onContent, onFinish), so the message list lands in `temperature` and `onFinish` is undefined; the adapter throws before any callback | any chat whose model's provider has apiType "Google": the session stays "processing" | pass a temperature before the messages, so the callbacks reach the session | medium, not executed; the source mixes revisions here (`src/assistant.tsx` passes props such as `lang` and `inChatTask` that the session and input components no longer declare), and this call may come from the same mismatch | Dispatch.GoogleChatHangsAsWritten | Dispatch.GoogleChatFinishes |
