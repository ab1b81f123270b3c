/** Descriptors shared by the registry, the settings editors and the chat
    session: tasks, models, providers, provider configurations and prompt
    templates (src/utils/config.ts and the types it is used with). */
module Config {

  /** ChatReferenceType: which references a task is grounded in. */
  datatype ChatRefType = All | Page | Selection

  /** An intent to produce one assistant turn. */
  datatype ChatTask = ChatTask(prompt: string, refType: ChatRefType)

  datatype ApiType = OpenAI | Google | Anthropic

  /** A callable model endpoint; `providerId` points at its provider. */
  datatype Model = Model(id: string, providerId: string, name: string, maxContext: int, maxOutput: int)

  /** An API backend; `endpoint` is the base URL of OpenAI-compatible ones. */
  datatype Provider = Provider(id: string, name: string, apiType: ApiType, endpoint: string)

  /** Per-provider user configuration, keyed by `providerId`. */
  datatype ProviderConfig = ProviderConfig(providerId: string, enabled: bool, apiKey: string, enabledModels: seq<string>)

  datatype ModelAndProvider = ModelAndProvider(model: Model, provider: Provider)

  /** A user-defined prompt that becomes a chat task. */
  datatype PromptTemplate = PromptTemplate(id: string, name: string, prompt: string, refType: ChatRefType)

  /** Names of the tasks the context menu hands to the side panel. */
  const MenuTaskSummarizePage: string := "summarize_page"
  const MenuTaskExplainSelection: string := "explain_selection"
}
