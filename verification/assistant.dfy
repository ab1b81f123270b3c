/** The side-panel host of src/assistant.tsx: the enabled model list by
    name, the repair of the selected model name, the clear actions, and the
    translation of a context-menu task into a chat task. */
module Assistant {
  import opened Wrappers
  import opened Seqs
  import opened Messages
  import opened Config
  import ChatSession
  import ReferenceCore
  import ReferenceBox

  /** The test a config applies to each model: same provider, name enabled. */
  function Admits(c: ProviderConfig): Model -> bool {
    (m: Model) => m.providerId == c.providerId && m.name in c.enabledModels
  }

  /** The models one enabled config admits, in model order. */
  function ModelsOfConfig(models: seq<Model>, c: ProviderConfig): seq<Model> {
    Filter(Admits(c), models)
  }

  /** `enabledModels`, over the configs in `Object.values` order. */
  function EnabledModels(configs: seq<ProviderConfig>, models: seq<Model>): (r: seq<Model>)
    ensures forall m :: m in r <==>
              m in models && exists i :: 0 <= i < |configs| && configs[i].enabled &&
                                         m.providerId == configs[i].providerId && m.name in configs[i].enabledModels
    decreases |configs|
  {
    if |configs| == 0 then []
    else
      var c := configs[0];
      var rest := EnabledModels(configs[1..], models);
      assert forall i :: 0 < i < |configs| ==> configs[i] == configs[1..][i - 1];
      (if c.enabled then ModelsOfConfig(models, c) else []) + rest
  }

  /** One config lists the models it admits when it is enabled, else none. */
  lemma EnabledSingle(c: ProviderConfig, models: seq<Model>)
    ensures EnabledModels([c], models) == (if c.enabled then ModelsOfConfig(models, c) else [])
  {
  }

  /** The list is config-major: splitting the configs splits the list. */
  lemma {:induction false} EnabledConcat(a: seq<ProviderConfig>, b: seq<ProviderConfig>, models: seq<Model>)
    ensures EnabledModels(a + b, models) == EnabledModels(a, models) + EnabledModels(b, models)
    decreases |a|
  {
    if |a| == 0 {
      assert a + b == b;
    } else {
      assert (a + b)[0] == a[0];
      assert (a + b)[1..] == a[1..] + b;
      EnabledConcat(a[1..], b, models);
    }
  }

  /** Within a config the list follows the model order and keeps every
      admitted occurrence, duplicates included. */
  lemma ModelsOfConfigOrder(c: ProviderConfig, ms1: seq<Model>, m: Model, ms2: seq<Model>)
    ensures ModelsOfConfig(ms1 + [m] + ms2, c)
            == ModelsOfConfig(ms1, c) + (if Admits(c)(m) then [m] else []) + ModelsOfConfig(ms2, c)
  {
    FilterConcat(Admits(c), ms1 + [m], ms2);
    FilterConcat(Admits(c), ms1, [m]);
    assert Filter(Admits(c), [m]) == (if Admits(c)(m) then [m] else []) by {
      assert [m][1..] == [];
    }
  }

  /** The repair effect picks the first model of the first config that
      lists any: with configs before it listing nothing, a config `c` that
      lists models supplies the name when the current one is not enabled. */
  lemma RepairTakesFirstConfig(pre: seq<ProviderConfig>, c: ProviderConfig, post: seq<ProviderConfig>,
                               models: seq<Model>, name: string)
    requires EnabledModels(pre, models) == [] && c.enabled && |ModelsOfConfig(models, c)| > 0
    requires name !in Names(EnabledModels(pre + [c] + post, models))
    ensures RepairModelName(EnabledModels(pre + [c] + post, models), name) == ModelsOfConfig(models, c)[0].name
  {
    var head := ModelsOfConfig(models, c);
    EnabledSingle(c, models);
    EnabledConcat(pre, [c], models);
    assert EnabledModels(pre + [c], models) == head;
    EnabledConcat(pre + [c], post, models);
    var enabled := EnabledModels(pre + [c] + post, models);
    assert enabled == head + EnabledModels(post, models);
    assert |enabled| > 0 && enabled[0] == head[0];
  }

  /** The names of a model list. */
  function Names(models: seq<Model>): seq<string> {
    Map((m: Model) => m.name, models)
  }

  /** The effect on config change: keep the name if an enabled model has
      it, else take the first enabled model's name, else "". */
  function RepairModelName(enabled: seq<Model>, name: string): (r: string)
    ensures name in Names(enabled) ==> r == name
    ensures name !in Names(enabled) && |enabled| > 0 ==> r == enabled[0].name
    ensures name !in Names(enabled) && |enabled| == 0 ==> r == ""
  {
    if name in Names(enabled) then name
    else if |enabled| > 0 then enabled[0].name
    else ""
  }

  /** After repair the name belongs to an enabled model, or is "" exactly
      when none is enabled; repairing again changes nothing. */
  lemma RepairSettles(enabled: seq<Model>, name: string)
    ensures var r := RepairModelName(enabled, name);
            (r in Names(enabled) || (r == "" && |enabled| == 0)) && RepairModelName(enabled, r) == r
  {
    if |enabled| > 0 {
      assert Names(enabled)[0] == enabled[0].name;
    }
  }

  /** `clearChatSession`: empty history, idle status, no task. */
  function ClearChatSession(s: ChatSession.State): (r: ChatSession.State)
    ensures r.history == [] && r.status == StatusEmpty && r.task.None?
    ensures r.references == s.references && r.answer == s.answer
  {
    s.(history := [], status := "", task := None)
  }

  /** `clearAll`: the chat session and the references. */
  function ClearAll(s: ChatSession.State): (r: ChatSession.State)
    ensures r.history == [] && r.status == StatusEmpty && r.task.None?
    ensures r.references == [] && r.answer == s.answer
  {
    ClearChatSession(s).(references := [])
  }

  /** After clearing there is no task, so the task effect does nothing. */
  lemma ClearedSessionIsIdle(env: ChatSession.Env, s: ChatSession.State, cap: ChatSession.Capture)
    ensures ChatSession.HandleTask(env, ClearAll(s), cap) == ChatSession.Step(ClearAll(s), None)
    ensures ChatSession.HandleTask(env, ClearChatSession(s), cap) == ChatSession.Step(ClearChatSession(s), None)
  {
  }

  /** The pending record the context menu leaves in local storage. */
  datatype MenuTask = MenuTask(windowId: int, name: string)

  /** What `checkNewTaskFromBackground` does: whether it clears the stored
      record, the list it passes to `setReferences` (if any), and the task it
      sets (if any). */
  datatype MenuOutcome = MenuOutcome(clearStored: bool, setReferences: Option<seq<Reference>>, task: Option<ChatTask>)

  /** `checkNewTaskFromBackground`, with the stored record, the current
      window, the page capture and the localized text lookup as inputs. The
      current page is added before the name is examined. */
  function CheckMenuTask(menuTask: Option<MenuTask>, currentWindow: int, references: seq<Reference>,
                         page: Option<Reference>, text: string -> string): (r: MenuOutcome)
    ensures menuTask.None? || menuTask.value.windowId != currentWindow ==> r == MenuOutcome(false, None, None)
    ensures menuTask.Some? && menuTask.value.windowId == currentWindow ==>
              r.clearStored && r.setReferences == ReferenceCore.AddPage(references, page).update
    ensures r.task.Some? ==> page.Some? && menuTask.Some? && menuTask.value.windowId == currentWindow
    ensures menuTask.Some? && menuTask.value.windowId == currentWindow && page.Some? ==>
              (menuTask.value.name == MenuTaskSummarizePage ==> r.task == Some(ChatTask(text("prompt_summarizePage"), Page))) &&
              (menuTask.value.name == MenuTaskExplainSelection ==> r.task == Some(ChatTask(text("prompt_summarizeSelection"), Selection))) &&
              (menuTask.value.name != MenuTaskSummarizePage && menuTask.value.name != MenuTaskExplainSelection ==> r.task.None?)
  {
    match menuTask
    case None => MenuOutcome(false, None, None)
    case Some(mt) =>
      if mt.windowId != currentWindow then MenuOutcome(false, None, None)
      else
        var added := ReferenceBox.AddPageToReference(references, page);
        var task :=
          if added.returned.None? then None
          else if mt.name == MenuTaskSummarizePage then Some(ChatTask(text("prompt_summarizePage"), Page))
          else if mt.name == MenuTaskExplainSelection then Some(ChatTask(text("prompt_summarizeSelection"), Selection))
          else None;
        MenuOutcome(true, added.setCall, task)
  }

  /** The storage keys the panel reads its settings from. */
  datatype SettingsKeys = SettingsKeys(customModels: string, customProviders: string)

  /** The keys as written: the custom-provider list is read from and written
      to the custom-model key. */
  const KeysAsWritten: SettingsKeys := SettingsKeys("customModels", "customModels")

  /** The keys as intended, matching the keys the chat state saves under. */
  const Keys: SettingsKeys := SettingsKeys("customModels", "customProviders")

  /** A value in sync storage, as far as these two settings go. */
  datatype Stored = ModelList(models: seq<Model>) | ProviderList(providers: seq<Provider>)

  /** `useStorage` for the custom models: the stored model list, else []. */
  function LoadCustomModels(keys: SettingsKeys, storage: map<string, Stored>): seq<Model> {
    if keys.customModels in storage && storage[keys.customModels].ModelList? then storage[keys.customModels].models else []
  }

  /** `useStorage` for the custom providers: the stored provider list, else []. */
  function LoadCustomProviders(keys: SettingsKeys, storage: map<string, Stored>): seq<Provider> {
    if keys.customProviders in storage && storage[keys.customProviders].ProviderList? then storage[keys.customProviders].providers else []
  }

  /** The setter `useStorage` returns for the custom providers. */
  function SaveCustomProviders(keys: SettingsKeys, storage: map<string, Stored>, ps: seq<Provider>): (r: map<string, Stored>)
    ensures r.Keys == storage.Keys + {keys.customProviders}
    ensures r[keys.customProviders] == ProviderList(ps)
    ensures forall k :: k in storage && k != keys.customProviders ==> r[k] == storage[k]
  {
    storage[keys.customProviders := ProviderList(ps)]
  }

  /** As written, saving the custom providers erases the saved custom
      models: after any provider save, the custom-model key holds the
      provider list and the stored model list is gone from storage. */
  lemma ProvidersOverwriteModelsAsWritten(storage: map<string, Stored>, m: Model, ps: seq<Provider>)
    requires storage == map["customModels" := ModelList([m])]
    ensures LoadCustomModels(KeysAsWritten, storage) == [m]
    ensures var after := SaveCustomProviders(KeysAsWritten, storage, ps);
            && after == map["customModels" := ProviderList(ps)]
            && forall k :: k in after ==> after[k] != ModelList([m])
  {
  }

  /** With distinct keys a provider save leaves the custom models alone and
      is read back as saved. */
  lemma ProvidersKeepModels(storage: map<string, Stored>, ps: seq<Provider>)
    ensures LoadCustomModels(Keys, SaveCustomProviders(Keys, storage, ps)) == LoadCustomModels(Keys, storage)
    ensures LoadCustomProviders(Keys, SaveCustomProviders(Keys, storage, ps)) == ps
  {
  }
}
