/** The model registry of src/logic/chat_state.ts: the model and provider
    catalogs, the enabled (model, provider) pairs, and the repair of the
    current model whenever configuration changes. The system catalogs are
    fields of the registry because their definition is not part of this
    model. */
module ChatState {
  import opened Wrappers
  import opened Seqs
  import opened Messages
  import opened Config

  datatype Registry = Registry(
    systemModels: seq<Model>,
    systemProviders: seq<Provider>,
    customModels: seq<Model>,
    customProviders: seq<Provider>,
    providerConfigs: map<string, ProviderConfig>,
    current: Option<ModelAndProvider>,
    storedModelId: Option<string>)

  /** `getAllModels`: system models, then custom ones. */
  function AllModels(g: Registry): (r: seq<Model>)
    ensures |r| == |g.systemModels| + |g.customModels|
    ensures r[..|g.systemModels|] == g.systemModels && r[|g.systemModels|..] == g.customModels
  {
    g.systemModels + g.customModels
  }

  /** `getAllProviders`: system providers, then custom ones. */
  function AllProviders(g: Registry): (r: seq<Provider>)
    ensures |r| == |g.systemProviders| + |g.customProviders|
    ensures r[..|g.systemProviders|] == g.systemProviders && r[|g.systemProviders|..] == g.customProviders
  {
    g.systemProviders + g.customProviders
  }

  /** `c && c.enabled` for the config stored under the provider's id. */
  predicate ConfigEnabled(configs: map<string, ProviderConfig>, p: Provider) {
    p.id in configs && configs[p.id].enabled
  }

  /** The selection rule: a pair is enabled when its provider is listed and
      enabled, the model is listed and belongs to that provider, and the
      model's name is among the provider's enabled names. */
  predicate IsEnabledPair(providers: seq<Provider>, configs: map<string, ProviderConfig>, models: seq<Model>, mp: ModelAndProvider) {
    && mp.provider in providers
    && ConfigEnabled(configs, mp.provider)
    && mp.model in models
    && mp.model.providerId == mp.provider.id
    && mp.model.name in configs[mp.provider.id].enabledModels
  }

  /** The pairs one enabled provider contributes, in model order. */
  function PairsOf(models: seq<Model>, p: Provider, c: ProviderConfig): (r: seq<ModelAndProvider>)
    ensures forall mp :: mp in r <==> mp.provider == p && mp.model in models && mp.model.providerId == p.id && mp.model.name in c.enabledModels
    decreases |models|
  {
    if |models| == 0 then []
    else
      var m := models[0];
      (if m.providerId == p.id && m.name in c.enabledModels then [ModelAndProvider(m, p)] else [])
      + PairsOf(models[1..], p, c)
  }

  /** The cross-join of `getEnabledModels` over a provider list. */
  function EnabledPairs(providers: seq<Provider>, configs: map<string, ProviderConfig>, models: seq<Model>): (r: seq<ModelAndProvider>)
    ensures forall mp :: mp in r <==> IsEnabledPair(providers, configs, models, mp)
    decreases |providers|
  {
    if |providers| == 0 then []
    else
      var p := providers[0];
      (if ConfigEnabled(configs, p) then PairsOf(models, p, configs[p.id]) else [])
      + EnabledPairs(providers[1..], configs, models)
  }

  /** `getEnabledModels`. */
  function EnabledModels(g: Registry): seq<ModelAndProvider> {
    EnabledPairs(AllProviders(g), g.providerConfigs, AllModels(g))
  }

  /** The enabled list is provider-major: it is the concatenation of the
      lists for any split of the providers, and within one provider it
      follows the model list. */
  lemma {:induction false} EnabledOrder(ps1: seq<Provider>, ps2: seq<Provider>, configs: map<string, ProviderConfig>,
                                        ms1: seq<Model>, ms2: seq<Model>, p: Provider, c: ProviderConfig)
    ensures EnabledPairs(ps1 + ps2, configs, ms1) == EnabledPairs(ps1, configs, ms1) + EnabledPairs(ps2, configs, ms1)
    ensures PairsOf(ms1 + ms2, p, c) == PairsOf(ms1, p, c) + PairsOf(ms2, p, c)
  {
    EnabledSplit(ps1, ps2, configs, ms1);
    PairsSplit(ms1, ms2, p, c);
  }

  lemma {:induction false} EnabledSplit(ps1: seq<Provider>, ps2: seq<Provider>, configs: map<string, ProviderConfig>, models: seq<Model>)
    ensures EnabledPairs(ps1 + ps2, configs, models) == EnabledPairs(ps1, configs, models) + EnabledPairs(ps2, configs, models)
    decreases |ps1|
  {
    if |ps1| == 0 {
      assert ps1 + ps2 == ps2;
    } else {
      assert (ps1 + ps2)[1..] == ps1[1..] + ps2;
      EnabledSplit(ps1[1..], ps2, configs, models);
    }
  }

  lemma {:induction false} PairsSplit(ms1: seq<Model>, ms2: seq<Model>, p: Provider, c: ProviderConfig)
    ensures PairsOf(ms1 + ms2, p, c) == PairsOf(ms1, p, c) + PairsOf(ms2, p, c)
    decreases |ms1|
  {
    if |ms1| == 0 {
      assert ms1 + ms2 == ms2;
    } else {
      assert (ms1 + ms2)[1..] == ms1[1..] + ms2;
      PairsSplit(ms1[1..], ms2, p, c);
    }
  }

  /** An example: P enabled with only "m1" among [m1, m2]
      yields exactly [(m1, P)]; disabling P yields []. */
  lemma EnabledExample(p: Provider, m1: Model, m2: Model, key: string)
    requires m1.providerId == p.id && m2.providerId == p.id && m1.name == "m1" && m2.name == "m2"
    ensures EnabledPairs([p], map[p.id := ProviderConfig(p.id, true, key, ["m1"])], [m1, m2]) == [ModelAndProvider(m1, p)]
    ensures EnabledPairs([p], map[p.id := ProviderConfig(p.id, false, key, ["m1"])], [m1, m2]) == []
  {
    var c := ProviderConfig(p.id, true, key, ["m1"]);
    assert [m1, m2][1..] == [m2];
    assert m2.name !in c.enabledModels;
    assert PairsOf([m1, m2], p, c) == [ModelAndProvider(m1, p)] + PairsOf([m2], p, c);
    assert [m2][1..] == [];
  }

  /** `isCurrentValid`: the current model matches an enabled pair by model
      id and provider id. */
  predicate IsCurrentValid(enabled: seq<ModelAndProvider>, current: Option<ModelAndProvider>) {
    current.Some? &&
    exists i :: 0 <= i < |enabled| && enabled[i].model.id == current.value.model.id && enabled[i].provider.id == current.value.provider.id
  }

  /** `getValidModel`. */
  function ValidModel(enabled: seq<ModelAndProvider>, current: Option<ModelAndProvider>): Option<ModelAndProvider> {
    if |enabled| == 0 then None
    else if !IsCurrentValid(enabled, current) then Some(enabled[0])
    else current
  }

  /** `set({currentModel})` plus the save of its id under `currentModelId`. */
  function SetCurrent(g: Registry, m: Option<ModelAndProvider>): Registry {
    g.(current := m, storedModelId := if m.Some? then Some(m.value.model.id) else None)
  }

  /** `refreshCurrentModel`. When the model changes, the source calls
      `setCurrentModel`, which refreshes once more; `RefreshFixpoint` proves
      that nested refresh changes nothing, so it is not repeated here. */
  function RefreshCurrentModel(g: Registry): (r: Registry)
    ensures r.current.None? <==> |EnabledModels(g)| == 0
    ensures r.current.Some? ==> IsCurrentValid(EnabledModels(g), r.current)
    ensures IsCurrentValid(EnabledModels(g), g.current) ==> r == g
    ensures !IsCurrentValid(EnabledModels(g), g.current) && |EnabledModels(g)| > 0 ==>
              r.current == Some(EnabledModels(g)[0]) && r.storedModelId == Some(EnabledModels(g)[0].model.id)
    ensures r.(current := g.current, storedModelId := g.storedModelId) == g
  {
    var m := ValidModel(EnabledModels(g), g.current);
    if m != g.current then SetCurrent(g, m) else g
  }

  /** A refreshed registry is a fixpoint of refresh: the nested refresh the
      source performs, and any later one, changes nothing. */
  lemma RefreshFixpoint(g: Registry)
    ensures RefreshCurrentModel(RefreshCurrentModel(g)) == RefreshCurrentModel(g)
  {
    var r := RefreshCurrentModel(g);
    assert EnabledModels(r) == EnabledModels(g);
    if r.current.None? {
      assert ValidModel(EnabledModels(r), r.current) == None;
    }
  }

  /** `setCurrentModel`: store the choice, then refresh. */
  function SetCurrentModel(g: Registry, v: Option<ModelAndProvider>): (r: Registry)
    ensures v.Some? && v.value in EnabledModels(g) ==> r == SetCurrent(g, v)
    ensures r.current.Some? ==> IsCurrentValid(EnabledModels(g), r.current)
  {
    RefreshCurrentModel(SetCurrent(g, v))
  }

  /** `setProviderConfigs`, `setCustomModels`, `setCustomProviders`: each
      replaces its field and refreshes the current model. */
  function SetProviderConfigs(g: Registry, v: map<string, ProviderConfig>): Registry {
    RefreshCurrentModel(g.(providerConfigs := v))
  }

  function SetCustomModels(g: Registry, v: seq<Model>): Registry {
    RefreshCurrentModel(g.(customModels := v))
  }

  function SetCustomProviders(g: Registry, v: seq<Provider>): Registry {
    RefreshCurrentModel(g.(customProviders := v))
  }

  /** Disabling (or dropping the config of) the current model's provider
      moves the selection to another provider's model, or to none. */
  lemma DisablingCascades(g: Registry, v: map<string, ProviderConfig>)
    requires g.current.Some?
    requires var pid := g.current.value.provider.id; pid !in v || !v[pid].enabled
    ensures var r := SetProviderConfigs(g, v);
            r.current.None? || r.current.value.provider.id != g.current.value.provider.id
  {
    var g1 := g.(providerConfigs := v);
    var en := EnabledModels(g1);
    forall i | 0 <= i < |en| ensures en[i].provider.id != g.current.value.provider.id {
      assert en[i] in en;
    }
  }

  /** The test `loadChatState` applies to each enabled pair. */
  function HasModelId(storedId: Option<string>): ModelAndProvider -> bool {
    (mp: ModelAndProvider) => Some(mp.model.id) == storedId
  }

  /** The first enabled pair whose model id is the stored id, if any. */
  function StoredMatch(g: Registry, storedId: Option<string>): Option<ModelAndProvider> {
    Find(HasModelId(storedId), EnabledModels(g))
  }

  /** The current-model restore of `loadChatState`: the first enabled pair
      whose model id equals the stored id becomes current through
      `setCurrentModel`; with no match the registry is left as it is. */
  function RestoreCurrentModel(g: Registry, storedId: Option<string>): (r: Registry)
    ensures storedId.None? ==> r == g
    ensures (forall i :: 0 <= i < |EnabledModels(g)| ==> Some(EnabledModels(g)[i].model.id) != storedId) ==> r == g
    ensures StoredMatch(g, storedId).Some? ==> r.current == StoredMatch(g, storedId)
    ensures r.current != g.current ==>
              var en := EnabledModels(g);
              && r.current.Some? && Some(r.current.value.model.id) == storedId
              && exists k :: 0 <= k < |en| && en[k] == r.current.value &&
                             forall j :: 0 <= j < k ==> Some(en[j].model.id) != storedId
    ensures r.(current := g.current, storedModelId := g.storedModelId) == g
  {
    var found := StoredMatch(g, storedId);
    if found.Some? then SetCurrentModel(g, found) else g
  }

  /** `loadChatState`: the loaded settings are written without a refresh,
      then the stored model id is resolved against the loaded registry. */
  function LoadChatState(g: Registry, customModels: seq<Model>, customProviders: seq<Provider>,
                         providerConfigs: map<string, ProviderConfig>, storedId: Option<string>): (r: Registry)
    ensures r.customModels == customModels && r.customProviders == customProviders && r.providerConfigs == providerConfigs
    ensures var loaded := g.(customModels := customModels, customProviders := customProviders, providerConfigs := providerConfigs);
            && (StoredMatch(loaded, storedId).Some? ==> r.current == StoredMatch(loaded, storedId))
            && (StoredMatch(loaded, storedId).None? ==> r == loaded)
  {
    RestoreCurrentModel(g.(customModels := customModels, customProviders := customProviders, providerConfigs := providerConfigs), storedId)
  }

  /** The chat fields the store keeps beside the registry. */
  datatype Session = Session(status: string, task: Option<ChatTask>, history: seq<Message>)

  /** `clearChatSession`. */
  function ClearChatSession(s: Session): (r: Session)
    ensures r.status == StatusEmpty && r.task.None? && r.history == []
  {
    Session(StatusEmpty, None, [])
  }
}
