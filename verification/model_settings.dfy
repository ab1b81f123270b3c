/** The provider and model switches of src/components/model_settings.tsx.
    Configs are kept in a record keyed by provider name; the key field of
    `ProviderConfig` carries that name here. */
module ModelSettings {
  import opened Seqs
  import opened Config

  /** The config shown for a provider that has none yet: disabled, no key,
      no models. */
  function DefaultConfig(name: string): ProviderConfig {
    ProviderConfig(name, false, "", [])
  }

  /** The config the panel edits for a provider. */
  function ConfigFor(configs: map<string, ProviderConfig>, name: string): (r: ProviderConfig)
    ensures name in configs ==> r == configs[name]
    ensures name !in configs ==> r.providerId == name && !r.enabled && r.apiKey == "" && r.enabledModels == []
  {
    if name in configs then configs[name] else DefaultConfig(name)
  }

  /** Every entry is stored under its own provider name. */
  predicate KeyedByName(configs: map<string, ProviderConfig>) {
    forall k :: k in configs ==> configs[k].providerId == k
  }

  /** `updateProviderConfig`: a copy of the record with this config stored
      under its provider name. */
  function UpdateProviderConfig(configs: map<string, ProviderConfig>, c: ProviderConfig): (r: map<string, ProviderConfig>)
    ensures r.Keys == configs.Keys + {c.providerId}
    ensures r[c.providerId] == c
    ensures forall k :: k in configs && k != c.providerId ==> r[k] == configs[k]
  {
    configs[c.providerId := c]
  }

  /** The provider switch. The edited config is written back under its own
      provider name, which is `name` whenever the record is keyed by name. */
  function ToggleProvider(configs: map<string, ProviderConfig>, name: string, checked: bool): (r: map<string, ProviderConfig>)
    ensures var key := ConfigFor(configs, name).providerId;
            && r.Keys == configs.Keys + {key}
            && r[key] == ConfigFor(configs, name).(enabled := checked)
            && forall k :: k in configs && k != key ==> r[k] == configs[k]
    ensures KeyedByName(configs) ==> KeyedByName(r) && r[name] == ConfigFor(configs, name).(enabled := checked)
  {
    var c := ConfigFor(configs, name).(enabled := checked);
    UpdateProviderConfig(configs, c)
  }

  /** The API-key field, written back like the provider switch. */
  function SetApiKey(configs: map<string, ProviderConfig>, name: string, key: string): (r: map<string, ProviderConfig>)
    ensures var id := ConfigFor(configs, name).providerId;
            && r.Keys == configs.Keys + {id}
            && r[id] == ConfigFor(configs, name).(apiKey := key)
            && forall k :: k in configs && k != id ==> r[k] == configs[k]
    ensures KeyedByName(configs) ==> KeyedByName(r) && r[name] == ConfigFor(configs, name).(apiKey := key)
  {
    var c := ConfigFor(configs, name).(apiKey := key);
    UpdateProviderConfig(configs, c)
  }

  /** The test that keeps every name but `model`. */
  function Other(model: string): string -> bool {
    (m: string) => m != model
  }

  /** The enabled-model list after a model switch: switching on appends
      the name, switching off drops every occurrence of it. */
  function SwitchModel(enabled: seq<string>, model: string, checked: bool): (r: seq<string>)
    ensures checked ==> r == enabled + [model]
    ensures !checked ==> model !in r && forall m :: m != model ==> (m in r <==> m in enabled)
  {
    if checked then enabled + [model] else Filter(Other(model), enabled)
  }

  /** A model switch, written back like the provider switch. */
  function ToggleModel(configs: map<string, ProviderConfig>, name: string, model: string, checked: bool): (r: map<string, ProviderConfig>)
    ensures var c := ConfigFor(configs, name);
            && r.Keys == configs.Keys + {c.providerId}
            && r[c.providerId].providerId == c.providerId
            && r[c.providerId].enabled == c.enabled && r[c.providerId].apiKey == c.apiKey
            && (model in r[c.providerId].enabledModels) == checked
            && (forall m :: m != model ==> (m in r[c.providerId].enabledModels <==> m in c.enabledModels))
            && forall k :: k in configs && k != c.providerId ==> r[k] == configs[k]
    ensures KeyedByName(configs) ==> KeyedByName(r) && name in r && r[name].providerId == name
  {
    var c := ConfigFor(configs, name);
    var edited := c.(enabledModels := SwitchModel(c.enabledModels, model, checked));
    UpdateProviderConfig(configs, edited)
  }

  /** The models listed under a provider. */
  function ModelsOf(models: seq<Model>, name: string): (r: seq<Model>)
    ensures forall m :: m in r <==> m in models && m.providerId == name
  {
    Filter((m: Model) => m.providerId == name, models)
  }

  /** Switching a model on and then off leaves the same list as switching
      it off directly. */
  lemma {:induction false} OnThenOff(enabled: seq<string>, model: string)
    ensures SwitchModel(SwitchModel(enabled, model, true), model, false) == SwitchModel(enabled, model, false)
  {
    FilterConcat(Other(model), enabled, [model]);
    assert Filter(Other(model), [model]) == [];
  }

  /** Switching a model off is idempotent. */
  lemma OffIdempotent(enabled: seq<string>, model: string)
    ensures SwitchModel(SwitchModel(enabled, model, false), model, false) == SwitchModel(enabled, model, false)
  {
    FilterIdempotent(Other(model), enabled);
  }

  /** Switching a model off when it is not enabled changes nothing. */
  lemma OffAbsent(enabled: seq<string>, model: string)
    requires model !in enabled
    ensures SwitchModel(enabled, model, false) == enabled
  {
    FilterKeepsAll(Other(model), enabled);
  }
}
