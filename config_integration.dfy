/** The integration helpers of the configuration package: each asks the
    loader for its configuration and falls back to the static model list or
    to the "openrouter" provider when the dynamic configuration is missing,
    malformed or raises. The loader's answer is an input: the configuration
    it returned, or None when `get_config` raised. */
module ConfigIntegration {
  import opened PyValues
  import opened StaticConfig
  import ModelsConfig

  /** LITERAL_MODELS as the values a model list holds. */
  function LiteralModelValues(): (vs: seq<Value>)
    ensures |vs| == |LiteralModels|
    ensures forall i | 0 <= i < |vs| :: vs[i] == VStr(LiteralModels[i])
  {
    seq(|LiteralModels|, i requires 0 <= i < |LiteralModels| => VStr(LiteralModels[i]))
  }

  /** `[model['id'] for model in models]`: None where the comprehension
      raises. Iterating a dict yields its keys and a str its characters, and
      indexing either with 'id' raises; iterating a number, a bool or None
      raises. */
  function ModelIds(models: Value): (r: Option<seq<Value>>)
    ensures models.VObject? ==> (r.Some? <==> models.entries == [])
    ensures models.VList? && r.Some? ==> |r.value| == |models.items|
  {
    match models
    case VObject(es) => if es == [] then Some([]) else None
    case VStr(s) => if s == [] then Some([]) else None
    case VList(items) => ListIds(items)
    case _ => None
  }

  /** Each element must be a dict holding 'id' (KeyError or TypeError otherwise). */
  function ListIds(items: seq<Value>): (r: Option<seq<Value>>)
    ensures r.Some? ==> |r.value| == |items|
    ensures r.Some? <==> forall i | 0 <= i < |items| :: items[i].VObject? && "id" in Keys(items[i].entries)
    ensures r.Some? ==> forall i | 0 <= i < |items| :: items[i].VObject? && Lookup(items[i].entries, "id") == Some(r.value[i])
  {
    if items == [] then Some([])
    else
      var last := items[|items| - 1];
      var front := ListIds(items[..|items| - 1]);
      assert forall i | 0 <= i < |items| - 1 :: items[..|items| - 1][i] == items[i];
      if front.Some? && last.VObject? && Lookup(last.entries, "id").Some? then
        Some(front.value + [Lookup(last.entries, "id").value])
      else None
  }

  /** `get_dynamic_models_list`: anything but the static list comes from a
      configuration dict that has a "models" entry. */
  function DynamicModelsList(config: Option<Value>): (ms: seq<Value>)
    ensures config.None? ==> ms == LiteralModelValues()
    ensures ms != LiteralModelValues() ==>
              config.Some? && config.value.VObject? && "models" in Keys(config.value.entries)
  {
    match config
    case None => LiteralModelValues()
    case Some(c) =>
      if !Truthy(c) || PyIn("models", c) != Some(true) then LiteralModelValues()
      else match PyIndex(c, "models")
        case None => LiteralModelValues()
        case Some(models) =>
          match ModelIds(models)
          case None => LiteralModelValues()
          case Some(ids) => ids
  }

  /** The loader's configurations are dicts of models keyed by id, so the
      comprehension raises on the first key and the static list is what
      comes back. */
  lemma DictConfigFallsBack(c: Value)
    requires ModelsConfig.ValidConfig(c)
    ensures DynamicModelsList(Some(c)) == LiteralModelValues()
  {
    ModelsConfig.ValidConfigRequires(c);
  }

  /** A list of model dicts, the shape the comprehension expects, gives
      their ids in order; a failed call gives the static list. */
  lemma ListConfigGivesIds(c: Value)
    requires c.VObject? && Lookup(c.entries, "models").Some?
    requires var models := Lookup(c.entries, "models").value;
             models.VList? && forall i | 0 <= i < |models.items| ::
               models.items[i].VObject? && "id" in Keys(models.items[i].entries)
    ensures var models := Lookup(c.entries, "models").value;
            && |DynamicModelsList(Some(c))| == |models.items|
            && forall i | 0 <= i < |models.items| ::
                 Lookup(models.items[i].entries, "id") == Some(DynamicModelsList(Some(c))[i])
    ensures DynamicModelsList(None) == LiteralModelValues()
  {
    var models := Lookup(c.entries, "models").value;
    assert Truthy(c) && PyIn("models", c) == Some(true);
    assert PyIndex(c, "models") == Some(models);
    assert ModelIds(models) == ListIds(models.items);
    assert ListIds(models.items).Some?;
  }

  /** `get_available_providers`: the keys of the configuration's providers
      dict when it has one, ["openrouter"] otherwise. */
  function AvailableProviders(config: Option<Value>): (ps: seq<string>)
    ensures config.Some? && config.value.VObject? && Get(config.value.entries, "providers").VObject? ==>
              ps == Keys(Get(config.value.entries, "providers").entries)
    ensures ps != ["openrouter"] ==> config.Some? && config.value.VObject? && Get(config.value.entries, "providers").VObject?
  {
    match config
    case None => ["openrouter"]
    case Some(c) =>
      if !Truthy(c) || PyIn("providers", c) != Some(true) then ["openrouter"]
      else match PyIndex(c, "providers")
        case Some(VObject(es)) => Keys(es)
        case _ => ["openrouter"]
  }

  /** A loaded configuration lists its provider keys; anything else gives
      ["openrouter"]. */
  lemma ProvidersOfValidConfig(c: Value)
    requires ModelsConfig.ValidConfig(c)
    ensures AvailableProviders(Some(c)) == Keys(Get(c.entries, "providers").entries)
    ensures |AvailableProviders(Some(c))| > 0
  {
    ModelsConfig.ValidConfigRequires(c);
  }

  lemma ProvidersFallback(config: Option<Value>)
    requires !(config.Some? && config.value.VObject? && Get(config.value.entries, "providers").VObject?)
    ensures AvailableProviders(config) == ["openrouter"]
  {
  }

  /** `is_dynamic_config_available`: a truthy configuration in which both
      'models' and 'providers' tests pass; false when either test raises. */
  function DynamicAvailable(config: Option<Value>): (b: bool)
    ensures b ==> config.Some? && Truthy(config.value)
    ensures config.Some? && config.value.VObject? ==>
              (b <==> |config.value.entries| > 0 && "models" in Keys(config.value.entries)
                                                   && "providers" in Keys(config.value.entries))
  {
    match config
    case None => false
    case Some(c) => Truthy(c) && PyIn("models", c) == Some(true) && PyIn("providers", c) == Some(true)
  }

  lemma ValidConfigIsDynamic(c: Value)
    requires ModelsConfig.ValidConfig(c)
    ensures DynamicAvailable(Some(c))
  {
    ModelsConfig.ValidConfigRequires(c);
  }

  /** The dict `get_system_info` returns. */
  datatype SystemInfo = SystemInfo(
    configSystem: string, totalModels: nat, totalProviders: nat,
    dynamicAvailable: bool, lastUpdate: Option<string>, fallbackActive: bool)

  /** `get_system_info`, on one configuration (the loader returns the same
      one to each of the helpers while the file is unchanged). The loader's
      last-update value, which it does not define, is an input. */
  function SystemInfoOf(config: Option<Value>, lastUpdate: string): (info: SystemInfo)
    ensures info.configSystem == "dynamic_json" <==> DynamicAvailable(config)
    ensures info.configSystem == "static_legacy" <==> !DynamicAvailable(config)
    ensures info.dynamicAvailable == DynamicAvailable(config)
    ensures info.fallbackActive == !info.dynamicAvailable
    ensures info.lastUpdate == if info.dynamicAvailable then Some(lastUpdate) else None
    ensures info.totalModels == |DynamicModelsList(config)| && info.totalProviders == |AvailableProviders(config)|
  {
    var dynamic := DynamicAvailable(config);
    SystemInfo(if dynamic then "dynamic_json" else "static_legacy",
               |DynamicModelsList(config)|, |AvailableProviders(config)|,
               dynamic, if dynamic then Some(lastUpdate) else None, !dynamic)
  }

  /** With a loaded configuration the report is dynamic, yet counts the two
      static models. */
  lemma SystemInfoOfValidConfig(c: Value, lastUpdate: string)
    requires ModelsConfig.ValidConfig(c)
    ensures var info := SystemInfoOf(Some(c), lastUpdate);
            && info.configSystem == "dynamic_json" && !info.fallbackActive
            && info.totalModels == |LiteralModels|
            && info.totalProviders == |Keys(Get(c.entries, "providers").entries)|
  {
    ValidConfigIsDynamic(c);
    DictConfigFallsBack(c);
    ProvidersOfValidConfig(c);
  }
}
