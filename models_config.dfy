/** The model-registry loader: structural validation of the JSON
    configuration, a cache that is reloaded when the file's modification time
    changes, a built-in fallback configuration, status- and provider-filtered
    queries and a health verdict. The configuration file is an input: whether
    it exists, its modification time and what `json.load` made of it. */
module ModelsConfig {
  import opened PyValues

  // ---------------------------------------------------------------------
  // Structural validation

  const RootFields: seq<string> := ["metadata", "default_model", "models", "providers"]
  const MetadataFields: seq<string> := ["generated_at", "test_version", "total_models_tested"]
  const ModelFields: seq<string> := ["id", "display_name", "provider", "is_default", "status"]
  const ProviderFields: seq<string> := ["api_type", "requires_key"]

  /** A status `_validate_model_structure` accepts. */
  predicate KnownStatus(v: Value) {
    v.VStr? && v.s in {"active", "inactive", "deprecated"}
  }

  /** Every `field in container` test passes: none is missing and none
      raises (a container that is not a dict, list or str raises TypeError). */
  predicate HasAll(container: Value, fields: seq<string>) {
    forall f | f in fields :: PyIn(f, container) == Some(true)
  }

  /** `_validate_model_structure`: the five fields are present, `is_default`
      is a bool and `status` is active, inactive or deprecated. An entry
      that is not a dict fails when it is indexed. */
  predicate ValidModel(m: Value) {
    && HasAll(m, ModelFields)
    && m.VObject?
    && Get(m.entries, "is_default").VBool?
    && KnownStatus(Get(m.entries, "status"))
  }

  /** `_validate_provider_structure` */
  predicate ValidProvider(p: Value) {
    HasAll(p, ProviderFields)
  }

  /** `_validate_config_structure`: any ModelsConfigError, or any exception
      its checks raise, makes the configuration invalid. A valid
      configuration is a dict whose default model is the id of one of its
      (non-empty) models, and whose providers dict is not empty. */
  predicate ValidConfig(c: Value)
    ensures ValidConfig(c) ==> c.VObject? && Get(c.entries, "default_model").VStr?
    ensures ValidConfig(c) ==> Get(c.entries, "models").VObject?
                               && Get(c.entries, "default_model").s in Keys(Get(c.entries, "models").entries)
    ensures ValidConfig(c) ==> Get(c.entries, "providers").VObject? && |Get(c.entries, "providers").entries| > 0
  {
    && c.VObject?
    && HasAll(c, RootFields)
    && HasAll(Get(c.entries, "metadata"), MetadataFields)
    && var models := Get(c.entries, "models");
    && models.VObject? && |models.entries| > 0
    && var dflt := Get(c.entries, "default_model");
    && dflt.VStr? && dflt.s in Keys(models.entries)
    && (forall i | 0 <= i < |models.entries| :: ValidModel(models.entries[i].1))
    && var providers := Get(c.entries, "providers");
    && providers.VObject? && |providers.entries| > 0
    && (forall i | 0 <= i < |providers.entries| :: ValidProvider(providers.entries[i].1))
  }

  /** The `models` dict of a valid configuration. */
  function ModelEntries(c: Value): (es: seq<(string, Value)>)
    requires ValidConfig(c)
    ensures |es| > 0
  {
    Get(c.entries, "models").entries
  }

  /** `config['default_model']` of a valid configuration: one of its models. */
  function DefaultModel(c: Value): (id: string)
    requires ValidConfig(c)
    ensures id in Keys(ModelEntries(c))
  {
    Get(c.entries, "default_model").s
  }

  /** A configuration passes validation only with its four root fields, the
      three metadata fields, a non-empty `models` dict holding the default
      model, well-formed model entries and a non-empty `providers` dict of
      well-formed providers. */
  lemma ValidConfigRequires(c: Value)
    requires ValidConfig(c)
    ensures c.VObject? && forall f | f in RootFields :: f in Keys(c.entries)
    ensures var md := Get(c.entries, "metadata");
            forall f | f in MetadataFields :: PyIn(f, md) == Some(true)
    ensures Get(c.entries, "default_model") == VStr(DefaultModel(c))
    ensures forall i | 0 <= i < |ModelEntries(c)| ::
              var m := ModelEntries(c)[i].1;
              && m.VObject? && (forall f | f in ModelFields :: f in Keys(m.entries))
              && Get(m.entries, "is_default").VBool?
              && KnownStatus(Get(m.entries, "status"))
  {
    forall f | f in RootFields ensures f in Keys(c.entries) {
      assert PyIn(f, c) == Some(true);
    }
    forall i | 0 <= i < |ModelEntries(c)|
      ensures var m := ModelEntries(c)[i].1; forall f | f in ModelFields :: f in Keys(m.entries)
    {
      var m := ModelEntries(c)[i].1;
      assert ValidModel(m);
      forall f | f in ModelFields ensures f in Keys(m.entries) {
        assert PyIn(f, m) == Some(true);
      }
    }
  }

  /** A model whose status is not one of the three names, or whose
      `is_default` is not a bool, invalidates the whole configuration. */
  lemma BadModelInvalidates(c: Value, i: nat)
    requires c.VObject? && Get(c.entries, "models").VObject?
    requires i < |Get(c.entries, "models").entries|
    requires var m := Get(c.entries, "models").entries[i].1;
             !(m.VObject? && KnownStatus(Get(m.entries, "status")) && Get(m.entries, "is_default").VBool?)
    ensures !ValidConfig(c)
  {
  }

  // ---------------------------------------------------------------------
  // The file and loading

  /** The configuration file at one moment: whether it exists, its
      `st_mtime`, and the value `json.load` returned (None when reading or
      decoding failed). */
  datatype ConfigFile = ConfigFile(present: bool, mtime: real, content: Option<Value>)

  datatype LoadError = FileNotFound | DecodeFailed | InvalidStructure

  /** What `_load_config_from_file` returns or raises. */
  function LoadResult(f: ConfigFile): (r: Result<Value, LoadError>)
    ensures r.Ok? <==> f.present && f.content.Some? && ValidConfig(f.content.value)
    ensures r.Ok? ==> r.value == f.content.value
  {
    if !f.present then Err(FileNotFound)
    else match f.content
      case None => Err(DecodeFailed)
      case Some(c) => if ValidConfig(c) then Ok(c) else Err(InvalidStructure)
  }

  // ---------------------------------------------------------------------
  // The fallback configuration

  const ModelConfigFields: set<string> :=
    {"id", "display_name", "provider", "is_default", "status", "performance", "test_results", "capabilities"}

  /** A model entry: the five validated fields, then the others. */
  function ModelEntry(id: string, name: string, provider: string, isDefault: bool, status: string,
                      rest: seq<(string, Value)>): Value
  {
    VObject([("id", VStr(id)), ("display_name", VStr(name)), ("provider", VStr(provider)),
             ("is_default", VBool(isDefault)), ("status", VStr(status))] + rest)
  }

  lemma ModelEntryKeys(id: string, name: string, provider: string, isDefault: bool, status: string,
                       rest: seq<(string, Value)>)
    ensures Keys(ModelEntry(id, name, provider, isDefault, status, rest).entries) == ModelFields + Keys(rest)
  {
    var m := ModelEntry(id, name, provider, isDefault, status, rest);
    var ks := Keys(m.entries);
    forall i | 0 <= i < |ks| ensures ks[i] == (ModelFields + Keys(rest))[i] {
      if i >= 5 {
        assert m.entries[i] == rest[i - 5];
      }
    }
  }

  lemma ModelEntryIsDefault(id: string, name: string, provider: string, isDefault: bool, status: string,
                            rest: seq<(string, Value)>)
    ensures Get(ModelEntry(id, name, provider, isDefault, status, rest).entries, "is_default") == VBool(isDefault)
  {
    LookupFirstAt(ModelEntry(id, name, provider, isDefault, status, rest).entries, 3);
  }

  lemma ModelEntryStatus(id: string, name: string, provider: string, isDefault: bool, status: string,
                         rest: seq<(string, Value)>)
    ensures Get(ModelEntry(id, name, provider, isDefault, status, rest).entries, "status") == VStr(status)
  {
    LookupFirstAt(ModelEntry(id, name, provider, isDefault, status, rest).entries, 4);
  }

  /** A model entry with a known status passes model validation. */
  lemma ModelEntryValid(id: string, name: string, provider: string, isDefault: bool, status: string,
                        rest: seq<(string, Value)>)
    ensures var m := ModelEntry(id, name, provider, isDefault, status, rest);
            && Keys(m.entries) == ModelFields + Keys(rest)
            && Get(m.entries, "status") == VStr(status)
            && (status in {"active", "inactive", "deprecated"} ==> ValidModel(m))
  {
    ModelEntryKeys(id, name, provider, isDefault, status, rest);
    ModelEntryIsDefault(id, name, provider, isDefault, status, rest);
    ModelEntryStatus(id, name, provider, isDefault, status, rest);
    var m := ModelEntry(id, name, provider, isDefault, status, rest);
    var ks := Keys(m.entries);
    assert ks[..5] == ModelFields;
    forall f | f in ModelFields ensures PyIn(f, m) == Some(true) {
      assert f in ks[..5];
    }
  }

  /** A configuration with the four root fields in the source's order. */
  function ConfigOf(metadata: Value, defaultModel: string, models: seq<(string, Value)>,
                    providers: seq<(string, Value)>): Value
  {
    VObject([("metadata", metadata), ("default_model", VStr(defaultModel)),
             ("models", VObject(models)), ("providers", VObject(providers))])
  }

  /** Such a configuration is valid when its parts are. */
  lemma ConfigOfValid(metadata: Value, defaultModel: string, models: seq<(string, Value)>,
                      providers: seq<(string, Value)>)
    requires HasAll(metadata, MetadataFields)
    requires defaultModel in Keys(models)
    requires forall i | 0 <= i < |models| :: ValidModel(models[i].1)
    requires |providers| > 0 && forall i | 0 <= i < |providers| :: ValidProvider(providers[i].1)
    ensures ValidConfig(ConfigOf(metadata, defaultModel, models, providers))
    ensures ModelEntries(ConfigOf(metadata, defaultModel, models, providers)) == models
    ensures DefaultModel(ConfigOf(metadata, defaultModel, models, providers)) == defaultModel
  {
    ConfigOfRoot(metadata, defaultModel, models, providers);
    ConfigOfGets(metadata, defaultModel, models, providers);
  }

  lemma ConfigOfRoot(metadata: Value, defaultModel: string, models: seq<(string, Value)>,
                     providers: seq<(string, Value)>)
    ensures HasAll(ConfigOf(metadata, defaultModel, models, providers), RootFields)
  {
    var c := ConfigOf(metadata, defaultModel, models, providers);
    var ks := Keys(c.entries);
    assert ks == RootFields;
    forall f | f in RootFields ensures PyIn(f, c) == Some(true) {
      assert f in ks;
    }
  }

  /** Each root field of such a configuration reads back its part. */
  lemma ConfigOfGets(metadata: Value, defaultModel: string, models: seq<(string, Value)>,
                     providers: seq<(string, Value)>)
    ensures var c := ConfigOf(metadata, defaultModel, models, providers);
            && Get(c.entries, "metadata") == metadata
            && Get(c.entries, "default_model") == VStr(defaultModel)
            && Get(c.entries, "models") == VObject(models)
            && Get(c.entries, "providers") == VObject(providers)
  {
    ConfigOfField(metadata, defaultModel, models, providers, 0);
    ConfigOfField(metadata, defaultModel, models, providers, 1);
    ConfigOfField(metadata, defaultModel, models, providers, 2);
    ConfigOfField(metadata, defaultModel, models, providers, 3);
  }

  lemma ConfigOfField(metadata: Value, defaultModel: string, models: seq<(string, Value)>,
                      providers: seq<(string, Value)>, i: nat)
    requires i < 4
    ensures var c := ConfigOf(metadata, defaultModel, models, providers);
            Get(c.entries, RootFields[i]) == c.entries[i].1
  {
    LookupFirstAt(ConfigOf(metadata, defaultModel, models, providers).entries, i);
  }

  /** The fields after `status` in a fallback model; as written there is no
      `test_results`. */
  function FallbackModelRest(averageTime: real, ranking: int, withTestResults: bool): seq<(string, Value)> {
    [("performance", VObject([("average_time", VFloat(averageTime)), ("ranking", VInt(ranking)),
                              ("consistency", VBool(true))]))]
    + (if withTestResults then [("test_results", VObject([]))] else [])
    + [("capabilities", VObject([("max_tokens", VInt(1024)), ("temperature", VInt(0)), ("timeout", VInt(30))]))]
  }

  lemma FallbackModelRestKeys(averageTime: real, ranking: int, withTestResults: bool)
    ensures Keys(FallbackModelRest(averageTime, ranking, withTestResults))
            == if withTestResults then ["performance", "test_results", "capabilities"] else ["performance", "capabilities"]
  {
  }

  function FallbackModel(id: string, name: string, provider: string, isDefault: bool,
                         averageTime: real, ranking: int, withTestResults: bool): Value
  {
    ModelEntry(id, name, provider, isDefault, "active", FallbackModelRest(averageTime, ranking, withTestResults))
  }

  /** Each fallback model entry passes model validation and is active; it
      has every ModelConfig field, except `test_results` as written. */
  lemma FallbackModelValid(id: string, name: string, provider: string, isDefault: bool,
                           averageTime: real, ranking: int, withTestResults: bool)
    ensures var m := FallbackModel(id, name, provider, isDefault, averageTime, ranking, withTestResults);
            && m.VObject? && ValidModel(m) && Get(m.entries, "status") == VStr("active")
            && (set k | k in Keys(m.entries))
               == (if withTestResults then ModelConfigFields else ModelConfigFields - {"test_results"})
  {
    var rest := FallbackModelRest(averageTime, ranking, withTestResults);
    ModelEntryValid(id, name, provider, isDefault, "active", rest);
    FallbackModelRestKeys(averageTime, ranking, withTestResults);
    FallbackKeySet(Keys(FallbackModel(id, name, provider, isDefault, averageTime, ranking, withTestResults).entries),
                   withTestResults);
  }

  lemma FallbackKeySet(ks: seq<string>, withTestResults: bool)
    requires ks == ModelFields + if withTestResults then ["performance", "test_results", "capabilities"]
                                 else ["performance", "capabilities"]
    ensures (set k | k in ks) == if withTestResults then ModelConfigFields else ModelConfigFields - {"test_results"}
  {
  }

  function FallbackProvider(apiType: string, key: string, baseUrl: Value): Value {
    VObject([("api_type", VStr(apiType)), ("requires_key", VStr(key)), ("base_url", baseUrl)])
  }

  lemma FallbackProviderValid(apiType: string, key: string, baseUrl: Value)
    ensures ValidProvider(FallbackProvider(apiType, key, baseUrl))
  {
    var p := FallbackProvider(apiType, key, baseUrl);
    assert Keys(p.entries) == ProviderFields + ["base_url"];
  }

  const OpenRouterUrl: Value := VStr("https://openrouter.ai/api/v1")

  function FallbackMetadata(now: string): Value {
    VObject([
      ("generated_at", VStr(now)),
      ("test_version", VStr("fallback_v1.0")),
      ("total_models_tested", VInt(3)),
      ("finalists_count", VInt(3)),
      ("generation_criteria", VObject([("max_response_time", VStr("5.0s")),
                                       ("consistency_required", VBool(false)),
                                       ("majority_vote_required", VBool(false))]))])
  }

  /** One fallback model: id, display name, provider, `is_default`,
      `average_time` and `ranking`. */
  datatype FallbackRow = FallbackRow(id: string, name: string, provider: string, isDefault: bool,
                                     averageTime: real, ranking: int)

  const FallbackRows: seq<FallbackRow> := [
    FallbackRow("llama-4-maverick", "Llama 4 Maverick", "openrouter", true, 3.0, 1),
    FallbackRow("claude-4-sonnet", "Claude 4 Sonnet", "anthropic", false, 4.0, 2),
    FallbackRow("google-gemini-2.5-pro", "Gemini 2.5 Pro", "google", false, 4.5, 3)]

  function FallbackModelOf(r: FallbackRow, withTestResults: bool): Value {
    FallbackModel(r.id, r.name, r.provider, r.isDefault, r.averageTime, r.ranking, withTestResults)
  }

  /** The fallback models, in the source's order. */
  function FallbackModels(withTestResults: bool): (es: seq<(string, Value)>)
    ensures |es| == |FallbackRows|
    ensures forall i | 0 <= i < |es| :: es[i] == (FallbackRows[i].id, FallbackModelOf(FallbackRows[i], withTestResults))
  {
    seq(|FallbackRows|, i requires 0 <= i < |FallbackRows| =>
      (FallbackRows[i].id, FallbackModelOf(FallbackRows[i], withTestResults)))
  }

  const FallbackProviders: seq<(string, Value)> := [
    ("anthropic", FallbackProvider("anthropic", "ANTHROPIC_API_KEY", VNull)),
    ("openrouter", FallbackProvider("openrouter", "OPENROUTER_API_KEY", OpenRouterUrl)),
    ("google", FallbackProvider("openrouter", "OPENROUTER_API_KEY", OpenRouterUrl))]

  /** The configuration `_generate_fallback_config` builds; `now` is
      `datetime.now().isoformat()`. With `withTestResults` false it is the
      configuration as written. */
  function FallbackConfigOf(now: string, withTestResults: bool): Value {
    ConfigOf(FallbackMetadata(now), "llama-4-maverick", FallbackModels(withTestResults), FallbackProviders)
  }

  /** The fallback the loader installs: the source's, with an empty
      `test_results` in each model so that every entry builds a ModelConfig. */
  function Fallback(now: string): Value {
    FallbackConfigOf(now, true)
  }

  /** All three fallback models are valid and active. */
  lemma FallbackModelsValid(withTestResults: bool)
    ensures forall i | 0 <= i < |FallbackModels(withTestResults)| ::
              && ValidModel(FallbackModels(withTestResults)[i].1)
              && HasStatus(FallbackModels(withTestResults)[i].1, Some("active"))
  {
    var es := FallbackModels(withTestResults);
    forall i | 0 <= i < |es|
      ensures ValidModel(es[i].1) && HasStatus(es[i].1, Some("active"))
    {
      var r := FallbackRows[i];
      FallbackModelValid(r.id, r.name, r.provider, r.isDefault, r.averageTime, r.ranking, withTestResults);
    }
  }

  /** Either fallback passes the loader's own validation, with default model
      "llama-4-maverick", the first of its three models. */
  lemma FallbackValid(now: string, withTestResults: bool)
    ensures ValidConfig(FallbackConfigOf(now, withTestResults))
    ensures DefaultModel(FallbackConfigOf(now, withTestResults)) == "llama-4-maverick"
    ensures ModelEntries(FallbackConfigOf(now, withTestResults)) == FallbackModels(withTestResults)
  {
    FallbackMetadataValid(now);
    FallbackProvidersValid();
    FallbackModelsValid(withTestResults);
    var models := FallbackModels(withTestResults);
    assert Keys(models)[0] == "llama-4-maverick";
    ConfigOfValid(FallbackMetadata(now), "llama-4-maverick", models, FallbackProviders);
  }

  lemma FallbackMetadataValid(now: string)
    ensures HasAll(FallbackMetadata(now), MetadataFields)
  {
    var ks := Keys(FallbackMetadata(now).entries);
    assert ks[..3] == MetadataFields;
    forall f | f in MetadataFields ensures f in ks {
      assert f in ks[..3];
    }
  }

  lemma FallbackProvidersValid()
    ensures |FallbackProviders| > 0
    ensures forall i | 0 <= i < |FallbackProviders| :: ValidProvider(FallbackProviders[i].1)
  {
    FallbackProviderValid("anthropic", "ANTHROPIC_API_KEY", VNull);
    FallbackProviderValid("openrouter", "OPENROUTER_API_KEY", OpenRouterUrl);
  }

  // ---------------------------------------------------------------------
  // The cache

  /** The loader's two fields: `_config_cache` and `_last_modified`. */
  datatype LoaderState = LoaderState(cache: Option<Value>, lastModified: Option<real>)

  /** The cache only ever holds a configuration that passed validation. */
  predicate ValidState(s: LoaderState) {
    s.cache.Some? ==> ValidConfig(s.cache.value)
  }

  /** `_should_reload`: with an empty cache, always; with a missing file,
      never; otherwise when the recorded mtime differs from the file's. */
  predicate ShouldReload(s: LoaderState, f: ConfigFile)
    ensures s.cache.None? ==> ShouldReload(s, f)
    ensures s.cache.Some? && !f.present ==> !ShouldReload(s, f)
    ensures s.cache.Some? && f.present ==> (ShouldReload(s, f) <==> s.lastModified != Some(f.mtime))
  {
    s.cache.None? || (f.present && s.lastModified != Some(f.mtime))
  }

  /** The state after `get_config(force_reload)`. */
  function AfterGetConfig(s: LoaderState, force: bool, f: ConfigFile, fallback: Value): LoaderState {
    if force || ShouldReload(s, f) then
      match LoadResult(f)
      case Ok(c) => LoaderState(Some(c), Some(f.mtime))
      case Err(_) => if s.cache.None? then LoaderState(Some(fallback), s.lastModified) else s
    else s
  }

  /** `get_config` never returns None and keeps the cache valid. */
  lemma GetConfigNeverEmpty(s: LoaderState, force: bool, f: ConfigFile, fallback: Value)
    requires ValidState(s) && ValidConfig(fallback)
    ensures AfterGetConfig(s, force, f, fallback).cache.Some?
    ensures ValidState(AfterGetConfig(s, force, f, fallback))
  {
  }

  /** A failed load keeps the previous cache; the fallback is installed only
      when there is none. */
  lemma FailedLoadKeepsCache(s: LoaderState, force: bool, f: ConfigFile, fallback: Value)
    requires LoadResult(f).Err?
    ensures s.cache.Some? ==> AfterGetConfig(s, force, f, fallback) == s
    ensures s.cache.None? ==> AfterGetConfig(s, force, f, fallback).cache == Some(fallback)
  {
  }

  /** After a reload that succeeds the cache holds the file's configuration and
      is not reloaded until the file's mtime changes. */
  lemma ReloadOnlyOnChange(s: LoaderState, force: bool, f: ConfigFile, fallback: Value, g: ConfigFile)
    requires LoadResult(f).Ok? && (force || ShouldReload(s, f))
    requires g.present
    ensures AfterGetConfig(s, force, f, fallback).cache == Some(f.content.value)
    ensures ShouldReload(AfterGetConfig(s, force, f, fallback), g) <==> g.mtime != f.mtime
  {
  }

  /** A second `get_config` on the same file changes nothing. */
  lemma GetConfigIdempotent(s: LoaderState, force: bool, f: ConfigFile, fallback: Value)
    ensures AfterGetConfig(AfterGetConfig(s, force, f, fallback), false, f, fallback) == AfterGetConfig(s, force, f, fallback)
  {
  }

  // ---------------------------------------------------------------------
  // Queries over a configuration

  /** `model_data['status'] == status_filter` (every model when there is no filter). */
  predicate HasStatus(m: Value, filter: Option<string>) {
    filter.None? || (m.VObject? && Get(m.entries, "status") == VStr(filter.value))
  }

  /** The ids, in map order, of the models that pass the status filter. */
  function ModelsWithStatus(es: seq<(string, Value)>, filter: Option<string>): (ids: seq<string>)
    ensures |ids| <= |es|
    ensures forall id :: id in ids <==> exists i | 0 <= i < |es| :: es[i].0 == id && HasStatus(es[i].1, filter)
  {
    if es == [] then []
    else
      var rest := ModelsWithStatus(es[..|es| - 1], filter);
      assert forall i | 0 <= i < |es| - 1 :: es[..|es| - 1][i] == es[i];
      rest + (if HasStatus(es[|es| - 1].1, filter) then [es[|es| - 1].0] else [])
  }

  /** The loop of `get_available_models`: the ids whose status matches the
      filter, appended in map order. */
  method FilterModels(es: seq<(string, Value)>, filter: Option<string>) returns (ids: seq<string>)
    ensures ids == ModelsWithStatus(es, filter)
  {
    ids := [];
    for k := 0 to |es|
      invariant ids == ModelsWithStatus(es[..k], filter)
    {
      var m := es[k].1;
      if filter.None? || (m.VObject? && Get(m.entries, "status") == VStr(filter.value)) {
        ids := ids + [es[k].0];
      }
      assert es[..k + 1][..k] == es[..k];
    }
    assert es[..|es|] == es;
  }

  /** With no filter every model id is listed, in map order. */
  lemma {:induction false} NoFilterListsAll(es: seq<(string, Value)>)
    ensures ModelsWithStatus(es, None) == Keys(es)
  {
    if es != [] {
      NoFilterListsAll(es[..|es| - 1]);
      assert Keys(es) == Keys(es[..|es| - 1]) + [es[|es| - 1].0];
    }
  }

  /** Filtering keeps map order and multiplicity: the ids of two runs of
      entries are the ids of the first run followed by those of the second. */
  lemma {:induction false} ModelsWithStatusAppend(es1: seq<(string, Value)>, es2: seq<(string, Value)>, filter: Option<string>)
    ensures ModelsWithStatus(es1 + es2, filter) == ModelsWithStatus(es1, filter) + ModelsWithStatus(es2, filter)
    decreases |es2|
  {
    if es2 == [] {
      assert es1 + es2 == es1;
    } else {
      var n := |es2|;
      ModelsWithStatusAppend(es1, es2[..n - 1], filter);
      assert (es1 + es2)[..|es1 + es2| - 1] == es1 + es2[..n - 1];
      assert (es1 + es2)[|es1 + es2| - 1] == es2[n - 1];
    }
  }

  /** One entry is listed, once, exactly when its status passes the filter. */
  lemma ModelsWithStatusSingle(e: (string, Value), filter: Option<string>)
    ensures ModelsWithStatus([e], filter) == if HasStatus(e.1, filter) then [e.0] else []
  {
    assert [e][..0] == [];
  }

  /** `model_data['provider'] == provider_id` */
  predicate HasProvider(m: Value, provider: string) {
    m.VObject? && Get(m.entries, "provider") == VStr(provider)
  }

  /** The ids, in map order, of the models of one provider. */
  function ModelsOfProvider(es: seq<(string, Value)>, provider: string): (ids: seq<string>)
    ensures |ids| <= |es|
    ensures forall id :: id in ids <==> exists i | 0 <= i < |es| :: es[i].0 == id && HasProvider(es[i].1, provider)
  {
    if es == [] then []
    else
      var rest := ModelsOfProvider(es[..|es| - 1], provider);
      assert forall i | 0 <= i < |es| - 1 :: es[..|es| - 1][i] == es[i];
      rest + (if HasProvider(es[|es| - 1].1, provider) then [es[|es| - 1].0] else [])
  }

  /** The provider's ids keep map order and multiplicity: those of two runs
      of entries are the first run's followed by the second's. */
  lemma {:induction false} ModelsOfProviderAppend(es1: seq<(string, Value)>, es2: seq<(string, Value)>, provider: string)
    ensures ModelsOfProvider(es1 + es2, provider) == ModelsOfProvider(es1, provider) + ModelsOfProvider(es2, provider)
    decreases |es2|
  {
    if es2 == [] {
      assert es1 + es2 == es1;
    } else {
      var n := |es2|;
      ModelsOfProviderAppend(es1, es2[..n - 1], provider);
      assert (es1 + es2)[..|es1 + es2| - 1] == es1 + es2[..n - 1];
      assert (es1 + es2)[|es1 + es2| - 1] == es2[n - 1];
    }
  }

  /** What `get_model_config` does: no such model, a ModelConfig built from
      the entry, or the TypeError `ModelConfig(**model_data)` raises when the
      entry's keys are not exactly the dataclass fields. */
  datatype ModelLookup = NotFound | Built(entry: Value) | ConstructionFails

  function LookupModel(c: Value, id: string): (r: ModelLookup)
    requires ValidConfig(c)
    ensures r.NotFound? <==> id !in Keys(ModelEntries(c))
  {
    match Lookup(ModelEntries(c), id)
    case None => NotFound
    case Some(m) =>
      if m.VObject? && (set k | k in Keys(m.entries)) == ModelConfigFields then Built(m) else ConstructionFails
  }

  /** `is_model_available`: Err when the lookup raises. */
  function Availability(c: Value, id: string): (r: Result<bool, ModelLookup>)
    requires ValidConfig(c)
  {
    match LookupModel(c, id)
    case NotFound => Ok(false)
    case Built(m) => Ok(Get(m.entries, "status") == VStr("active"))
    case ConstructionFails => Err(ConstructionFails)
  }

  /** A model is available exactly when it is present and active (for
      entries that build a ModelConfig). */
  lemma AvailableIffPresentAndActive(c: Value, id: string)
    requires ValidConfig(c) && DistinctKeys(ModelEntries(c))
    requires LookupModel(c, id) != ConstructionFails
    ensures Availability(c, id) == Ok(id in ModelsWithStatus(ModelEntries(c), Some("active")))
  {
    var es := ModelEntries(c);
    match Lookup(es, id)
    case None =>
    case Some(m) =>
      assert Availability(c, id) == Ok(Get(m.entries, "status") == VStr("active"));
      var i :| 0 <= i < |es| && es[i] == (id, m);
      if id in ModelsWithStatus(es, Some("active")) {
        var j :| 0 <= j < |es| && es[j].0 == id && HasStatus(es[j].1, Some("active"));
        LookupAt(es, j);
      } else {
        assert !HasStatus(es[i].1, Some("active"));
      }
  }

  datatype HealthStatus = Healthy | Degraded | Failing

  /** The `health_check` report; the error report keeps only the fields the
      source fills in (its `str(e)` is not modelled). */
  datatype HealthReport =
    | Report(status: HealthStatus, configFileExists: bool, totalModels: nat, activeModels: nat,
             defaultModel: string, defaultModelValid: bool, providersCount: nat,
             lastModified: Option<real>, cacheActive: bool, metadata: Value)
    | ErrorReport(status: HealthStatus, configFileExists: bool, cacheActive: bool)

  /** The report for a loaded state. The check fails exactly when building
      the default model's ModelConfig raises, and then reports neither the
      file nor the cache; otherwise it reports the file's presence, the
      model counts, the default model and the recorded mtime, with the cache
      active, and it is healthy only with the file present and some model
      active. */
  function HealthOf(s: LoaderState, f: ConfigFile): (h: HealthReport)
    requires s.cache.Some? && ValidConfig(s.cache.value)
    ensures h.status == Failing <==> LookupModel(s.cache.value, DefaultModel(s.cache.value)) == ConstructionFails
    ensures h.ErrorReport? <==> h.status == Failing
    ensures h.ErrorReport? ==> !h.configFileExists && !h.cacheActive
    ensures h.Report? ==> && h.configFileExists == f.present && h.cacheActive
                          && h.totalModels == |ModelEntries(s.cache.value)| && h.activeModels <= h.totalModels
                          && h.defaultModel == DefaultModel(s.cache.value) && h.lastModified == s.lastModified
    ensures h.Report? ==> && h.activeModels == |ModelsWithStatus(ModelEntries(s.cache.value), Some("active"))|
                          && h.defaultModelValid == (Availability(s.cache.value, DefaultModel(s.cache.value)) == Ok(true))
                          && h.providersCount == |Get(s.cache.value.entries, "providers").entries|
    ensures h.status == Healthy ==> f.present && h.activeModels > 0
  {
    var c := s.cache.value;
    var active := ModelsWithStatus(ModelEntries(c), Some("active"));
    match Availability(c, DefaultModel(c))
    case Err(_) => ErrorReport(Failing, false, false)
    case Ok(valid) =>
      Report(if f.present && |active| > 0 && valid then Healthy else Degraded,
             f.present, |ModelEntries(c)|, |active|, DefaultModel(c), valid,
             |Get(c.entries, "providers").entries|, s.lastModified, true, Get(c.entries, "metadata"))
  }

  /** Healthy exactly when the file exists, some model is active and the
      default model is available; degraded otherwise, unless building the
      default model's ModelConfig raised. */
  lemma HealthyIff(s: LoaderState, f: ConfigFile)
    requires s.cache.Some? && ValidConfig(s.cache.value) && DistinctKeys(ModelEntries(s.cache.value))
    requires LookupModel(s.cache.value, DefaultModel(s.cache.value)) != ConstructionFails
    ensures var c := s.cache.value;
            var active := ModelsWithStatus(ModelEntries(c), Some("active"));
            && HealthOf(s, f).Report?
            && (HealthOf(s, f).status == Healthy <==> f.present && |active| > 0 && DefaultModel(c) in active)
            && (HealthOf(s, f).status != Healthy ==> HealthOf(s, f).status == Degraded)
  {
    AvailableIffPresentAndActive(s.cache.value, DefaultModel(s.cache.value));
  }

  /** With the source's fallback installed (no file), building the default
      model's ModelConfig raises and the health check reports an error. */
  lemma AsWrittenFallbackHealthFails(now: string, f: ConfigFile)
    ensures ValidConfig(FallbackConfigOf(now, false))
    ensures HealthOf(LoaderState(Some(FallbackConfigOf(now, false)), None), f).status == Failing
  {
    FallbackDefaultLookup(now, false);
    FallbackDefaultEntryFields(false);
    assert LookupModel(FallbackConfigOf(now, false), "llama-4-maverick") == ConstructionFails;
  }

  /** The default model of a fallback configuration is its first entry. */
  lemma FallbackDefaultLookup(now: string, withTestResults: bool)
    ensures ValidConfig(FallbackConfigOf(now, withTestResults))
    ensures DefaultModel(FallbackConfigOf(now, withTestResults)) == "llama-4-maverick"
    ensures ModelEntries(FallbackConfigOf(now, withTestResults)) == FallbackModels(withTestResults)
    ensures Lookup(ModelEntries(FallbackConfigOf(now, withTestResults)), "llama-4-maverick")
            == Some(FallbackModels(withTestResults)[0].1)
  {
    FallbackValid(now, withTestResults);
    LookupFirstAt(FallbackModels(withTestResults), 0);
  }

  /** The first fallback entry is an active object, and it carries
      `test_results` exactly when the fallback is built with it. */
  lemma FallbackDefaultEntryFields(withTestResults: bool)
    ensures var m := FallbackModels(withTestResults)[0].1;
            && m.VObject? && Get(m.entries, "status") == VStr("active")
            && ((set k | k in Keys(m.entries)) == ModelConfigFields <==> withTestResults)
  {
    FallbackModelValid("llama-4-maverick", "Llama 4 Maverick", "openrouter", true, 3.0, 1, withTestResults);
    assert "test_results" in ModelConfigFields;
  }

  /** With the fallback the loader installs, a missing file gives a degraded
      (not failing) report: the default model is valid and all three models
      are active. */
  lemma FallbackHealthDegraded(now: string, f: ConfigFile)
    requires !f.present
    ensures ValidConfig(Fallback(now))
    ensures var h := HealthOf(LoaderState(Some(Fallback(now)), None), f);
            h.Report? && h.status == Degraded && h.defaultModelValid && h.activeModels == 3
  {
    var models := FallbackModels(true);
    FallbackDefaultLookup(now, true);
    FallbackDefaultEntryFields(true);
    assert LookupModel(Fallback(now), "llama-4-maverick") == Built(models[0].1);
    FallbackModelsValid(true);
    AllActiveListed(models);
  }

  /** When every model is active, the active list has them all. */
  lemma {:induction false} AllActiveListed(es: seq<(string, Value)>)
    requires forall i | 0 <= i < |es| :: HasStatus(es[i].1, Some("active"))
    ensures |ModelsWithStatus(es, Some("active"))| == |es|
  {
    if es != [] {
      AllActiveListed(es[..|es| - 1]);
    }
  }

  // ---------------------------------------------------------------------
  // The loader object

  class ModelsLoader {
    var cache: Option<Value>
    var lastModified: Option<real>

    function State(): LoaderState
      reads this
    {
      LoaderState(cache, lastModified)
    }

    predicate Valid()
      reads this
    {
      ValidState(State())
    }

    constructor()
      ensures State() == LoaderState(None, None)
      ensures Valid()
    {
      cache := None;
      lastModified := None;
    }

    /** `_load_config_from_file`: records the mtime only on success. */
    method LoadConfigFromFile(f: ConfigFile) returns (r: Result<Value, LoadError>)
      modifies this
      ensures r == LoadResult(f)
      ensures cache == old(cache)
      ensures lastModified == (if r.Ok? then Some(f.mtime) else old(lastModified))
    {
      r := LoadResult(f);
      if r.Ok? {
        lastModified := Some(f.mtime);
      }
    }

    /** `get_config` */
    method GetConfig(force: bool, f: ConfigFile, now: string) returns (config: Value)
      requires Valid()
      modifies this
      ensures Valid()
      ensures State() == AfterGetConfig(old(State()), force, f, Fallback(now))
      ensures cache == Some(config) && ValidConfig(config)
    {
      if force || ShouldReload(State(), f) {
        var r := LoadConfigFromFile(f);
        match r {
          case Ok(c) =>
            cache := Some(c);
          case Err(_) =>
            if cache.None? {
              FallbackValid(now, true);
              cache := Some(Fallback(now));
            }
        }
      }
      config := cache.value;
    }

    /** `refresh_config`: a forced reload. `get_config` handles a failed
        load itself (keeping the cache, or installing the fallback), so the
        call never raises and the answer is True even when nothing could be
        read. */
    method RefreshConfig(f: ConfigFile, now: string) returns (reloaded: bool)
      requires Valid()
      modifies this
      ensures Valid()
      ensures State() == AfterGetConfig(old(State()), true, f, Fallback(now))
      ensures reloaded
      ensures LoadResult(f).Err? && old(cache).Some? ==> State() == old(State())
    {
      var config := GetConfig(true, f, now);
      reloaded := true;
    }

    /** `get_available_models(status_filter)` */
    method GetAvailableModels(filter: Option<string>, f: ConfigFile, now: string) returns (ids: seq<string>)
      requires Valid()
      modifies this
      ensures Valid()
      ensures State() == AfterGetConfig(old(State()), false, f, Fallback(now))
      ensures cache.Some? && ids == ModelsWithStatus(ModelEntries(cache.value), filter)
    {
      var config := GetConfig(false, f, now);
      ids := FilterModels(ModelEntries(config), filter);
    }

    /** `get_active_models` */
    method GetActiveModels(f: ConfigFile, now: string) returns (ids: seq<string>)
      requires Valid()
      modifies this
      ensures Valid()
      ensures State() == AfterGetConfig(old(State()), false, f, Fallback(now))
      ensures cache.Some? && ids == ModelsWithStatus(ModelEntries(cache.value), Some("active"))
    {
      ids := GetAvailableModels(Some("active"), f, now);
    }

    /** `get_models_by_provider` */
    method GetModelsByProvider(provider: string, f: ConfigFile, now: string) returns (ids: seq<string>)
      requires Valid()
      modifies this
      ensures Valid()
      ensures State() == AfterGetConfig(old(State()), false, f, Fallback(now))
      ensures cache.Some? && ids == ModelsOfProvider(ModelEntries(cache.value), provider)
    {
      var config := GetConfig(false, f, now);
      var es := ModelEntries(config);
      ids := [];
      for k := 0 to |es|
        invariant ids == ModelsOfProvider(es[..k], provider)
      {
        var m := es[k].1;
        if m.VObject? && Get(m.entries, "provider") == VStr(provider) {
          ids := ids + [es[k].0];
        }
        assert es[..k + 1][..k] == es[..k];
      }
      assert es[..|es|] == es;
    }

    /** `get_model_config` */
    method GetModelConfig(id: string, f: ConfigFile, now: string) returns (r: ModelLookup)
      requires Valid()
      modifies this
      ensures Valid()
      ensures State() == AfterGetConfig(old(State()), false, f, Fallback(now))
      ensures cache.Some? && r == LookupModel(cache.value, id)
    {
      var config := GetConfig(false, f, now);
      r := LookupModel(config, id);
    }

    /** `is_model_available`; Err stands for the exception that escapes it. */
    method IsModelAvailable(id: string, f: ConfigFile, now: string) returns (r: Result<bool, ModelLookup>)
      requires Valid()
      modifies this
      ensures Valid()
      ensures State() == AfterGetConfig(old(State()), false, f, Fallback(now))
      ensures cache.Some? && r == Availability(cache.value, id)
    {
      var lookup := GetModelConfig(id, f, now);
      match lookup {
        case NotFound => r := Ok(false);
        case Built(m) => r := Ok(Get(m.entries, "status") == VStr("active"));
        case ConstructionFails => r := Err(ConstructionFails);
      }
    }

    /** `health_check`: it reads the configuration three times (directly,
        through the active list and through the default model's
        availability); after the first read the state no longer changes. */
    method HealthCheck(f: ConfigFile, now: string) returns (h: HealthReport)
      requires Valid()
      modifies this
      ensures Valid()
      ensures State() == AfterGetConfig(old(State()), false, f, Fallback(now))
      ensures cache.Some? && h == HealthOf(State(), f)
    {
      ghost var s0 := State();
      var config := GetConfig(false, f, now);
      ghost var s1 := State();
      var active := GetActiveModels(f, now);
      GetConfigIdempotent(s0, false, f, Fallback(now));
      var totalModels := |ModelEntries(config)|;
      var present := f.present;
      var dflt := DefaultModel(config);
      var valid := IsModelAvailable(dflt, f, now);
      assert State() == s1;
      match valid {
        case Err(_) =>
          h := ErrorReport(Failing, false, false);
        case Ok(ok) =>
          var status := if present && |active| > 0 && ok then Healthy else Degraded;
          h := Report(status, present, totalModels, |active|, dflt, ok,
                      |Get(config.entries, "providers").entries|, lastModified, cache.Some?,
                      Get(config.entries, "metadata"));
      }
    }
  }
}
