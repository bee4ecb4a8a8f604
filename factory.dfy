/** The LLM client factory: a mutable table from model names to the
    functions that build their clients. A creator is identified by name; the
    client it builds (an LLM connection) is not modelled. */
module LlmFactory {
  import opened PyValues
  import opened StaticConfig

  /** A creator function of the table, such as `get_llm_deepseek`. */
  datatype Creator = Creator(name: string)

  /** `_models`: the names in insertion order, and each name's creator. */
  datatype Registry = Registry(names: seq<string>, creators: map<string, Creator>)

  /** The names are listed once each, and they are exactly the table's keys. */
  predicate WellFormed(r: Registry) {
    && (forall i, j | 0 <= i < j < |r.names| :: r.names[i] != r.names[j])
    && r.creators.Keys == set n | n in r.names
  }

  /** The table the class is defined with. */
  const DefaultRegistry: Registry := Registry(
    ["llama-4-maverick", "claude-4-sonnet", "google-gemini-2.5-pro", "gpt-5", "qwen-3-instruct", "deepseek"],
    map[
      "llama-4-maverick" := Creator("get_llm_llama_4_maverick"),
      "claude-4-sonnet" := Creator("get_llm_anthropic_claude_4_sonnet"),
      "google-gemini-2.5-pro" := Creator("get_llm_google_gemini_pro"),
      "gpt-5" := Creator("get_llm_gpt_5"),
      "qwen-3-instruct" := Creator("get_llm_qwen_3_instruct"),
      "deepseek" := Creator("get_llm_deepseek")])

  lemma DefaultRegistryWellFormed()
    ensures WellFormed(DefaultRegistry)
  {
  }

  const NotFoundPrefix: string := "Modelo '"

  /** `create_llm`: the creator of a registered name (the source calls it),
      or the ValueError message naming the model and every registered one. */
  function Create(r: Registry, name: string): (res: Result<Creator, string>)
    ensures res.Err? <==> name !in r.creators
    ensures res.Ok? ==> res.value == r.creators[name]
    ensures res.Err? ==> StartsWith(res.error, NotFoundPrefix + name + "' não encontrado")
    ensures res.Err? ==> forall i | 0 <= i < |r.names| :: Contains(res.error, r.names[i])
  {
    if name !in r.creators then
      var head := NotFoundPrefix + name + "' não encontrado. Disponíveis: ";
      var msg := head + Join(r.names, ", ");
      JoinContainsParts(r.names, ", ");
      forall i | 0 <= i < |r.names| ensures Contains(msg, r.names[i]) {
        ContainsConcat(head, Join(r.names, ", "), r.names[i]);
      }
      assert msg[..|NotFoundPrefix + name + "' não encontrado"|] == NotFoundPrefix + name + "' não encontrado";
      Err(msg)
    else
      Ok(r.creators[name])
  }

  /** `register_model`: set or overwrite one entry; a new name goes last. */
  function Register(r: Registry, name: string, c: Creator): Registry {
    Registry(if name in r.creators then r.names else r.names + [name], r.creators[name := c])
  }

  /** Registering keeps the table well formed, makes the name supported with
      the given creator, and leaves every other entry and the order of the
      existing names as they were. */
  lemma RegisterOnlyChangesName(r: Registry, name: string, c: Creator)
    requires WellFormed(r)
    ensures var r' := Register(r, name, c);
            && WellFormed(r')
            && Create(r', name) == Ok(c)
            && (forall n | n != name :: n in r'.creators <==> n in r.creators)
            && (forall n | n != name && n in r.creators :: Create(r', n) == Create(r, n))
            && r'.names[..|r.names|] == r.names
            && (name in r.creators ==> r'.names == r.names)
  {
  }

  /** Registering the same entry twice is registering it once. */
  lemma RegisterIdempotent(r: Registry, name: string, c: Creator)
    ensures Register(Register(r, name, c), name, c) == Register(r, name, c)
  {
  }

  /** The models of LITERAL_MODELS that the factory cannot build. */
  function MissingInFactory(r: Registry): set<string> {
    set m | m in LiteralModels && m !in r.creators
  }

  /** `validate_config_models`: no configured model is missing; extra
      factory models do not matter. */
  predicate ConfigModelsValid(r: Registry) {
    |MissingInFactory(r)| == 0
  }

  lemma ConfigModelsValidIff(r: Registry)
    ensures ConfigModelsValid(r) <==> forall i | 0 <= i < |LiteralModels| :: LiteralModels[i] in r.creators
  {
    if !ConfigModelsValid(r) {
      var m :| m in MissingInFactory(r);
    }
    if exists i | 0 <= i < |LiteralModels| :: LiteralModels[i] !in r.creators {
      var i :| 0 <= i < |LiteralModels| && LiteralModels[i] !in r.creators;
      assert LiteralModels[i] in MissingInFactory(r);
    }
  }

  /** The table as defined covers LITERAL_MODELS, and registering never
      breaks that. */
  lemma DefaultRegistryCoversConfig()
    ensures ConfigModelsValid(DefaultRegistry)
  {
    ConfigModelsValidIff(DefaultRegistry);
  }

  lemma RegisterKeepsConfigValid(r: Registry, name: string, c: Creator)
    requires ConfigModelsValid(r)
    ensures ConfigModelsValid(Register(r, name, c))
  {
    ConfigModelsValidIff(r);
    ConfigModelsValidIff(Register(r, name, c));
  }

  /** `LLMFactory`, whose class-level `_models` dict is shared by every
      call. */
  class Factory {
    var names: seq<string>
    var creators: map<string, Creator>

    function State(): Registry
      reads this
    {
      Registry(names, creators)
    }

    predicate Valid()
      reads this
    {
      WellFormed(State())
    }

    constructor()
      ensures Valid() && State() == DefaultRegistry
    {
      names := DefaultRegistry.names;
      creators := DefaultRegistry.creators;
      DefaultRegistryWellFormed();
    }

    method CreateLlm(name: string) returns (res: Result<Creator, string>)
      ensures res == Create(State(), name)
    {
      if name !in creators {
        var msg := NotFoundPrefix + name + "' não encontrado. Disponíveis: " + Join(names, ", ");
        return Err(msg);
      }
      res := Ok(creators[name]);
    }

    /** `get_available_models`: exactly the registered names, in order. */
    method GetAvailableModels() returns (ks: seq<string>)
      requires Valid()
      ensures ks == State().names
      ensures forall n :: n in ks <==> Create(State(), n).Ok?
    {
      ks := names;
    }

    method IsModelSupported(name: string) returns (b: bool)
      ensures b <==> Create(State(), name).Ok?
    {
      b := name in creators;
    }

    method RegisterModel(name: string, c: Creator)
      requires Valid()
      modifies this
      ensures Valid()
      ensures State() == Register(old(State()), name, c)
    {
      RegisterOnlyChangesName(State(), name, c);
      if name !in creators {
        names := names + [name];
      }
      creators := creators[name := c];
    }

    method ValidateConfigModels() returns (ok: bool)
      ensures ok <==> forall i | 0 <= i < |LiteralModels| :: LiteralModels[i] in State().creators
    {
      var missing := set m | m in LiteralModels && m !in creators;
      ok := |missing| == 0;
      ConfigModelsValidIff(State());
    }
  }
}
