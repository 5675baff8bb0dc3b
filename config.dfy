/**
 * The configuration loader: one shared instance per program, whose
 * configuration is read from a JSON file the first time a construction
 * succeeds and never again, and which looks up agent and embedding-model
 * entries in it. The file system is the parameter `files`: the decoded
 * contents of each path, `None` where opening or decoding the file raises.
 */
module Config {
  import opened Basics
  import opened PyJson

  /**
   * What a lookup in the configuration gives: the entry, the `ValueError`
   * raised for an absent name (with its text), or another exception
   * (`KeyError`, `TypeError`, `AttributeError`) escaping from a
   * configuration of the wrong shape or one never loaded.
   */
  datatype Lookup = Found(value: Json) | Missing(message: string) | Broken

  /** `config[section]`, when the configuration is a dictionary holding that key. */
  function Section(config: Option<Json>, section: string): (r: Option<Json>)
    ensures r.Some? <==> config.Some? && config.value.JObj? && HasKey(config.value.fields, section)
  {
    if config.Some? && config.value.JObj? then Get(config.value.fields, section) else None
  }

  /**
   * `config[section][name]`, after checking `name in config[section]` and
   * raising `ValueError(message)` when it is not.
   */
  function Entry(config: Option<Json>, section: string, name: string, message: string): (r: Lookup)
    ensures r.Found? <==> (Section(config, section).Some? && Section(config, section).value.JObj?
      && HasKey(Section(config, section).value.fields, name))
    ensures r.Found? ==> Some(r.value) == Get(Section(config, section).value.fields, name)
    ensures r.Missing? <==> Section(config, section).Some? && PyIn(name, Section(config, section).value) == Some(false)
    ensures r.Missing? ==> r.message == message
  {
    match Section(config, section)
    case None => Broken
    case Some(entries) =>
      match PyIn(name, entries)
      case None => Broken
      case Some(false) => Missing(message)
      case Some(true) =>
        if entries.JObj? then Found(Get(entries.fields, name).value) else Broken
  }

  /** The `ValueError` text for an agent name missing from the `agents` section. */
  function AgentMissing(agentName: string): string {
    "Agent '" + agentName + "' not found in configuration."
  }

  /** The `ValueError` text for a key missing from the `embedding_models` section. */
  function EmbeddingMissing(modelKey: string): string {
    "Embedding model key '" + modelKey + "' not found in configuration."
  }

  /** The one loader instance, and the configuration it holds once loaded. */
  class ConfigLoader {
    /** The `config` attribute; `None` while it does not exist. */
    var config: Option<Json>

    /** `object.__new__`: an instance without the attribute. */
    constructor ()
      ensures config.None?
    {
      config := None;
    }

    /** `__init__`: load the file only if the attribute does not exist yet. */
    method Init(configPath: string, files: string -> Option<Json>) returns (ok: bool)
      modifies this
      ensures old(config).Some? ==> config == old(config) && ok
      ensures old(config).None? ==> config == files(configPath) && ok == files(configPath).Some?
    {
      if config.None? {
        config := files(configPath);
      }
      ok := config.Some?;
    }

    /**
     * `get_agent_config`: the entry under `agents`, and `ValueError` exactly
     * when the name is not in that section.
     */
    function GetAgentConfig(agentName: string): (r: Lookup)
      reads this
      ensures r.Found? <==> (Section(config, "agents").Some? && Section(config, "agents").value.JObj?
        && HasKey(Section(config, "agents").value.fields, agentName))
      ensures r.Found? ==> Some(r.value) == Get(Section(config, "agents").value.fields, agentName)
      ensures r.Missing? <==> Section(config, "agents").Some? && PyIn(agentName, Section(config, "agents").value) == Some(false)
      ensures r.Missing? ==> r.message == AgentMissing(agentName)
    {
      Entry(config, "agents", agentName, AgentMissing(agentName))
    }

    /**
     * `get_embedding_model_config`: the entry under `embedding_models`, and
     * `ValueError` exactly when the key is not in that section.
     */
    function GetEmbeddingModelConfig(modelKey: string): (r: Lookup)
      reads this
      ensures r.Found? <==> (Section(config, "embedding_models").Some? && Section(config, "embedding_models").value.JObj?
        && HasKey(Section(config, "embedding_models").value.fields, modelKey))
      ensures r.Found? ==> Some(r.value) == Get(Section(config, "embedding_models").value.fields, modelKey)
      ensures r.Missing? <==> (Section(config, "embedding_models").Some?
        && PyIn(modelKey, Section(config, "embedding_models").value) == Some(false))
      ensures r.Missing? ==> r.message == EmbeddingMissing(modelKey)
    {
      Entry(config, "embedding_models", modelKey, EmbeddingMissing(modelKey))
    }
  }

  /** The class object, whose `_instance` attribute holds the shared loader once there is one. */
  class ConfigLoaderClass {
    var instance: ConfigLoader?

    constructor ()
      ensures instance == null
    {
      instance := null;
    }

    /**
     * `ConfigLoader(config_path)`: `__new__` hands out the shared instance,
     * creating it the first time, and `__init__` loads the file unless the
     * instance already holds a configuration. `ok` is false when loading
     * raised; the instance then stays shared, without a configuration.
     */
    method Construct(configPath: string, files: string -> Option<Json>) returns (loader: ConfigLoader, ok: bool)
      modifies this, instance
      ensures instance == loader
      ensures old(instance) != null ==> loader == old(instance)
      ensures old(instance) == null ==> fresh(loader)
      ensures old(instance) != null && old(instance.config).Some? ==> loader.config == old(instance.config) && ok
      ensures (old(instance) == null || old(instance.config).None?) ==>
        loader.config == files(configPath) && ok == files(configPath).Some?
    {
      if instance == null {
        instance := new ConfigLoader();
      }
      loader := instance;
      ok := loader.Init(configPath, files);
    }

    /**
     * Two constructions in a row, as two modules of a program make them:
     * both give the same object, and once the first has loaded a
     * configuration the second path is never read.
     */
    method ConstructTwice(firstPath: string, secondPath: string, files: string -> Option<Json>)
      returns (first: ConfigLoader, second: ConfigLoader)
      modifies this, instance
      ensures first == second == instance
      ensures files(firstPath).Some? && (old(instance) == null || old(instance.config).None?) ==>
        second.config == files(firstPath)
    {
      var ok;
      first, ok := Construct(firstPath, files);
      second, ok := Construct(secondPath, files);
    }
  }
}
