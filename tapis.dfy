/**
 * core/tapis.py: the earlier copy of the pipeline client. Its discovery and claim
 * code is the same as in core/pipelines.py and is shared with module PipelineClient;
 * what differs is the construction of the client (`tapis_config` is optional, the
 * Meta db and collection are empty strings), the stubbed steps and `main`.
 */
module LegacyClient {
  import opened Wrappers
  import opened Errors
  import opened Json
  import opened Configuration
  import opened Meta
  import opened PipelineClient

  /**
   * The attributes the legacy `__init__` sets. Without a `tapis_config` the client
   * has no Tapis client and no Meta settings at all.
   */
  datatype LegacySettings = LegacySettings(name: Json, credentials: Option<Credentials>, outbox: Box)

  /** The Meta db and collection the legacy client hands to every MetadataHelper. */
  const LegacyMetaDb: Json := JStr("")
  const LegacyMetaCollection: Json := JStr("")

  /** The legacy `__init__`: the credentials are resolved only when the config has a `tapis_config`. */
  function LegacyClientSettings(config: map<string, Json>, env: Env): (r: Result<LegacySettings, Raised>)
    ensures "pipeline_name" !in config ==> r == Failure(AttributeError("pipeline_name"))
    ensures r.Success? ==>
      && r.value.name == config["pipeline_name"]
      && ("tapis_config" in config <==> r.value.credentials.Some?)
      && ("tapis_config" in config ==> ResolveCredentials(config["tapis_config"], env) == Success(r.value.credentials.value))
      && ParseRemoteOutboxConfig(config) == Success(r.value.outbox)
      && r.value.outbox.kind == "tapis"
    ensures "pipeline_name" in config && "tapis_config" in config ==>
      r == (match ResolveCredentials(config["tapis_config"], env)
            case Failure(e) => Failure(e)
            case Success(c) =>
              match ParseRemoteOutboxConfig(config)
              case Success(outbox) => Success(LegacySettings(config["pipeline_name"], Some(c), outbox))
              case Failure(e) => Failure(e))
    ensures "pipeline_name" in config && "tapis_config" !in config ==>
      r == (match ParseRemoteOutboxConfig(config)
            case Success(outbox) => Success(LegacySettings(config["pipeline_name"], None, outbox))
            case Failure(e) => Failure(e))
  {
    var name :- Attribute(config, "pipeline_name");
    var credentials :-
      if "tapis_config" in config then
        match ResolveCredentials(config["tapis_config"], env)
        case Success(c) => Success(Some(c))
        case Failure(e) => Failure(e)
      else Success(None);
    var outbox :- ParseRemoteOutboxConfig(config);
    Success(LegacySettings(name, credentials, outbox))
  }

  /**
   * The legacy `check_tapis_system_for_new_manifest_files`. Without a Tapis client
   * the listing call raises AttributeError inside its `try`, so the client exits
   * with status 1 before any claim; otherwise it is the discovery of core/pipelines.py
   * with the empty Meta db and collection.
   */
  method CheckTapisSystemForNewManifestFiles(settings: LegacySettings, api: MetaApi, files: FilesApi, now: string)
    returns (r: Result<seq<FileEntry>, Raised>)
    requires api.Valid()
    modifies api
    ensures api.Valid()
    ensures settings.credentials.None? ==> r == Failure(SystemExit(1)) && api.State() == old(api.State())
    ensures settings.credentials.Some? ==>
      Step(api.State(), r) == Discovery(old(api.State()), api.faults, settings.outbox, files, now)
  {
    if settings.credentials.None? {
      return Failure(SystemExit(1));
    }
    r := PipelineClient.CheckTapisSystemForNewManifestFiles(settings.outbox, LegacyMetaDb, LegacyMetaCollection, api, files, now);
  }

  /**
   * The legacy `check_for_new_manifest_files`: a box of another kind raises
   * NotImplementedError; otherwise discovery runs and its list is dropped.
   */
  method CheckForNewManifestFiles(settings: LegacySettings, api: MetaApi, files: FilesApi, now: string)
    returns (r: Result<Option<seq<FileEntry>>, Raised>)
    requires api.Valid()
    modifies api
    ensures api.Valid()
    ensures r.Success? ==> r.value == None
    ensures settings.outbox.kind != "tapis" ==>
      r == Failure(NotImplementedError(settings.outbox.kind)) && api.State() == old(api.State())
    ensures settings.outbox.kind == "tapis" && settings.credentials.None? ==>
      r == Failure(SystemExit(1)) && api.State() == old(api.State())
    ensures settings.outbox.kind == "tapis" && settings.credentials.Some? ==>
      var d := Discovery(old(api.State()), api.faults, settings.outbox, files, now);
      && api.State() == d.db
      && r == if d.out.Failure? then Failure(d.out.error) else Success(None)
  {
    if settings.outbox.kind != "tapis" {
      return Failure(NotImplementedError(settings.outbox.kind));
    }
    var found := CheckTapisSystemForNewManifestFiles(settings, api, files, now);
    if found.Failure? {
      return Failure(found.error);
    }
    return Success(None);
  }

  /** `check_for_completed_pipeline_jobs`: a stub that finds no completed job. */
  function CheckForCompletedPipelineJobs(): (completed: seq<FileEntry>)
    ensures |completed| == 0
  {
    []
  }

  /** The client the legacy `main` builds. */
  function LegacyMainSettings(env: Env, fs: FileSystem, codec: JsonCodec, configSchema: Validator): Result<LegacySettings, Raised>
  {
    var config :- ParsePipelineConfig(ConfigPath(env), fs, codec, configSchema);
    LegacyClientSettings(config, env)
  }

  /**
   * The legacy `main`: build the client, then discover and claim new manifests.
   * Discovery hands back None, so the loop over it raises TypeError; the stubbed
   * validation and submission and the completed-jobs step are never reached.
   */
  method RunLegacyClient(env: Env, fs: FileSystem, codec: JsonCodec, configSchema: Validator, api: MetaApi, files: FilesApi, now: string)
    returns (r: Result<(), Raised>)
    requires api.Valid()
    modifies api
    ensures api.Valid()
    ensures r.Failure?
    ensures LegacyMainSettings(env, fs, codec, configSchema).Failure? ==>
      r == Failure(LegacyMainSettings(env, fs, codec, configSchema).error) && api.State() == old(api.State())
    ensures LegacyMainSettings(env, fs, codec, configSchema).Success? &&
            LegacyMainSettings(env, fs, codec, configSchema).value.credentials.None? ==>
      r == Failure(SystemExit(1)) && api.State() == old(api.State())
    ensures LegacyMainSettings(env, fs, codec, configSchema).Success? &&
            LegacyMainSettings(env, fs, codec, configSchema).value.credentials.Some? ==>
      var d := Discovery(old(api.State()), api.faults, LegacyMainSettings(env, fs, codec, configSchema).value.outbox, files, now);
      && api.State() == d.db
      && r == Failure(if d.out.Failure? then d.out.error else TypeError(NoneNotIterable))
  {
    var parsed := ParsePipelineConfig(ConfigPath(env), fs, codec, configSchema);
    if parsed.Failure? {
      return Failure(parsed.error);
    }
    var config := new Config(parsed.value);
    var settings := LegacyClientSettings(config.data, env);
    assert settings == LegacyMainSettings(env, fs, codec, configSchema);
    if settings.Failure? {
      return Failure(settings.error);
    }
    var newManifestFiles := CheckForNewManifestFiles(settings.value, api, files, now);
    if newManifestFiles.Failure? {
      return Failure(newManifestFiles.error);
    }
    match newManifestFiles.value
    case None =>
      return Failure(TypeError(NoneNotIterable));
  }
}
