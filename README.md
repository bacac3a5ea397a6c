# Tapis pipelines client, modelled in Dafny

Tapis pipelines is a small Python client. It watches a remote "outbox" directory
on a Tapis system for manifest files. A manifest file is named
`tapis_pipeline_manifest<job id>`. For each new manifest the client claims the job
by creating a record in the Tapis Meta API, so that the same manifest is never
processed twice. It then validates the manifest: it fetches the file, parses it
against a JSON schema, and checks that every file the manifest lists exists. Each
step is meant to update the job's Meta record with a status and a history of earlier
statuses. The repository also ships an older copy of the client (`core/tapis.py`)
and a sample pipeline job that counts the words of the listed files
(`samples/tapis_word_stats`).

The model has one Dafny module per source file, plus three support modules
(`Wrappers`, `Seqs` and `Text`):

- `Errors` (`core/errors.py`): the exception classes, their defaults, and which
  `except` clause catches what. `Raised` also covers the Python exceptions that the
  code lets escape (KeyError, AttributeError, TypeError, IndexError,
  NotImplementedError, SystemExit, and errors raised by libraries).
- `Json`: the JSON values the client handles. It gives Python's truthiness,
  `d[key]`, `str()`, and what `for f in v` yields.
- `Configuration` (`core/config.py`): the `Config` attribute wrapper as a class,
  and the loading of config and manifest files. Files, JSON decoding and schema
  validation are inputs.
- `Meta` (`core/meta.py`):
  - The Meta API is a class (`MetaApi`) over a sequence of stored records, with
    read and write faults chosen per job.
  - `MetadataHelper.get/create/update` are methods proved against the functions
    `Fetch`, `CreateStep` and `UpdateStep`.
  - `STATUS` is the status-key table, copied key by key.
- `PipelineClient` (`core/pipelines.py`):
  - the client's settings, resolved from the config and the environment;
  - discovery and claiming, as methods with loops proved against `Discovery` and
    `ClaimAll`;
  - validation, as methods proved against `ValidateStep` and `CheckFiles`;
  - the order of steps in `main`.
- `LegacyClient` (`core/tapis.py`): what differs in the older client. That is its
  construction, its stubs and its `main`. Discovery is shared with
  `PipelineClient`.
- `WordStats` (`samples/tapis_word_stats/pipeline_job/word_stats.py`):
  - Python's `str.split()` word count, with its partner `NonSpace`/`Concat`
    characterisation;
  - the `stats` dictionary as an insertion-ordered association list;
  - the report text and the job as a whole.

The model follows the code as written, including two places where one part of the
code does not fit how another part uses it:

- `main` loops over the value of `check_for_new_manifest_files` and validates each
  file it yields (core/pipelines.py:300-304). But `check_for_new_manifest_files`
  calls discovery and drops its list, so it returns None (core/pipelines.py:146-155;
  likewise core/tapis.py:102-111). Every run that gets past discovery therefore ends
  in TypeError, and `main` never reaches validation (`PipelineClient.RunClient`,
  `LegacyClient.RunLegacyClient`).
- `validate_manifest` reports each failure with `update(statuskey='error', …)` and
  then returns False, as its docstring promises (core/pipelines.py:198-240). But the
  `STATUS` table of core/meta.py:13-32 has the key `'ERROR'` and no key `'error'`, and
  `get_tapis_meta_obj` indexes that table (core/meta.py:40). So every such update
  raises before it writes anything: KeyError('error') when the job has a record,
  TypeError when it has none. Validation therefore never returns False and never
  records an error (`Meta.ErrorKeys`, `PipelineClient.ErrorUpdateRaises`,
  `PipelineClient.ValidateOutcome`).

`get_tapis_meta_obj` puts `create_time` in the body only when `set_create_time` is
true (core/meta.py:45-46). `create` asks for it (core/meta.py:50); `update` does not
(core/meta.py:104). The modify call is modelled as a patch of the fields the body
carries, so a record keeps the create time of its claim
(`Meta.UpdateAppendsSnapshot`, `Meta.FirstUpdateAfterClaim`).

## Model

| member | source | states |
|---|---|---|
| Errors.NewError | core/errors.py:1-12 | An error carries the kind, message and code it was built with. |
| Errors.ConstructorDefaults | core/errors.py:5-12 | With no arguments, an error has no message and code 400. |
| Errors.BaseHandlerCatchesAll | core/errors.py:15-35 | `except BaseTapisPipelinesError` catches an error of every subclass. |
| Errors.SubclassHandlerIsExact | core/errors.py:15-35 | `except` on a subclass catches an error if and only if it is of that very subclass, and never catches a non-package exception. |
| Text.DigitRoundTrip | samples/tapis_word_stats/pipeline_job/word_stats.py:62 | Reading a digit character back gives the digit it was made from. |
| Text.NatToString | samples/tapis_word_stats/pipeline_job/word_stats.py:62 | `str()` of a natural number is a non-empty run of digits with no leading zero. |
| Text.ParseNatToString | samples/tapis_word_stats/pipeline_job/word_stats.py:62 | Parsing the digits of `str(n)` gives back `n`. |
| Text.NatToStringInjective | samples/tapis_word_stats/pipeline_job/word_stats.py:62 | Different numbers print differently. |
| Json.Subscript | core/pipelines.py:31-38 | `d[key]` succeeds if and only if `d` is a dict holding `key`, and then gives its value. A dict without the key raises KeyError(key); any other value raises TypeError. |
| Json.GetOr | core/pipelines.py:88 | `d.get(key, default)` is the stored value when the key is present, and the default otherwise. |
| Json.FileRecords | core/pipelines.py:227-228 | `for f in v`: a list yields its items; a string yields its one-character strings; an empty dict yields nothing; a non-empty dict and any scalar raise TypeError. |
| Configuration.Config.constructor | core/config.py:20-31 | A Config holds exactly the dict it was built from. |
| Configuration.Config.GetAttr | core/config.py:33-39 | `config.key`, for a name `dict` does not define, is the stored value, or AttributeError(key) when the key is absent. |
| Configuration.Config.SetAttr | core/config.py:41-42 | Setting an attribute stores it, changes no other attribute, and reads back as set. |
| Configuration.Attribute | core/config.py:33-39 | `__getattr__` succeeds if and only if the key is present, giving its value; otherwise it raises AttributeError naming the key. |
| Configuration.ReadAttributesAreKeys | core/config.py:20-39 | None of the attribute names the clients and the job read (pipeline_name, tapis_config, remote_outbox, files) is an attribute of `dict`, so each read reaches `__getattr__`. |
| Configuration.StripNewlines | core/config.py:52 | Stripping newlines leaves no '\n' and never lengthens the text. |
| Configuration.StripNewlinesAppend | core/config.py:52 | Stripping newlines distributes over concatenation. |
| Configuration.StripNewlinesKeepsOthers | core/config.py:52 | Text without a newline is unchanged by stripping. |
| Configuration.Validated | core/config.py:53-62 | Data is accepted if and only if the schema accepts it, and is then returned unchanged. A schema error becomes a base pipelines error with code 400; a validation error propagates as it is. |
| Configuration.BytesRepr | core/config.py:54 | `{b}` in the load error shows the bytes as `repr` does: `b`, then a quote, then the bytes written out, then the same quote. |
| Configuration.PlainBytesShowAsText | core/config.py:54 | Bytes of printable ASCII without a quote or backslash show as `b'…'` around their own text. |
| Configuration.GetConfigFromBytes | core/config.py:44-62 | A decode failure becomes a base error with code 400, whose message shows the bytes and the decoder's complaint. A success is the validated JSON of the decoded text with newlines removed. Every package error it raises is a base error with code 400. |
| Configuration.NewlinesAreIgnored | core/config.py:52 | Two inputs that differ only in newlines load to the same config. When that text does not parse, both raise the same parse complaint, each message showing its own bytes. |
| Configuration.GetConfigFromFile | core/config.py:64-85 | A missing path raises the base error "Invalid configuration: could not load config file at path: …; file not found.". A success is the validated JSON of the file. A schema error raises the base error "Config from file <path> not valid; json: <the parsed JSON>; exception: <detail>". Every package error it raises is a base error with code 400. |
| Configuration.ToDict | core/config.py:92-102 | `dict(data)` of a JSON object gives its fields. No other value gives a non-empty dict, and a failure is never a package error. |
| Configuration.Wrapped | core/config.py:92-128 | A base error from loading is re-raised as the caller's subclass with the same message. Non-package exceptions pass through. A successful load is converted to a dict. |
| Configuration.ParseManifestBytes | core/config.py:105-115 | Manifest bytes are loaded, then wrapped so that every package error is a ManifestFormatError. |
| Configuration.ParseManifestFile | core/config.py:92-102 | A manifest file is loaded, then wrapped so that every package error (a missing file included) is a ManifestFormatError. |
| Configuration.ParsePipelineConfig | core/config.py:118-128 | A pipeline config file is loaded, then wrapped so that every package error (a missing file included) is a PipelineConfigFormatError. |
| Configuration.MissingManifestFileMessage | core/config.py:77-79 | A missing manifest file raises ManifestFormatError, and its message names the path. |
| Configuration.ValidConfigReturnedUnchanged | core/config.py:118-128 | A config that decodes to an object and conforms to the schema is returned field for field. |
| Meta.MetaObj | core/meta.py:36-47 | The body is built if and only if the status key is in STATUS; otherwise KeyError(key). A built body carries the mapped status, the history, the info and the time, and the create time only when asked. |
| Meta.NewMetaObj | core/meta.py:49-50 | A new record has status METADATA_CREATED, an empty history, empty info, and both times equal to now. |
| Meta.FirstNamed | core/meta.py:70-86 | The index found holds the name, and no earlier index does; None means that no record holds it. |
| Meta.Lookup | core/meta.py:70-86 | The record found is stored under the name; None if and only if no stored record has the name. |
| Meta.MatchingHead | core/meta.py:77-83 | The documents listed for a name are empty exactly when no record has the name; otherwise the first is the one Lookup finds. |
| Meta.MetaApi.ListDocuments | core/meta.py:78-82 | Listing fails exactly for jobs whose reads fail; otherwise it gives every record with that name, in order. |
| Meta.MetaApi.CreateDocument | core/meta.py:63-68 | A create appends the body under a fresh id when the job's writes work, and changes nothing otherwise. |
| Meta.MetaApi.ModifyDocument | core/meta.py:110-117 | A modify patches the record with that id when the job's writes work, and changes nothing otherwise. |
| Meta.MetadataHelper.constructor | core/meta.py:8-11 | A helper remembers its store, db, collection and job name. |
| Meta.MetadataHelper.Get | core/meta.py:70-86 | `get()` is the first record with the job's name, or None when there is none or the read raised. |
| Meta.MetadataHelper.Create | core/meta.py:52-68 | `create()` leaves the store and result as CreateStep says: False when a record exists, True after writing a new one, and the write's exception when it raises. |
| Meta.MetadataHelper.Update | core/meta.py:92-117 | `update()` leaves the store and result as UpdateStep says: an unknown key raises before any write, a write that raises is swallowed, and otherwise the record is patched. |
| Meta.FirstNamedAppend | core/meta.py:70-86 | Appending a record changes the first match only when there was none and the new record has the name. |
| Meta.FirstNamedSameNames | core/meta.py:70-86 | Two record lists with the same names in the same order find the same index. |
| Meta.InsertKeepsOtherLookups | core/meta.py:63-68 | An insert changes the lookup of a name only when that name had no record and the body has that name. |
| Meta.CreateWhenRecorded | core/meta.py:58-60 | `create()` for a job that has a record writes nothing and returns False. |
| Meta.CreateWhenAbsent | core/meta.py:61-68 | `create()` for a job with no record (reads and writes working) returns True. It appends one initial record for the job, which lookups then find, and keeps the store well formed. |
| Meta.CreateKeepsOtherJobs | core/meta.py:52-68 | A claim never changes what another job's lookup finds. |
| Meta.CreateKeepsWellFormed | core/meta.py:52-68 | A claim keeps record ids distinct and below the next id. |
| Meta.UpdateAppendsSnapshot | core/meta.py:92-117 | A successful update keeps the record's id, name and create time. It sets the mapped status, the info and the time, appends the old status/time/info to the history, and leaves every other record unchanged. |
| Meta.UnknownKeyWritesNothing | core/meta.py:92-100 | An update with a key not in STATUS writes nothing. It raises KeyError(key) when the job has a record, and TypeError when it has none. |
| Meta.FailedWriteIsSwallowed | core/meta.py:110-117 | When the modify call raises, the update returns normally and the store is unchanged. |
| Meta.ErrorKeys | core/meta.py:13-32 | STATUS maps 'ERROR' to "ERROR" and has no key 'error'. |
| Meta.HistoryGrowsByOnePerUpdate | core/meta.py:92-117 | A run of successful updates, each at its own time, grows the history by one entry per update and keeps the earlier entries as a prefix. Id and create time stay; the status, info and update time are the last call's. |
| Meta.HistoryRecordsEachCall | core/meta.py:92-117 | The entries n updates append are the record as it was, then the status, time and info each call set, for every call but the last. |
| Meta.FirstUpdateAfterClaim | core/meta.py:52-117 | After a claim at one time and an update at another, the history is exactly the creation snapshot stamped with the claim time. The record carries the update's time and keeps the claim's create time. |
| Meta.ClaimThenUpdates | core/meta.py:52-117 | After a claim and n successful updates, the history has n entries: the creation snapshot at the claim time, then each update's status, time and info but the last. |
| PipelineClient.JobIdFromManifestName | core/pipelines.py:189-196 | The job id is the name after its first 23 characters, and empty for shorter names. |
| PipelineClient.PrefixLength | core/pipelines.py:15 | The manifest prefix is 23 characters long. |
| PipelineClient.JobIdOfManifestName | core/pipelines.py:189-196 | The prefix followed by a job id is a manifest name, whose job id is that id. |
| PipelineClient.ManifestNameOfJobId | core/pipelines.py:189-196 | Every manifest name is the prefix followed by its job id. |
| PipelineClient.ManifestFilesAppend | core/pipelines.py:170-174 | Filtering a listing in two parts filters each part and keeps their order. |
| PipelineClient.ManifestFilesMembers | core/pipelines.py:170-174 | An entry is kept if and only if it is listed and its name carries the prefix. |
| PipelineClient.SelectManifestFiles | core/pipelines.py:170-174 | The first discovery loop keeps exactly the manifest files of the listing, in order. |
| PipelineClient.ClaimJob | core/pipelines.py:176-187 | One claim leaves the store and result as `create()` for the manifest's job id does. |
| PipelineClient.ClaimEach | core/pipelines.py:176-187 | The claim loop leaves the store as ClaimAll says. It returns the files claimed anew, in order, or the first exception raised. |
| PipelineClient.CheckTapisSystemForNewManifestFiles | core/pipelines.py:157-187 | Discovery leaves the store and result as Discovery says. An outbox path that cannot be listed exits with status 1 before any claim. |
| PipelineClient.CheckForNewManifestFiles | core/pipelines.py:146-155 | A box of another kind raises NotImplementedError and writes nothing. Otherwise discovery runs, and the result is None or discovery's exception. |
| PipelineClient.ClaimsExactlyUnrecorded | core/pipelines.py:176-187 | With working metadata calls and distinct job ids, discovery raises nothing and claims exactly the candidates whose job had no record, in order. |
| PipelineClient.ClaimsRecordEveryJob | core/pipelines.py:176-187 | With working metadata calls, every candidate's job has a record after discovery. |
| PipelineClient.RecordedSurvivesClaims | core/pipelines.py:176-187 | A job with a record keeps exactly that record through any run of claims. |
| PipelineClient.RecordedJobsAreNotClaimed | core/pipelines.py:176-187 | When every candidate's job already has a record, nothing is claimed and nothing is written. |
| PipelineClient.SecondDiscoveryClaimsNothing | core/pipelines.py:157-187 | A second discovery on an unchanged listing claims nothing and leaves the store as the first left it. |
| PipelineClient.ClaimsNeverRaiseWhenReliable | core/pipelines.py:176-187 | With working metadata calls no claim raises. |
| PipelineClient.CreateKeepsRecorded | core/pipelines.py:176-187 | One claim keeps every existing record's lookup unchanged. |
| PipelineClient.UnrecordedSameLookups | core/pipelines.py:176-187 | Which candidates are unrecorded depends only on the lookups of their jobs. |
| PipelineClient.ReportError | core/pipelines.py:214-215 | The error path leaves the store and result as the `update('error', …)` of the job does. |
| PipelineClient.ErrorUpdateRaises | core/pipelines.py:18 | The error update never writes and never lets validation return False. It raises KeyError('error') when the job has a record, and TypeError otherwise. |
| PipelineClient.CheckListedFiles | core/pipelines.py:226-240 | The file-check loop leaves the store and result as CheckFiles says, and asks `listFiles` about exactly the paths Probes lists. |
| PipelineClient.ValidateManifest | core/pipelines.py:198-240 | `validate_manifest` leaves the store and result as ValidateStep says, and probes exactly the paths ValidateProbes lists. |
| PipelineClient.CheckFilesOutcome | core/pipelines.py:226-240 | The file checks never write and never return False. They return True if and only if every entry names a listed path; otherwise they raise what the lookup or the error update raises. |
| PipelineClient.ProbesStopAtFirstMissing | core/pipelines.py:226-240 | The paths probed are the entries' paths in order, up to and including the first path that is not listed; the error update names that path. |
| PipelineClient.ValidateOutcome | core/pipelines.py:198-240 | Validation never writes and never returns False. It returns True if and only if the fetch, the parse and every file check succeed. |
| PipelineClient.FetchFailureRaises | core/pipelines.py:207-216 | A manifest that cannot be fetched ends in its job's error update, which raises, and no path is probed. |
| PipelineClient.ParseFailureRaises | core/pipelines.py:217-225 | A manifest that does not parse ends in its job's error update, which raises, and no path is probed. |
| PipelineClient.ConfigPath | core/pipelines.py:27 | The config path is TAPIS_PIPELINES_CONFIG_FILE_PATH when set, and /etc/tapis/pipeline_config.json otherwise. |
| PipelineClient.Required | core/pipelines.py:31-38 | A required tapis_config key gives its value. A missing key raises PipelineConfigError with the given message; a non-dict config raises TypeError. |
| PipelineClient.AccessTokenPrecedence | core/pipelines.py:39-49 | The token is the first present source, in the order config `access_token`, TAPIS_PIPELINES_ACCESS_TOKEN, `_abaco_access_token`, and None when none is present. |
| PipelineClient.Password | core/pipelines.py:50-57 | With a truthy token the password is None. Otherwise it is the config's `password`, and its absence raises the "no token or password" PipelineConfigError. |
| PipelineClient.EmptyConfigTokenShadowsEnvironment | core/pipelines.py:39-57 | An empty `access_token` in the config hides the environment's tokens, so without a password the client fails. |
| PipelineClient.Head5 | core/pipelines.py:58-67 | `s[:5]` is the first min(5, len) characters. |
| PipelineClient.Tail5 | core/pipelines.py:58-67 | `s[-5:]` is the last min(5, len) characters. |
| PipelineClient.CredentialBanner | core/pipelines.py:58-67 | The banner shows only the first and last five characters of a string token, or the second character of a password. It fails exactly for the values that cannot be sliced or indexed so. |
| PipelineClient.ResolveCredentials | core/pipelines.py:31-67 | On success, base_url and username come from the config, the token follows the precedence above, and the password is None if and only if the token is truthy. A missing base_url, then a missing username, raises its PipelineConfigError. With both present, a failure of the password read or of the credential banner is raised as it is, and otherwise the credentials are returned. |
| PipelineClient.MetaDb | core/pipelines.py:88 | The Meta db is `meta_db` when configured, and "pipelines" otherwise. |
| PipelineClient.MetaCollection | core/pipelines.py:100-101 | The collection is `meta_collection` when configured, and `{username}.{pipeline_name}` otherwise. |
| PipelineClient.SplitAfterWord | core/pipelines.py:100-101 | Splitting `u.n` at its first dot gives back `u` and `n` when `u` has no dot. |
| PipelineClient.DefaultCollectionSplits | core/pipelines.py:100-101 | The default collection name keeps the user and the pipeline name apart when the user name has no dot. |
| PipelineClient.DefaultCollectionsDiffer | core/pipelines.py:100-101 | Two different dot-free user names get different default collections. |
| PipelineClient.ParseRemoteOutboxConfig | core/pipelines.py:134-144 | The outbox parses if and only if its kind is "tapis" and it has a box definition with system_id and path; the box carries those. A missing remote_outbox raises AttributeError; another kind raises NotImplementedError. |
| PipelineClient.ClientSettings | core/pipelines.py:26-114 | `__init__` requires pipeline_name and tapis_config. It resolves the credentials, the Meta db and collection and the outbox box, or raises the first failure: AttributeError for a missing key, then a credentials failure as it is, then an outbox failure as it is. When every part succeeds the result is the settings built from them. |
| PipelineClient.RunClient | core/pipelines.py:287-309 | `main` always ends in an exception. A config or settings failure writes nothing. Otherwise the store is what discovery leaves, and the exception is discovery's or TypeError from iterating None. |
| LegacyClient.LegacyClientSettings | core/tapis.py:22-88 | The legacy client requires pipeline_name. It resolves credentials if and only if tapis_config is present, then parses the outbox. A credentials failure is raised before the outbox is parsed, an outbox failure as it is, and Success follows when both succeed. |
| LegacyClient.CheckTapisSystemForNewManifestFiles | core/tapis.py:113-143 | Without a Tapis client, discovery exits with status 1 before any claim. Otherwise it is the same discovery as the current client. |
| LegacyClient.CheckForNewManifestFiles | core/tapis.py:102-111 | Another box kind raises NotImplementedError. Otherwise discovery runs, and the result is at best None. |
| LegacyClient.CheckForCompletedPipelineJobs | core/tapis.py:174-184 | The stub finds no completed job. |
| LegacyClient.RunLegacyClient | core/tapis.py:206-226 | The legacy `main` always ends in an exception: a config or settings failure, SystemExit(1) without credentials, or discovery's exception or TypeError after it. |
| WordStats.ManifestPath | samples/tapis_word_stats/pipeline_job/word_stats.py:16-19 | The manifest path is TAPIS_MANIFEST_FILE_PATH, unless it is unset, empty or "null"; then it is /TapisInput/manifest.json. |
| WordStats.PathJoin | samples/tapis_word_stats/pipeline_job/word_stats.py:55 | `os.path.join`: an absolute second part replaces the first; otherwise exactly one '/' separates them. |
| WordStats.OutputPathInOutputDir | samples/tapis_word_stats/pipeline_job/word_stats.py:10 | The report is /TapisOutput/{JOB_ID}.out, and /TapisOutput/None.out when the job id is unset. |
| WordStats.LeadingSpaces | samples/tapis_word_stats/pipeline_job/word_stats.py:36 | The run of leading whitespace is maximal. |
| WordStats.WordLength | samples/tapis_word_stats/pipeline_job/word_stats.py:36 | The first word is the maximal run of non-whitespace. |
| WordStats.WordsAreRuns | samples/tapis_word_stats/pipeline_job/word_stats.py:36 | Every word of `split()` is non-empty and holds no whitespace. |
| WordStats.WordsKeepCharacters | samples/tapis_word_stats/pipeline_job/word_stats.py:36 | The words joined together are the text with its whitespace removed. |
| WordStats.WordCountIsRunCount | samples/tapis_word_stats/pipeline_job/word_stats.py:36 | The word count is the number of places where a non-space follows a space or the start. |
| WordStats.NoWordsIffBlank | samples/tapis_word_stats/pipeline_job/word_stats.py:36 | A text has no words if and only if it is all whitespace. |
| WordStats.WordsAfterBlank | samples/tapis_word_stats/pipeline_job/word_stats.py:36 | Leading whitespace adds no word. |
| WordStats.WordsSplitAtSpace | samples/tapis_word_stats/pipeline_job/word_stats.py:36 | Joining two texts with a whitespace character joins their word lists. |
| WordStats.NonSpaceAppend | samples/tapis_word_stats/pipeline_job/word_stats.py:36 | Removing whitespace distributes over concatenation. |
| WordStats.LeadingSpacesAppend | samples/tapis_word_stats/pipeline_job/word_stats.py:36 | Leading whitespace of a concatenation: all of a blank first part plus the second's, or the first part's own. |
| WordStats.WordLengthAppend | samples/tapis_word_stats/pipeline_job/word_stats.py:36 | A word ends at the whitespace that follows it. |
| WordStats.KeyIndex | samples/tapis_word_stats/pipeline_job/word_stats.py:56 | The index found holds the key; None means that no entry holds it. |
| WordStats.Get | samples/tapis_word_stats/pipeline_job/word_stats.py:56 | A lookup fails if and only if the key is absent, and gives the key's count. |
| WordStats.Put | samples/tapis_word_stats/pipeline_job/word_stats.py:56 | `stats[k] = v` keeps the keys distinct and in insertion order, adding k at the end only when new. Afterwards k reads v and every other key reads as before. |
| WordStats.RecordPath | samples/tapis_word_stats/pipeline_job/word_stats.py:55 | A record gives a path if and only if its `file_path` exists and is a string. |
| WordStats.StatsForFile | samples/tapis_word_stats/pipeline_job/word_stats.py:27-36 | A readable file gives its word count; an unreadable or missing one raises. |
| WordStats.StatsFor | samples/tapis_word_stats/pipeline_job/word_stats.py:50-56 | The stats have distinct keys, and no more keys than records. |
| WordStats.EveryPathIsKey | samples/tapis_word_stats/pipeline_job/word_stats.py:50-56 | Every record's path is a key of the stats. |
| WordStats.EveryKeyIsPath | samples/tapis_word_stats/pipeline_job/word_stats.py:50-56 | Every key of the stats is some record's path. |
| WordStats.LaterDuplicateOverwrites | samples/tapis_word_stats/pipeline_job/word_stats.py:56 | A later record with a path already seen keeps the keys and their order, and its count wins. |
| WordStats.StatsFailurePersists | samples/tapis_word_stats/pipeline_job/word_stats.py:53-56 | Once a record raises, no later record changes the outcome. |
| WordStats.BuildStats | samples/tapis_word_stats/pipeline_job/word_stats.py:50-56 | The stats loop computes StatsFor: the stats of all records, or the first exception. |
| WordStats.ReportAppend | samples/tapis_word_stats/pipeline_job/word_stats.py:61-64 | The report of two runs of stats is their reports one after the other. |
| WordStats.BlockReadsBack | samples/tapis_word_stats/pipeline_job/word_stats.py:61-64 | A block starts with the path, then the rule and label, then the count's digits, which parse back to the count. |
| WordStats.WriteReport | samples/tapis_word_stats/pipeline_job/word_stats.py:58-64 | The write loop produces exactly the report: one block per key, in insertion order. |
| WordStats.MissingFilesAttribute | samples/tapis_word_stats/pipeline_job/word_stats.py:40-46 | A manifest without `files` stops the job with AttributeError('files') before any file is read. |
| WordStats.RunWordStats | samples/tapis_word_stats/pipeline_job/word_stats.py:39-64 | The job gives the output path and report that JobOutput defines, or the first exception. |

## Left out

- The Tapis client library and the network are not modelled. This covers building the
  `Tapis` client in `TapisPipelineClient.__init__`. It also covers the Meta collection
  set-up there (core/pipelines.py:90-112): `listCollectionNames` and its exit with
  status 1, and `createCollection`, which passes the collection name as `db=`
  (line 105). The Files API is an input value (`FilesApi`). The Meta API is the
  in-memory test double `MetaApi`, which stands for the calls of core/meta.py:62-66,
  78-82 and 110-117.
- The Meta db and collection names are carried but not used: `MetaApi` stands for one
  collection.
- `get_meta_helper`'s `UnexpectedRuntimeError` branch (core/pipelines.py:127-132) is
  left out. It is unreachable, because `MetadataHelper.__init__` (core/meta.py:8-34)
  only assigns fields and cannot raise.
- The clock is not modelled: `datetime.now()` is a parameter. Each `update` in
  `Meta.UpdateAll` has its own reading. A discovery run takes one reading, which
  serves every `create` of that run (`PipelineClient.ClaimAll`,
  `PipelineClient.ClaimEach`), where the source reads the clock for each call.
- Console output is not modelled: `print` and logging, `MetadataHelper.print`, and the
  banner text apart from what its slicing can raise.
- The exception texts of library errors are kept only as far as their class.
- Configuration.Attribute does not model names that are attributes of `dict`
  (`get`, `keys`, `update` and the like). Python finds those before `__getattr__`,
  so `config.get` is the bound method even when the dict has a key "get". The model
  returns the stored value. The names the code reads are not among them
  (`Configuration.ReadAttributesAreKeys`).
- Configuration.Config.GetAttr has the same limit, because it is
  Configuration.Attribute on the Config's dict.
- `str()` of lists and dicts is not modelled. JSON numbers are integers, and floats
  are left out.
- `dict()` of a list of pairs is treated as a failure.
- Python-version dependence of slicing a dict is not modelled.
- Concurrency is not modelled. Discovery runs alone, and each Meta call is atomic.
- The stubs `submit_job_for_manifest`, `validate_manifest_and_submit_job` and
  `copy_completed_job_outputs_to_remote_inbox` have no behaviour to model, and
  `main` never reaches them.
- Decoding and opening files are not modelled. A file is present, unreadable, or
  absent, and universal-newline translation is left out.
- WordStats.RunWordStats does not write the output file. It returns the path and
  the text the job would write.
- `systemId` of the outbox is carried but not used: the Files API of one system is
  the input.
- samples/tapis_word_stats/util.py and the sample job's copy of the error classes
  (samples/tapis_word_stats/pipeline_job/core/errors.py) are not part of this model.
