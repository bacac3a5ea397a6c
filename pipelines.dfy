/**
 * core/pipelines.py: the pipeline client. Its settings, resolved once from the
 * pipeline config and the environment; discovery and claiming of manifest files
 * in the remote outbox; manifest validation; and the order of steps in `main`.
 *
 * The Tapis Files API of the outbox system is an input value (FilesApi); the Meta
 * API is the in-memory store of module Meta.
 */
module PipelineClient {
  import opened Wrappers
  import opened Errors
  import opened Text
  import opened Json
  import opened Configuration
  import opened Meta
  import opened Seqs

  /** Every manifest file name starts with this prefix; the rest of the name is the job id. */
  const ManifestPrefix: string := "tapis_pipeline_manifest"

  /** The status key validation hands to `update` when a step fails. */
  const MetaErrorStatusKey: string := "error"

  /** Where the pipeline config lives unless TAPIS_PIPELINES_CONFIG_FILE_PATH says otherwise. */
  const DefaultConfigPath: string := "/etc/tapis/pipeline_config.json"

  /** What `for f in None` raises. */
  const NoneNotIterable: string := "'NoneType' object is not iterable"

  type Env = map<string, string>

  /** A file object of a Tapis Files listing. */
  datatype FileEntry = FileEntry(name: string, path: string)

  /** A TapisSystemBox: the kind tag and the configured system id and path. */
  datatype Box = Box(kind: string, systemId: Json, path: Json)

  /**
   * The Files API of the outbox system as the client sees it: the listing of every
   * path that `listFiles` can list (it raises for the others) and the bytes of every
   * file that `getContents` can fetch (it raises for the others).
   */
  datatype FilesApi = FilesApi(listing: map<Json, seq<FileEntry>>, contents: map<string, seq<byte>>)

  /** The credentials resolved from `tapis_config` and the environment. */
  datatype Credentials = Credentials(baseUrl: Json, username: Json, accessToken: Json, password: Json)

  /** The attributes `TapisPipelineClient.__init__` sets. */
  datatype Settings = Settings(name: Json, credentials: Credentials, metaDb: Json, metaCollection: Json, outbox: Box)

  // ---------------------------------------------------------------------------
  // Job ids and manifest names
  // ---------------------------------------------------------------------------

  predicate IsManifestName(name: string)
  {
    StartsWith(name, ManifestPrefix)
  }

  /** `file_name[len(PREFIX):]`: the name without its first 23 characters (empty when it is shorter). */
  function JobIdFromManifestName(fileName: string): (id: string)
    ensures |id| == if |fileName| <= |ManifestPrefix| then 0 else |fileName| - |ManifestPrefix|
    ensures forall i :: 0 <= i < |id| ==> id[i] == fileName[|ManifestPrefix| + i]
  {
    if |fileName| <= |ManifestPrefix| then "" else fileName[|ManifestPrefix|..]
  }

  lemma PrefixLength()
    ensures |ManifestPrefix| == 23
  {
  }

  /** The job id of the manifest named after a job is that job's id. */
  lemma JobIdOfManifestName(id: string)
    ensures IsManifestName(ManifestPrefix + id)
    ensures JobIdFromManifestName(ManifestPrefix + id) == id
  {
    assert (ManifestPrefix + id)[..|ManifestPrefix|] == ManifestPrefix;
  }

  /** A manifest name is the prefix followed by its job id. */
  lemma ManifestNameOfJobId(fileName: string)
    requires IsManifestName(fileName)
    ensures ManifestPrefix + JobIdFromManifestName(fileName) == fileName
  {
    if |fileName| == |ManifestPrefix| {
      assert fileName == fileName[..|ManifestPrefix|];
    } else {
      assert fileName == fileName[..|ManifestPrefix|] + fileName[|ManifestPrefix|..];
    }
  }

  // ---------------------------------------------------------------------------
  // Discovery
  // ---------------------------------------------------------------------------

  /** The entries of a listing whose name carries the manifest prefix, in listing order. */
  function ManifestFiles(listing: seq<FileEntry>): (r: seq<FileEntry>)
    ensures |r| <= |listing|
  {
    if listing == [] then []
    else
      var last := listing[|listing| - 1];
      ManifestFiles(listing[..|listing| - 1]) + (if IsManifestName(last.name) then [last] else [])
  }

  /** Filtering a listing in two parts filters each part and keeps them in order. */
  lemma {:induction false} ManifestFilesAppend(a: seq<FileEntry>, b: seq<FileEntry>)
    ensures ManifestFiles(a + b) == ManifestFiles(a) + ManifestFiles(b)
    decreases |b|
  {
    if b == [] {
      assert a + b == a;
    } else {
      var b' := b[..|b| - 1];
      assert (a + b)[..|a + b| - 1] == a + b';
      assert (a + b)[|a + b| - 1] == b[|b| - 1];
      ManifestFilesAppend(a, b');
    }
  }

  /** An entry is kept exactly when it is listed and its name carries the prefix. */
  lemma {:induction false} ManifestFilesMembers(listing: seq<FileEntry>, f: FileEntry)
    ensures f in ManifestFiles(listing) <==> f in listing && IsManifestName(f.name)
    decreases |listing|
  {
    if listing != [] {
      var init := listing[..|listing| - 1];
      assert listing == init + [listing[|listing| - 1]];
      ManifestFilesMembers(init, f);
    }
  }

  /** The outcome of claiming a run of manifest files one after the other. */
  datatype Claims = Claims(db: Db, claimed: seq<FileEntry>, error: Option<Raised>)

  /**
   * Claims each candidate's job through `create()`, in order, keeping those it
   * returned True for; the first `create()` that raises ends the run.
   */
  function ClaimAll(db: Db, faults: Faults, candidates: seq<FileEntry>, now: string): Claims
    decreases |candidates|
  {
    if candidates == [] then Claims(db, [], None)
    else
      var s := CreateStep(db, faults, JobIdFromManifestName(candidates[0].name), now);
      match s.out
      case Failure(e) => Claims(s.db, [], Some(e))
      case Success(isNew) =>
        var rest := ClaimAll(s.db, faults, candidates[1..], now);
        Claims(rest.db, (if isNew then [candidates[0]] else []) + rest.claimed, rest.error)
  }

  /** What `check_tapis_system_for_new_manifest_files` does to the store and returns. */
  function Discovery(db: Db, faults: Faults, outbox: Box, files: FilesApi, now: string): Step<Result<seq<FileEntry>, Raised>>
  {
    if outbox.path !in files.listing then Step(db, Failure(SystemExit(1)))
    else
      var c := ClaimAll(db, faults, ManifestFiles(files.listing[outbox.path]), now);
      Step(c.db, if c.error.Some? then Failure(c.error.value) else Success(c.claimed))
  }

  /** Metadata reads and writes for these candidates' jobs all go through. */
  predicate Reliable(faults: Faults, candidates: seq<FileEntry>)
  {
    forall i :: 0 <= i < |candidates| ==>
      JobIdFromManifestName(candidates[i].name) !in faults.readFails &&
      JobIdFromManifestName(candidates[i].name) !in faults.writeFails
  }

  lemma ReliableRest(faults: Faults, candidates: seq<FileEntry>)
    requires candidates != [] && Reliable(faults, candidates)
    ensures Reliable(faults, candidates[1..])
  {
    var rest := candidates[1..];
    forall i | 0 <= i < |rest|
      ensures JobIdFromManifestName(rest[i].name) !in faults.readFails && JobIdFromManifestName(rest[i].name) !in faults.writeFails
    {
      assert rest[i] == candidates[i + 1];
    }
  }

  predicate DistinctJobIds(candidates: seq<FileEntry>)
  {
    forall i, j :: 0 <= i < j < |candidates| ==>
      JobIdFromManifestName(candidates[i].name) != JobIdFromManifestName(candidates[j].name)
  }

  lemma DistinctJobIdsRest(candidates: seq<FileEntry>)
    requires candidates != [] && DistinctJobIds(candidates)
    ensures DistinctJobIds(candidates[1..])
    ensures forall i :: 0 <= i < |candidates| - 1 ==>
      JobIdFromManifestName(candidates[1..][i].name) != JobIdFromManifestName(candidates[0].name)
  {
    var rest := candidates[1..];
    forall i, j | 0 <= i < j < |rest|
      ensures JobIdFromManifestName(rest[i].name) != JobIdFromManifestName(rest[j].name)
    {
      assert rest[i] == candidates[i + 1] && rest[j] == candidates[j + 1];
    }
    forall i | 0 <= i < |rest|
      ensures JobIdFromManifestName(rest[i].name) != JobIdFromManifestName(candidates[0].name)
    {
      assert rest[i] == candidates[i + 1];
    }
  }

  /** The candidates whose job has no record in the store, in order. */
  function Unrecorded(db: Db, candidates: seq<FileEntry>): seq<FileEntry>
  {
    if candidates == [] then []
    else (if Lookup(db, JobIdFromManifestName(candidates[0].name)).None? then [candidates[0]] else [])
         + Unrecorded(db, candidates[1..])
  }

  lemma {:induction false} UnrecordedSameLookups(db: Db, db': Db, candidates: seq<FileEntry>)
    requires forall i :: 0 <= i < |candidates| ==>
      Lookup(db', JobIdFromManifestName(candidates[i].name)) == Lookup(db, JobIdFromManifestName(candidates[i].name))
    ensures Unrecorded(db', candidates) == Unrecorded(db, candidates)
    decreases |candidates|
  {
    if candidates != [] {
      UnrecordedSameLookups(db, db', candidates[1..]);
    }
  }

  /** A job that already has a record keeps it through any claim. */
  lemma CreateKeepsRecorded(db: Db, faults: Faults, name: string, now: string, other: string)
    requires Lookup(db, other).Some?
    ensures Lookup(CreateStep(db, faults, name, now).db, other) == Lookup(db, other)
  {
    InsertKeepsOtherLookups(db, NewMetaObj(name, now), other);
  }

  /**
   * With working metadata calls and distinct job ids, discovery claims exactly the
   * candidates whose job had no record, in order, and raises nothing.
   */
  lemma {:induction false} ClaimsExactlyUnrecorded(db: Db, faults: Faults, candidates: seq<FileEntry>, now: string)
    requires WellFormed(db) && Reliable(faults, candidates) && DistinctJobIds(candidates)
    ensures ClaimAll(db, faults, candidates, now).error == None
    ensures ClaimAll(db, faults, candidates, now).claimed == Unrecorded(db, candidates)
    decreases |candidates|
  {
    if candidates != [] {
      var id := JobIdFromManifestName(candidates[0].name);
      var s := CreateStep(db, faults, id, now);
      CreateKeepsWellFormed(db, faults, id, now);
      if Lookup(db, id).None? {
        CreateWhenAbsent(db, faults, id, now);
      }
      var rest := candidates[1..];
      ReliableRest(faults, candidates);
      DistinctJobIdsRest(candidates);
      forall i | 0 <= i < |rest|
        ensures Lookup(s.db, JobIdFromManifestName(rest[i].name)) == Lookup(db, JobIdFromManifestName(rest[i].name))
      {
        CreateKeepsOtherJobs(db, faults, id, now, JobIdFromManifestName(rest[i].name));
      }
      UnrecordedSameLookups(db, s.db, rest);
      ClaimsExactlyUnrecorded(s.db, faults, rest, now);
    }
  }

  /** With working metadata calls, every candidate's job has a record once discovery is done. */
  lemma {:induction false} ClaimsRecordEveryJob(db: Db, faults: Faults, candidates: seq<FileEntry>, now: string)
    requires WellFormed(db) && Reliable(faults, candidates)
    ensures var c := ClaimAll(db, faults, candidates, now);
      && WellFormed(c.db)
      && forall i :: 0 <= i < |candidates| ==> Lookup(c.db, JobIdFromManifestName(candidates[i].name)).Some?
    decreases |candidates|
  {
    if candidates != [] {
      var id := JobIdFromManifestName(candidates[0].name);
      var s := CreateStep(db, faults, id, now);
      CreateKeepsWellFormed(db, faults, id, now);
      if Lookup(db, id).None? {
        CreateWhenAbsent(db, faults, id, now);
      }
      assert Lookup(s.db, id).Some?;
      var rest := candidates[1..];
      ReliableRest(faults, candidates);
      ClaimsRecordEveryJob(s.db, faults, rest, now);
      var c := ClaimAll(s.db, faults, rest, now);
      assert ClaimAll(db, faults, candidates, now).db == c.db;
      RecordedSurvivesClaims(s.db, faults, rest, now, id);
      forall i | 0 <= i < |candidates|
        ensures Lookup(c.db, JobIdFromManifestName(candidates[i].name)).Some?
      {
        if i > 0 {
          assert candidates[i] == rest[i - 1];
        }
      }
    }
  }

  /** A job with a record keeps the same record through a run of claims. */
  lemma {:induction false} RecordedSurvivesClaims(db: Db, faults: Faults, candidates: seq<FileEntry>, now: string, name: string)
    requires Lookup(db, name).Some?
    ensures Lookup(ClaimAll(db, faults, candidates, now).db, name) == Lookup(db, name)
    decreases |candidates|
  {
    if candidates != [] {
      var s := CreateStep(db, faults, JobIdFromManifestName(candidates[0].name), now);
      CreateKeepsRecorded(db, faults, JobIdFromManifestName(candidates[0].name), now, name);
      RecordedSurvivesClaims(s.db, faults, candidates[1..], now, name);
    }
  }

  /** When every candidate's job already has a record, discovery claims nothing and writes nothing. */
  lemma {:induction false} RecordedJobsAreNotClaimed(db: Db, faults: Faults, candidates: seq<FileEntry>, now: string)
    requires forall i :: 0 <= i < |candidates| ==>
      Fetch(db, faults, JobIdFromManifestName(candidates[i].name)).Some?
    ensures ClaimAll(db, faults, candidates, now) == Claims(db, [], None)
    decreases |candidates|
  {
    if candidates != [] {
      CreateWhenRecorded(db, faults, JobIdFromManifestName(candidates[0].name), now);
      RecordedJobsAreNotClaimed(db, faults, candidates[1..], now);
    }
  }

  /** Running discovery a second time on an unchanged listing claims nothing and leaves the store as it is. */
  lemma SecondDiscoveryClaimsNothing(db: Db, faults: Faults, outbox: Box, files: FilesApi, now: string, later: string)
    requires WellFormed(db) && outbox.path in files.listing
    requires Reliable(faults, ManifestFiles(files.listing[outbox.path]))
    ensures var first := Discovery(db, faults, outbox, files, now);
      && first.out.Success?
      && Discovery(first.db, faults, outbox, files, later) == Step(first.db, Success([]))
  {
    var candidates := ManifestFiles(files.listing[outbox.path]);
    ClaimsRecordEveryJob(db, faults, candidates, now);
    var c := ClaimAll(db, faults, candidates, now);
    assert c.error == None by {
      ClaimsNeverRaiseWhenReliable(db, faults, candidates, now);
    }
    RecordedJobsAreNotClaimed(c.db, faults, candidates, later);
  }

  /** With working metadata calls no claim raises. */
  lemma {:induction false} ClaimsNeverRaiseWhenReliable(db: Db, faults: Faults, candidates: seq<FileEntry>, now: string)
    requires Reliable(faults, candidates)
    ensures ClaimAll(db, faults, candidates, now).error == None
    decreases |candidates|
  {
    if candidates != [] {
      var s := CreateStep(db, faults, JobIdFromManifestName(candidates[0].name), now);
      var rest := candidates[1..];
      ReliableRest(faults, candidates);
      ClaimsNeverRaiseWhenReliable(s.db, faults, rest, now);
    }
  }

  /** The claims so far followed by the outcome of the rest of the run. */
  function Prefixed(done: seq<FileEntry>, c: Claims): Claims
  {
    Claims(c.db, done + c.claimed, c.error)
  }

  /** The first loop of discovery: the manifest files of the listing, in order. */
  method SelectManifestFiles(fileList: seq<FileEntry>) returns (manifestFiles: seq<FileEntry>)
    ensures manifestFiles == ManifestFiles(fileList)
  {
    manifestFiles := [];
    var i := 0;
    while i < |fileList|
      invariant 0 <= i <= |fileList|
      invariant manifestFiles == ManifestFiles(fileList[..i])
    {
      assert fileList[..i + 1][..i] == fileList[..i];
      if IsManifestName(fileList[i].name) {
        manifestFiles := manifestFiles + [fileList[i]];
      }
      i := i + 1;
    }
    assert fileList[..|fileList|] == fileList;
  }

  /** One turn of the claim loop: a helper for the manifest's job, then its `create()`. */
  method ClaimJob(metaDb: Json, metaCollection: Json, api: MetaApi, f: FileEntry, now: string) returns (r: Result<bool, Raised>)
    requires api.Valid()
    modifies api
    ensures api.Valid()
    ensures Step(api.State(), r) == CreateStep(old(api.State()), api.faults, JobIdFromManifestName(f.name), now)
  {
    var m := new MetadataHelper(api, metaDb, metaCollection, JobIdFromManifestName(f.name));
    r := m.Create(now);
  }

  /** The second loop of discovery: claim each manifest's job, keep the files claimed anew. */
  method ClaimEach(manifestFiles: seq<FileEntry>, metaDb: Json, metaCollection: Json, api: MetaApi, now: string)
    returns (r: Result<seq<FileEntry>, Raised>)
    requires api.Valid()
    modifies api
    ensures api.Valid()
    ensures var c := ClaimAll(old(api.State()), api.faults, manifestFiles, now);
      && api.State() == c.db
      && r == if c.error.Some? then Failure(c.error.value) else Success(c.claimed)
  {
    ghost var total := ClaimAll(api.State(), api.faults, manifestFiles, now);
    var newManifestFiles: seq<FileEntry> := [];
    var j := 0;
    while j < |manifestFiles|
      invariant 0 <= j <= |manifestFiles|
      invariant api.Valid()
      invariant total == Prefixed(newManifestFiles, ClaimAll(api.State(), api.faults, manifestFiles[j..], now))
    {
      var f := manifestFiles[j];
      ghost var before := api.State();
      var created := ClaimJob(metaDb, metaCollection, api, f, now);
      ghost var next := if created.Success? && created.value then newManifestFiles + [f] else newManifestFiles;
      ClaimOne(total, api.faults, manifestFiles, j, newManifestFiles, next, before, Step(api.State(), created), now);
      if created.Failure? {
        return Failure(created.error);
      }
      if created.value {
        newManifestFiles := newManifestFiles + [f];
      }
      j := j + 1;
    }
    assert manifestFiles[j..] == [];
    assert newManifestFiles + [] == newManifestFiles;
    return Success(newManifestFiles);
  }

  /** One turn of the claim loop, in terms of the whole run. */
  lemma ClaimOne(total: Claims, faults: Faults, candidates: seq<FileEntry>, j: nat, done: seq<FileEntry>, done': seq<FileEntry>, db: Db,
                 s: Step<Result<bool, Raised>>, now: string)
    requires j < |candidates|
    requires total == Prefixed(done, ClaimAll(db, faults, candidates[j..], now))
    requires s == CreateStep(db, faults, JobIdFromManifestName(candidates[j].name), now)
    requires s.out.Success? ==> done' == if s.out.value then done + [candidates[j]] else done
    ensures s.out.Failure? ==> total == Claims(s.db, done, Some(s.out.error))
    ensures s.out.Success? ==>
      total == Prefixed(done', ClaimAll(s.db, faults, candidates[j + 1..], now))
  {
    var rest := candidates[j..];
    assert rest[0] == candidates[j] && rest[1..] == candidates[j + 1..];
    if s.out.Failure? {
      assert ClaimAll(db, faults, rest, now) == Claims(s.db, [], Some(s.out.error));
      assert done + [] == done;
    } else {
      var added := if s.out.value then [candidates[j]] else [];
      var tail := ClaimAll(s.db, faults, candidates[j + 1..], now);
      assert ClaimAll(db, faults, rest, now) == Claims(tail.db, added + tail.claimed, tail.error);
      assert done + added == done';
      AppendAssociates(done, added, tail.claimed);
    }
  }

  /**
   * `check_tapis_system_for_new_manifest_files`: list the outbox (exit with status 1
   * when that raises), keep the manifest files, claim each, return those newly claimed.
   */
  method CheckTapisSystemForNewManifestFiles(outbox: Box, metaDb: Json, metaCollection: Json, api: MetaApi, files: FilesApi, now: string)
    returns (r: Result<seq<FileEntry>, Raised>)
    requires api.Valid()
    modifies api
    ensures api.Valid()
    ensures Step(api.State(), r) == Discovery(old(api.State()), api.faults, outbox, files, now)
  {
    if outbox.path !in files.listing {
      return Failure(SystemExit(1));
    }
    var manifestFiles := SelectManifestFiles(files.listing[outbox.path]);
    r := ClaimEach(manifestFiles, metaDb, metaCollection, api, now);
  }

  /**
   * `check_for_new_manifest_files`: a box of another kind raises NotImplementedError;
   * otherwise discovery runs and its list is dropped, so the result is None.
   */
  method CheckForNewManifestFiles(settings: Settings, api: MetaApi, files: FilesApi, now: string)
    returns (r: Result<Option<seq<FileEntry>>, Raised>)
    requires api.Valid()
    modifies api
    ensures api.Valid()
    ensures settings.outbox.kind != "tapis" ==>
      r == Failure(NotImplementedError(settings.outbox.kind)) && api.State() == old(api.State())
    ensures settings.outbox.kind == "tapis" ==>
      var d := Discovery(old(api.State()), api.faults, settings.outbox, files, now);
      && api.State() == d.db
      && r == if d.out.Failure? then Failure(d.out.error) else Success(None)
  {
    if settings.outbox.kind != "tapis" {
      return Failure(NotImplementedError(settings.outbox.kind));
    }
    var found := CheckTapisSystemForNewManifestFiles(settings.outbox, settings.metaDb, settings.metaCollection, api, files, now);
    if found.Failure? {
      return Failure(found.error);
    }
    return Success(None);
  }

  // ---------------------------------------------------------------------------
  // Validation
  // ---------------------------------------------------------------------------

  /*
   * The debug messages of validation name the manifest by its path and leave out
   * the `; Exception: {e}` tail: the source formats the file object itself, whose
   * text is the client library's. No such message is ever stored, because the
   * error update raises before it writes (ErrorUpdateRaises).
   */

  function FetchFailedMessage(manifestPath: string): string
  {
    "Got exception trying to retrieve manifest file " + manifestPath
  }

  function ParseFailedMessage(manifestPath: string): string
  {
    "Got exception trying to deserialize the manifest file " + manifestPath
  }

  function MissingFileMessage(path: Json, manifestPath: string): string
  {
    "Error checking file at path: " + Str(path) + " in manifest file: " + manifestPath
  }

  /** `update(statuskey='error', additional_info={"debug_data": msg})`, then `return False`. */
  function ErrorUpdate(db: Db, faults: Faults, jobId: string, msg: string, now: string): Step<Result<bool, Raised>>
  {
    var s := UpdateStep(db, faults, jobId, MetaErrorStatusKey, JObj(map["debug_data" := JStr(msg)]), now);
    Step(s.db, if s.out.Failure? then Failure(s.out.error) else Success(false))
  }

  /** What the error update raises: KeyError('error') for a job with a record, TypeError without one. */
  function ErrorUpdateRaise(db: Db, faults: Faults, jobId: string): Raised
  {
    if Fetch(db, faults, jobId).Some? then KeyError(MetaErrorStatusKey)
    else TypeError("'NoneType' object is not subscriptable")
  }

  /**
   * The error update never writes and never lets validation return False: "error"
   * is not a status key, so `update` raises before it writes anything.
   */
  lemma ErrorUpdateRaises(db: Db, faults: Faults, jobId: string, msg: string, now: string)
    ensures ErrorUpdate(db, faults, jobId, msg, now) == Step(db, Failure(ErrorUpdateRaise(db, faults, jobId)))
  {
    ErrorKeys();
    UnknownKeyWritesNothing(db, faults, jobId, MetaErrorStatusKey, JObj(map["debug_data" := JStr(msg)]), now);
  }

  /** The `file_path` checks of the manifest's entries, in order, stopping at the first that fails. */
  function CheckFiles(db: Db, faults: Faults, files: FilesApi, entries: seq<Json>, jobId: string, manifestPath: string, now: string)
    : Step<Result<bool, Raised>>
    decreases |entries|
  {
    if entries == [] then Step(db, Success(true))
    else
      match Subscript(entries[0], "file_path")
      case Failure(e) => Step(db, Failure(e))
      case Success(path) =>
        if path in files.listing then CheckFiles(db, faults, files, entries[1..], jobId, manifestPath, now)
        else ErrorUpdate(db, faults, jobId, MissingFileMessage(path, manifestPath), now)
  }

  /** The paths `listFiles` is asked about, in order. */
  function Probes(files: FilesApi, entries: seq<Json>): seq<Json>
    decreases |entries|
  {
    if entries == [] then []
    else
      match Subscript(entries[0], "file_path")
      case Failure(_) => []
      case Success(path) => [path] + (if path in files.listing then Probes(files, entries[1..]) else [])
  }

  /** Every entry names a `file_path` that the Files API lists. */
  predicate AllListed(files: FilesApi, entries: seq<Json>)
  {
    forall i :: 0 <= i < |entries| ==>
      Subscript(entries[i], "file_path").Success? && Subscript(entries[i], "file_path").value in files.listing
  }

  /** What `validate_manifest(mf)` does to the store and returns. */
  function ValidateStep(db: Db, faults: Faults, files: FilesApi, codec: JsonCodec, manifestSchema: Validator, mf: FileEntry, now: string)
    : Step<Result<bool, Raised>>
  {
    var jobId := JobIdFromManifestName(mf.name);
    if mf.path !in files.contents then ErrorUpdate(db, faults, jobId, FetchFailedMessage(mf.path), now)
    else
      match ParseManifestBytes(files.contents[mf.path], codec, manifestSchema)
      case Failure(_) => ErrorUpdate(db, faults, jobId, ParseFailedMessage(mf.path), now)
      case Success(manifest) =>
        match Subscript(JObj(manifest), "files")
        case Failure(e) => Step(db, Failure(e))
        case Success(listed) =>
          match FileRecords(listed)
          case Failure(e) => Step(db, Failure(e))
          case Success(entries) => CheckFiles(db, faults, files, entries, jobId, mf.path, now)
  }

  /** The manifest's file records, when fetching and parsing it get that far. */
  function ManifestEntries(files: FilesApi, codec: JsonCodec, manifestSchema: Validator, mf: FileEntry): Option<seq<Json>>
  {
    if mf.path !in files.contents then None
    else
      match ParseManifestBytes(files.contents[mf.path], codec, manifestSchema)
      case Failure(_) => None
      case Success(manifest) =>
        match Subscript(JObj(manifest), "files")
        case Failure(_) => None
        case Success(listed) =>
          match FileRecords(listed)
          case Failure(_) => None
          case Success(entries) => Some(entries)
  }

  /** The paths validation asks `listFiles` about. */
  function ValidateProbes(files: FilesApi, codec: JsonCodec, manifestSchema: Validator, mf: FileEntry): seq<Json>
  {
    match ManifestEntries(files, codec, manifestSchema, mf)
    case None => []
    case Some(entries) => Probes(files, entries)
  }

  /**
   * The file checks never write, never return False, and return True exactly when
   * every entry names a listed path; otherwise they raise what the `file_path`
   * lookup or the error update raises.
   */
  lemma {:induction false} CheckFilesOutcome(db: Db, faults: Faults, files: FilesApi, entries: seq<Json>, jobId: string, manifestPath: string, now: string)
    ensures var s := CheckFiles(db, faults, files, entries, jobId, manifestPath, now);
      && s.db == db
      && s.out != Success(false)
      && (s.out == Success(true) <==> AllListed(files, entries))
      && (s.out.Failure? ==>
            s.out.error == ErrorUpdateRaise(db, faults, jobId) || s.out.error == KeyError("file_path") || s.out.error.TypeError?)
    decreases |entries|
  {
    if entries != [] {
      match Subscript(entries[0], "file_path")
      case Failure(e) =>
      case Success(path) =>
        if path in files.listing {
          CheckFilesOutcome(db, faults, files, entries[1..], jobId, manifestPath, now);
          assert AllListed(files, entries) <==> AllListed(files, entries[1..]) by {
            if AllListed(files, entries[1..]) {
              forall i | 0 <= i < |entries|
                ensures Subscript(entries[i], "file_path").Success? && Subscript(entries[i], "file_path").value in files.listing
              {
                if i > 0 { assert entries[i] == entries[1..][i - 1]; }
              }
            }
            if AllListed(files, entries) {
              forall i | 0 <= i < |entries| - 1
                ensures Subscript(entries[1..][i], "file_path").Success? && Subscript(entries[1..][i], "file_path").value in files.listing
              {
                assert entries[1..][i] == entries[i + 1];
              }
            }
          }
        } else {
          ErrorUpdateRaises(db, faults, jobId, MissingFileMessage(path, manifestPath), now);
        }
    }
  }

  /**
   * The file checks ask about the entries' paths in order, stop right after the
   * first path that is not listed, and record that one path in the error update.
   */
  lemma {:induction false} ProbesStopAtFirstMissing(db: Db, faults: Faults, files: FilesApi, entries: seq<Json>, jobId: string, manifestPath: string, now: string)
    ensures var p := Probes(files, entries);
      && |p| <= |entries|
      && (forall i :: 0 <= i < |p| ==> Subscript(entries[i], "file_path") == Success(p[i]))
      && (forall i :: 0 <= i < |p| - 1 ==> p[i] in files.listing)
      && (p != [] && p[|p| - 1] !in files.listing ==>
            CheckFiles(db, faults, files, entries, jobId, manifestPath, now)
              == ErrorUpdate(db, faults, jobId, MissingFileMessage(p[|p| - 1], manifestPath), now))
      && (CheckFiles(db, faults, files, entries, jobId, manifestPath, now).out == Success(true) ==> |p| == |entries|)
    decreases |entries|
  {
    if entries != [] {
      match Subscript(entries[0], "file_path")
      case Failure(_) =>
      case Success(path) =>
        if path in files.listing {
          ProbesStopAtFirstMissing(db, faults, files, entries[1..], jobId, manifestPath, now);
          var p := Probes(files, entries);
          var q := Probes(files, entries[1..]);
          assert p == [path] + q;
          forall i | 0 <= i < |p|
            ensures Subscript(entries[i], "file_path") == Success(p[i])
          {
            if i > 0 { assert entries[i] == entries[1..][i - 1] && p[i] == q[i - 1]; }
          }
        }
    }
  }

  /**
   * Validation never writes to the store and never returns False; it returns True
   * exactly when the fetch, the parse and the check of every listed file succeed.
   */
  lemma ValidateOutcome(db: Db, faults: Faults, files: FilesApi, codec: JsonCodec, manifestSchema: Validator, mf: FileEntry, now: string)
    ensures var v := ValidateStep(db, faults, files, codec, manifestSchema, mf, now);
      && v.db == db
      && v.out != Success(false)
      && (v.out == Success(true) <==>
            ManifestEntries(files, codec, manifestSchema, mf).Some? &&
            AllListed(files, ManifestEntries(files, codec, manifestSchema, mf).value))
  {
    var jobId := JobIdFromManifestName(mf.name);
    if mf.path !in files.contents {
      ErrorUpdateRaises(db, faults, jobId, FetchFailedMessage(mf.path), now);
    } else {
      match ParseManifestBytes(files.contents[mf.path], codec, manifestSchema)
      case Failure(_) =>
        ErrorUpdateRaises(db, faults, jobId, ParseFailedMessage(mf.path), now);
      case Success(manifest) =>
        match Subscript(JObj(manifest), "files")
        case Failure(_) =>
        case Success(listed) =>
          match FileRecords(listed)
          case Failure(_) =>
          case Success(entries) =>
            CheckFilesOutcome(db, faults, files, entries, jobId, mf.path, now);
    }
  }

  /** A manifest that cannot be fetched ends validation in the error update of its job, which raises. */
  lemma FetchFailureRaises(db: Db, faults: Faults, files: FilesApi, codec: JsonCodec, manifestSchema: Validator, mf: FileEntry, now: string)
    requires mf.path !in files.contents
    ensures ValidateStep(db, faults, files, codec, manifestSchema, mf, now)
      == Step(db, Failure(ErrorUpdateRaise(db, faults, JobIdFromManifestName(mf.name))))
    ensures ValidateProbes(files, codec, manifestSchema, mf) == []
  {
    ErrorUpdateRaises(db, faults, JobIdFromManifestName(mf.name), FetchFailedMessage(mf.path), now);
  }

  /** A manifest that does not parse ends validation in the error update of its job, which raises. */
  lemma ParseFailureRaises(db: Db, faults: Faults, files: FilesApi, codec: JsonCodec, manifestSchema: Validator, mf: FileEntry, now: string)
    requires mf.path in files.contents && ParseManifestBytes(files.contents[mf.path], codec, manifestSchema).Failure?
    ensures ValidateStep(db, faults, files, codec, manifestSchema, mf, now)
      == Step(db, Failure(ErrorUpdateRaise(db, faults, JobIdFromManifestName(mf.name))))
    ensures ValidateProbes(files, codec, manifestSchema, mf) == []
  {
    ErrorUpdateRaises(db, faults, JobIdFromManifestName(mf.name), ParseFailedMessage(mf.path), now);
  }

  /** The error path of `validate_manifest`: a helper for the job, then its `update`. */
  method ReportError(metaDb: Json, metaCollection: Json, api: MetaApi, jobId: string, msg: string, now: string)
    returns (r: Result<bool, Raised>)
    requires api.Valid()
    modifies api
    ensures api.Valid()
    ensures Step(api.State(), r) == ErrorUpdate(old(api.State()), api.faults, jobId, msg, now)
  {
    var m := new MetadataHelper(api, metaDb, metaCollection, jobId);
    var u := m.Update(MetaErrorStatusKey, JObj(map["debug_data" := JStr(msg)]), now);
    if u.Failure? {
      return Failure(u.error);
    }
    return Success(false);
  }

  /**
   * `validate_manifest`: fetch the manifest, parse it, and check that each file it
   * lists exists, stopping at the first failure. `probed` holds the paths asked about.
   */
  method ValidateManifest(metaDb: Json, metaCollection: Json, api: MetaApi, files: FilesApi, codec: JsonCodec, manifestSchema: Validator,
                          mf: FileEntry, now: string)
    returns (r: Result<bool, Raised>, ghost probed: seq<Json>)
    requires api.Valid()
    modifies api
    ensures api.Valid()
    ensures Step(api.State(), r) == ValidateStep(old(api.State()), api.faults, files, codec, manifestSchema, mf, now)
    ensures probed == ValidateProbes(files, codec, manifestSchema, mf)
  {
    probed := [];
    var jobId := JobIdFromManifestName(mf.name);
    if mf.path !in files.contents {
      r := ReportError(metaDb, metaCollection, api, jobId, FetchFailedMessage(mf.path), now);
      return;
    }
    var manifest := ParseManifestBytes(files.contents[mf.path], codec, manifestSchema);
    if manifest.Failure? {
      r := ReportError(metaDb, metaCollection, api, jobId, ParseFailedMessage(mf.path), now);
      return;
    }
    var listed := Subscript(JObj(manifest.value), "files");
    if listed.Failure? {
      r := Failure(listed.error);
      return;
    }
    var records := FileRecords(listed.value);
    if records.Failure? {
      r := Failure(records.error);
      return;
    }
    r, probed := CheckListedFiles(metaDb, metaCollection, api, files, records.value, jobId, mf.path, now);
  }

  /** One turn of the file checks, at entry `i`. */
  lemma CheckFilesAt(db: Db, faults: Faults, files: FilesApi, entries: seq<Json>, i: nat, jobId: string, manifestPath: string, now: string)
    requires i < |entries|
    ensures Subscript(entries[i], "file_path").Failure? ==>
      CheckFiles(db, faults, files, entries[i..], jobId, manifestPath, now) == Step(db, Failure(Subscript(entries[i], "file_path").error))
    ensures Subscript(entries[i], "file_path").Success? ==>
      var path := Subscript(entries[i], "file_path").value;
      && Probes(files, entries[i..]) == [path] + (if path in files.listing then Probes(files, entries[i + 1..]) else [])
      && CheckFiles(db, faults, files, entries[i..], jobId, manifestPath, now)
           == if path in files.listing then CheckFiles(db, faults, files, entries[i + 1..], jobId, manifestPath, now)
              else ErrorUpdate(db, faults, jobId, MissingFileMessage(path, manifestPath), now)
  {
    assert entries[i..][0] == entries[i] && entries[i..][1..] == entries[i + 1..];
  }

  /** The loop of `validate_manifest`: check that each listed file exists, stopping at the first failure. */
  method CheckListedFiles(metaDb: Json, metaCollection: Json, api: MetaApi, files: FilesApi, entries: seq<Json>, jobId: string,
                          manifestPath: string, now: string)
    returns (r: Result<bool, Raised>, ghost probed: seq<Json>)
    requires api.Valid()
    modifies api
    ensures api.Valid()
    ensures Step(api.State(), r) == CheckFiles(old(api.State()), api.faults, files, entries, jobId, manifestPath, now)
    ensures probed == Probes(files, entries)
  {
    probed := [];
    ghost var db := api.State();
    var i := 0;
    while i < |entries|
      invariant 0 <= i <= |entries|
      invariant api.Valid() && api.State() == db
      invariant CheckFiles(db, api.faults, files, entries, jobId, manifestPath, now)
        == CheckFiles(db, api.faults, files, entries[i..], jobId, manifestPath, now)
      invariant Probes(files, entries) == probed + Probes(files, entries[i..])
    {
      CheckFilesAt(db, api.faults, files, entries, i, jobId, manifestPath, now);
      var path := Subscript(entries[i], "file_path");
      if path.Failure? {
        r := Failure(path.error);
        return;
      }
      AppendAssociates(probed, [path.value], Probes(files, entries[i + 1..]));
      probed := probed + [path.value];
      if path.value !in files.listing {
        r := ReportError(metaDb, metaCollection, api, jobId, MissingFileMessage(path.value, manifestPath), now);
        return;
      }
      i := i + 1;
    }
    assert entries[i..] == [];
    assert probed + [] == probed;
    r := Success(true);
  }

  // ---------------------------------------------------------------------------
  // Settings
  // ---------------------------------------------------------------------------

  /** The config file path: the environment's override when it is set. */
  function ConfigPath(env: Env): (p: string)
    ensures "TAPIS_PIPELINES_CONFIG_FILE_PATH" in env ==> p == env["TAPIS_PIPELINES_CONFIG_FILE_PATH"]
    ensures "TAPIS_PIPELINES_CONFIG_FILE_PATH" !in env ==> p == DefaultConfigPath
  {
    if "TAPIS_PIPELINES_CONFIG_FILE_PATH" in env then env["TAPIS_PIPELINES_CONFIG_FILE_PATH"] else DefaultConfigPath
  }

  /** `tapis_config[key]` where only a KeyError is turned into a PipelineConfigError with `msg`. */
  function Required(tc: Json, key: string, msg: string): (r: Result<Json, Raised>)
    ensures r.Success? <==> tc.JObj? && key in tc.fields
    ensures r.Success? ==> r.value == tc.fields[key]
    ensures tc.JObj? && key !in tc.fields ==> r == Failure(Pipelines(PipelinesError(PipelineConfigError, Some(msg), 400)))
    ensures !tc.JObj? ==> r.Failure? && r.error.TypeError?
  {
    match Subscript(tc, key)
    case Success(v) => Success(v)
    case Failure(e) => if e.KeyError? then Failure(Pipelines(NewError(PipelineConfigError, Some(msg)))) else Failure(e)
  }

  /** The places an access token may come from, most important first. */
  function TokenSources(tc: map<string, Json>, env: Env): seq<Option<Json>>
  {
    [ if "access_token" in tc then Some(tc["access_token"]) else None,
      if "TAPIS_PIPELINES_ACCESS_TOKEN" in env then Some(JStr(env["TAPIS_PIPELINES_ACCESS_TOKEN"])) else None,
      if "_abaco_access_token" in env then Some(JStr(env["_abaco_access_token"])) else None ]
  }

  /** The first source that is present, or None when there is none. */
  function FirstPresent(sources: seq<Option<Json>>): Json
  {
    if sources == [] then JNull
    else if sources[0].Some? then sources[0].value
    else FirstPresent(sources[1..])
  }

  /** The access token: the config's `access_token`, else the two environment variables in turn, else None. */
  function AccessToken(tc: map<string, Json>, env: Env): Json
  {
    if "access_token" in tc then tc["access_token"]
    else if "TAPIS_PIPELINES_ACCESS_TOKEN" in env then JStr(env["TAPIS_PIPELINES_ACCESS_TOKEN"])
    else if "_abaco_access_token" in env then JStr(env["_abaco_access_token"])
    else JNull
  }

  /** The token is the first source present, in the order config, TAPIS_PIPELINES_ACCESS_TOKEN, _abaco_access_token. */
  lemma AccessTokenPrecedence(tc: map<string, Json>, env: Env)
    ensures AccessToken(tc, env) == FirstPresent(TokenSources(tc, env))
  {
    var sources := TokenSources(tc, env);
    if "access_token" !in tc {
      assert FirstPresent(sources) == FirstPresent(sources[1..]);
      if "TAPIS_PIPELINES_ACCESS_TOKEN" !in env {
        assert FirstPresent(sources[1..]) == FirstPresent(sources[1..][1..]);
        if "_abaco_access_token" !in env {
          assert FirstPresent(sources[1..][1..]) == FirstPresent(sources[1..][1..][1..]);
          assert sources[1..][1..][1..] == [];
        }
      }
    }
  }

  const NoCredentials: Raised := Pipelines(PipelinesError(PipelineConfigError, Some("Could not find an Tapis access token or password. Exiting!"), 400))

  /** The password: None when the token is truthy; else the config's `password`, which is then required. */
  function Password(tc: map<string, Json>, token: Json): (r: Result<Json, Raised>)
    ensures Truthy(token) ==> r == Success(JNull)
    ensures !Truthy(token) ==> (r.Success? <==> "password" in tc)
    ensures !Truthy(token) && "password" in tc ==> r == Success(tc["password"])
    ensures r.Failure? ==> r.error == NoCredentials
  {
    if Truthy(token) then Success(JNull)
    else if "password" in tc then Success(tc["password"])
    else Failure(NoCredentials)
  }

  /**
   * A token present in the config wins even when it is empty: the environment's
   * tokens are then never looked at, and without a password the client fails.
   */
  lemma EmptyConfigTokenShadowsEnvironment(tc: map<string, Json>, env: Env)
    requires "access_token" in tc && !Truthy(tc["access_token"]) && "password" !in tc
    ensures Password(tc, AccessToken(tc, env)) == Failure(NoCredentials)
  {
  }

  /** `s[:5]`: at most the first five characters. */
  function Head5(s: string): (h: string)
    ensures |h| == if |s| <= 5 then |s| else 5
    ensures h == s[..|h|]
  {
    if |s| <= 5 then s else s[..5]
  }

  /** `s[-5:]`: at most the last five characters. */
  function Tail5(s: string): (t: string)
    ensures |t| == if |s| <= 5 then |s| else 5
    ensures t == s[|s| - |t|..]
  {
    if |s| <= 5 then s else s[|s| - 5..]
  }

  predicate EndsWith(s: string, suffix: string)
  {
    |suffix| <= |s| && s[|s| - |suffix|..] == suffix
  }

  const BannerIntro: string := "Using the following config to instantiate the Tapis client. \n"

  /**
   * The banner printed before the client is built. It shows no more than the first
   * and last five characters of a token, or the second character of a password;
   * slicing the token or indexing the password raises for values that do not allow it.
   */
  function CredentialBanner(baseUrl: Json, username: Json, token: Json, password: Json): (r: Result<string, Raised>)
    ensures Truthy(token) ==> (r.Success? <==> token.JStr? || token.JArr?)
    ensures !Truthy(token) ==> (r.Success? <==> (password.JStr? && |password.s| >= 2) || (password.JArr? && |password.items| >= 2))
    ensures Truthy(token) && token.JStr? ==> EndsWith(r.value, "access_token: " + Head5(token.s) + "..." + Tail5(token.s))
    ensures !Truthy(token) && password.JStr? && |password.s| >= 2 ==> EndsWith(r.value, "password: " + [password.s[1]] + "...")
  {
    var head := BannerIntro + "base_url: " + Str(baseUrl) + " \n" + "username: " + Str(username) + " \n ";
    if Truthy(token) then
      match token
      case JStr(s) => Success(head + ("access_token: " + Head5(s) + "..." + Tail5(s)))
      case JArr(_) => Success(head + "access_token: [...]...[...]")
      case JObj(_) => Failure(TypeError("unhashable type: 'slice'"))
      case JNum(_) => Failure(TypeError("'int' object is not subscriptable"))
      case JBool(_) => Failure(TypeError("'bool' object is not subscriptable"))
      case JNull => Failure(TypeError("'NoneType' object is not subscriptable"))
    else
      match password
      case JStr(s) =>
        if |s| >= 2 then Success(head + ("password: " + [s[1]] + "...")) else Failure(IndexError("string index out of range"))
      case JArr(items) =>
        if |items| >= 2 then Success(head + "password: " + Str(items[1]) + "...") else Failure(IndexError("list index out of range"))
      case JObj(_) => Failure(KeyError("1"))
      case JNull => Failure(TypeError("'NoneType' object is not subscriptable"))
      case JNum(_) => Failure(TypeError("'int' object is not subscriptable"))
      case JBool(_) => Failure(TypeError("'bool' object is not subscriptable"))
  }

  /** Lines 31-68: the required `base_url` and `username`, the token, the password and the banner. */
  function ResolveCredentials(tc: Json, env: Env): (r: Result<Credentials, Raised>)
    ensures r.Success? ==>
      && tc.JObj? && "base_url" in tc.fields && "username" in tc.fields
      && r.value.baseUrl == tc.fields["base_url"] && r.value.username == tc.fields["username"]
      && r.value.accessToken == FirstPresent(TokenSources(tc.fields, env))
      && (Truthy(r.value.accessToken) ==> r.value.password == JNull)
      && (!Truthy(r.value.accessToken) ==> "password" in tc.fields && r.value.password == tc.fields["password"])
    ensures tc.JObj? && "base_url" !in tc.fields ==>
      r == Failure(Pipelines(PipelinesError(PipelineConfigError, Some("tapis_config provided but tbase_url missing."), 400)))
    ensures tc.JObj? && "base_url" in tc.fields && "username" !in tc.fields ==>
      r == Failure(Pipelines(PipelinesError(PipelineConfigError, Some("tapis_config provided but username missing."), 400)))
    ensures tc.JObj? && "base_url" in tc.fields && "username" in tc.fields ==>
      r == (match Password(tc.fields, FirstPresent(TokenSources(tc.fields, env)))
            case Failure(e) => Failure(e)
            case Success(pw) =>
              match CredentialBanner(tc.fields["base_url"], tc.fields["username"], FirstPresent(TokenSources(tc.fields, env)), pw)
              case Failure(e) => Failure(e)
              case Success(_) => Success(Credentials(tc.fields["base_url"], tc.fields["username"], FirstPresent(TokenSources(tc.fields, env)), pw)))
  {
    var baseUrl :- Required(tc, "base_url", "tapis_config provided but tbase_url missing.");
    var username :- Required(tc, "username", "tapis_config provided but username missing.");
    var token := AccessToken(tc.fields, env);
    AccessTokenPrecedence(tc.fields, env);
    var password :- Password(tc.fields, token);
    var banner :- CredentialBanner(baseUrl, username, token, password);
    Success(Credentials(baseUrl, username, token, password))
  }

  /** The Meta db: `meta_db` from the config, "pipelines" when absent. */
  function MetaDb(tc: map<string, Json>): (db: Json)
    ensures "meta_db" in tc ==> db == tc["meta_db"]
    ensures "meta_db" !in tc ==> db == JStr("pipelines")
  {
    GetOr(tc, "meta_db", JStr("pipelines"))
  }

  /** The collection name used when none is configured: `{username}.{pipeline_name}`. */
  function DefaultCollection(username: Json, name: Json): string
  {
    Str(username) + "." + Str(name)
  }

  /** The Meta collection: `meta_collection` from the config, the default name when absent. */
  function MetaCollection(tc: map<string, Json>, username: Json, name: Json): (c: Json)
    ensures "meta_collection" in tc ==> c == tc["meta_collection"]
    ensures "meta_collection" !in tc ==> c == JStr(DefaultCollection(username, name))
  {
    GetOr(tc, "meta_collection", JStr(DefaultCollection(username, name)))
  }

  /** The text before the first '.' and the text after it. */
  function SplitAtFirstDot(s: string): (string, string)
  {
    if s == [] then ([], [])
    else if s[0] == '.' then ([], s[1..])
    else var r := SplitAtFirstDot(s[1..]); ([s[0]] + r.0, r.1)
  }

  /** A word without a dot, a dot, then anything: the split at the first dot gives back both parts. */
  lemma {:induction false} SplitAfterWord(u: string, n: string)
    requires '.' !in u
    ensures SplitAtFirstDot(u + "." + n) == (u, n)
    decreases |u|
  {
    var t := u + "." + n;
    if u == [] {
      assert t == "." + n;
    } else {
      assert t[0] == u[0];
      assert t[1..] == u[1..] + "." + n;
      SplitAfterWord(u[1..], n);
      assert [u[0]] + u[1..] == u;
    }
  }

  /**
   * The default collection name keeps both parts: for a user name without a dot,
   * the user and the pipeline name are read back by splitting at the first dot.
   */
  lemma DefaultCollectionSplits(username: string, name: string)
    requires '.' !in username
    ensures SplitAtFirstDot(DefaultCollection(JStr(username), JStr(name))) == (username, name)
  {
    SplitAfterWord(username, name);
  }

  /** The default collection names of two different users without dots differ. */
  lemma DefaultCollectionsDiffer(u1: string, u2: string, name: string)
    requires '.' !in u1 && '.' !in u2 && u1 != u2
    ensures DefaultCollection(JStr(u1), JStr(name)) != DefaultCollection(JStr(u2), JStr(name))
  {
    DefaultCollectionSplits(u1, name);
    DefaultCollectionSplits(u2, name);
  }

  predicate Has(j: Json, key: string)
  {
    j.JObj? && key in j.fields
  }

  /**
   * `parse_remote_outbox_config`: a `kind` of "tapis" gives a TapisSystemBox with the
   * configured system id and path; any other kind raises NotImplementedError.
   */
  function ParseRemoteOutboxConfig(config: map<string, Json>): (r: Result<Box, Raised>)
    ensures r.Success? <==>
      && "remote_outbox" in config && Has(config["remote_outbox"], "kind")
      && config["remote_outbox"].fields["kind"] == JStr("tapis")
      && Has(config["remote_outbox"], "box_definition")
      && Has(config["remote_outbox"].fields["box_definition"], "system_id")
      && Has(config["remote_outbox"].fields["box_definition"], "path")
    ensures r.Success? ==>
      var definition := config["remote_outbox"].fields["box_definition"].fields;
      r.value == Box("tapis", definition["system_id"], definition["path"])
    ensures "remote_outbox" !in config ==> r == Failure(AttributeError("remote_outbox"))
    ensures "remote_outbox" in config && Has(config["remote_outbox"], "kind") && config["remote_outbox"].fields["kind"] != JStr("tapis") ==>
      r == Failure(NotImplementedError(Str(config["remote_outbox"].fields["kind"])))
  {
    var outbox :- Attribute(config, "remote_outbox");
    var kind :- Subscript(outbox, "kind");
    if kind == JStr("tapis") then
      var definition :- Subscript(outbox, "box_definition");
      var systemId :- Subscript(definition, "system_id");
      var path :- Subscript(definition, "path");
      Success(Box("tapis", systemId, path))
    else
      Failure(NotImplementedError(Str(kind)))
  }

  /** `TapisPipelineClient.__init__`, without the network calls. */
  function ClientSettings(config: map<string, Json>, env: Env): (r: Result<Settings, Raised>)
    ensures "pipeline_name" !in config ==> r == Failure(AttributeError("pipeline_name"))
    ensures "pipeline_name" in config && "tapis_config" !in config ==> r == Failure(AttributeError("tapis_config"))
    ensures r.Success? ==>
      && "tapis_config" in config && config["tapis_config"].JObj?
      && r.value.name == config["pipeline_name"]
      && ResolveCredentials(config["tapis_config"], env) == Success(r.value.credentials)
      && r.value.metaDb == MetaDb(config["tapis_config"].fields)
      && r.value.metaCollection == MetaCollection(config["tapis_config"].fields, r.value.credentials.username, r.value.name)
      && r.value.outbox.kind == "tapis"
      && ParseRemoteOutboxConfig(config) == Success(r.value.outbox)
    ensures "pipeline_name" in config && "tapis_config" in config ==>
      r == (match ResolveCredentials(config["tapis_config"], env)
            case Failure(e) => Failure(e)
            case Success(c) =>
              match ParseRemoteOutboxConfig(config)
              case Failure(e) => Failure(e)
              case Success(o) =>
                Success(Settings(config["pipeline_name"], c, MetaDb(config["tapis_config"].fields),
                  MetaCollection(config["tapis_config"].fields, c.username, config["pipeline_name"]), o)))
  {
    var name :- Attribute(config, "pipeline_name");
    var tc :- Attribute(config, "tapis_config");
    var credentials :- ResolveCredentials(tc, env);
    var outbox :- ParseRemoteOutboxConfig(config);
    Success(Settings(name, credentials, MetaDb(tc.fields), MetaCollection(tc.fields, credentials.username, name), outbox))
  }

  // ---------------------------------------------------------------------------
  // main
  // ---------------------------------------------------------------------------

  /** The client `main` builds: the config file parsed, then the settings resolved. */
  function MainSettings(env: Env, fs: FileSystem, codec: JsonCodec, configSchema: Validator): Result<Settings, Raised>
  {
    var config :- ParsePipelineConfig(ConfigPath(env), fs, codec, configSchema);
    ClientSettings(config, env)
  }

  /**
   * `main`: build the client, then discover and claim new manifests. Discovery hands
   * back None, so the loop over it raises TypeError and nothing after it runs.
   */
  method RunClient(env: Env, fs: FileSystem, codec: JsonCodec, configSchema: Validator, api: MetaApi, files: FilesApi, now: string)
    returns (r: Result<(), Raised>)
    requires api.Valid()
    modifies api
    ensures api.Valid()
    ensures r.Failure?
    ensures MainSettings(env, fs, codec, configSchema).Failure? ==>
      r == Failure(MainSettings(env, fs, codec, configSchema).error) && api.State() == old(api.State())
    ensures MainSettings(env, fs, codec, configSchema).Success? ==>
      var d := Discovery(old(api.State()), api.faults, MainSettings(env, fs, codec, configSchema).value.outbox, files, now);
      && api.State() == d.db
      && r == Failure(if d.out.Failure? then d.out.error else TypeError(NoneNotIterable))
  {
    var parsed := ParsePipelineConfig(ConfigPath(env), fs, codec, configSchema);
    if parsed.Failure? {
      return Failure(parsed.error);
    }
    var config := new Config(parsed.value);
    var settings := ClientSettings(config.data, env);
    assert settings == MainSettings(env, fs, codec, configSchema);
    if settings.Failure? {
      return Failure(settings.error);
    }
    var newManifestFiles := CheckForNewManifestFiles(settings.value, api, files, now);
    if newManifestFiles.Failure? {
      return Failure(newManifestFiles.error);
    }
    match newManifestFiles.value
    case None =>
      return Failure(TypeError(NoneNotIterable));
  }
}
