/**
 * core/meta.py: MetadataHelper, the per-job view of the Tapis Meta store.
 * The store is an in-memory fake of one Meta collection (MetaApi); the clock
 * is an input (`now`, the already formatted timestamp).
 */
module Meta {
  import opened Wrappers
  import opened Errors
  import opened Json
  import opened Seqs

  /** MetadataHelper.STATUS: status keys and the status text stored for them. */
  const STATUS: map<string, string> := map[
    "INIT" := "METADATA_CREATED",
    "transfer_to_local" := "Started data transfer to LOCAL",
    "transfer_to_local_done" := "Finished data transfer to LOCAL",
    "unpack_data_on_local" := "Started data unpack on LOCAL",
    "unpack_data_on_local_done" := "Finished data unpack on LOCAL",
    "JOB_SUBMITTED_TO_TAPIS" := "JOB_SUBMITTED_TO_TAPIS",
    "processing_data" := "Started processing data",
    "processing_data_done" := "Finished processing data",
    "pack_output" := "Started packaging of processed data on LOCAL",
    "pack_output_done" := "Finished packaging of processed data on LOCAL",
    "transfer_to_remote" := "Start data transfer to REMOTE",
    "transfer_to_remote_done" := "Finished data transfer REMOTE",
    "pipeline_done" := "Finished pipeline",
    "FINISHED" := "FINISHED",
    "FAILED" := "FAILED",
    "ERROR" := "ERROR",
    "other" := "Other",
    "test" := "Test"
  ]

  /** One entry of a record's history: the status it had before an update. */
  datatype Snapshot = Snapshot(status: string, updateTime: string, additionalInfo: Json)

  /** The request body `get_tapis_meta_obj` builds; `create_time` is present only when asked for. */
  datatype MetaBody = MetaBody(
    name: string, status: string, lastUpdateTime: string, additionalInfo: Json,
    history: seq<Snapshot>, createTime: Option<string>)

  /** A stored document: its `_id` and its fields. A history stored as null is None. */
  datatype Record = Record(
    oid: nat, name: string, status: string, lastUpdateTime: string, additionalInfo: Json,
    history: Option<seq<Snapshot>>, createTime: Option<string>)

  /** The documents of the collection, in store order, and the next `_id` the store hands out. */
  datatype Db = Db(docs: seq<Record>, nextOid: nat)

  /** The job names for which the fake's listDocuments, resp. createDocument/modifyDocument, raise. */
  datatype Faults = Faults(readFails: set<string>, writeFails: set<string>)

  /** The new store and what an operation returned or raised. */
  datatype Step<T> = Step(db: Db, out: T)

  /** Every `_id` is distinct and below the next one to be handed out. */
  predicate WellFormed(db: Db)
  {
    && (forall i :: 0 <= i < |db.docs| ==> db.docs[i].oid < db.nextOid)
    && (forall i, j :: 0 <= i < j < |db.docs| ==> db.docs[i].oid != db.docs[j].oid)
  }

  /** `get_tapis_meta_obj`: a body for `jobName` with status `STATUS[statusKey]`, or the KeyError of an unknown key. */
  function MetaObj(jobName: string, statusKey: string, history: seq<Snapshot>, info: Json, setCreateTime: bool, now: string)
    : (r: Result<MetaBody, Raised>)
    ensures r.Success? <==> statusKey in STATUS
    ensures statusKey !in STATUS <==> r == Failure(KeyError(statusKey))
    ensures r.Success? ==>
      && r.value.name == jobName && r.value.status == STATUS[statusKey]
      && r.value.lastUpdateTime == now && r.value.additionalInfo == info && r.value.history == history
      && r.value.createTime == (if setCreateTime then Some(now) else None)
  {
    if statusKey in STATUS then
      Success(MetaBody(jobName, STATUS[statusKey], now, info, history, if setCreateTime then Some(now) else None))
    else
      Failure(KeyError(statusKey))
  }

  /** `get_new_tapis_meta_obj`: status METADATA_CREATED, empty history, info "", created when last updated. */
  function NewMetaObj(jobName: string, now: string): (b: MetaBody)
    ensures b.name == jobName && b.status == "METADATA_CREATED" && b.history == []
    ensures b.additionalInfo == JStr("") && b.lastUpdateTime == now && b.createTime == Some(b.lastUpdateTime)
  {
    MetaObj(jobName, "INIT", [], JStr(""), true, now).value
  }

  /** The index of the first document named `name`. */
  function FirstNamed(docs: seq<Record>, name: string): (r: Option<nat>)
    ensures r.Some? ==> r.value < |docs| && docs[r.value].name == name
    ensures r.Some? ==> forall j :: 0 <= j < r.value ==> docs[j].name != name
    ensures r.None? ==> forall j :: 0 <= j < |docs| ==> docs[j].name != name
  {
    if docs == [] then None
    else if docs[0].name == name then Some(0)
    else match FirstNamed(docs[1..], name)
      case None => None
      case Some(i) => Some(i + 1)
  }

  /** The first document named `name`, if any. */
  function Lookup(db: Db, name: string): (r: Option<Record>)
    ensures r.Some? ==> r.value in db.docs && r.value.name == name
    ensures r.None? <==> forall j :: 0 <= j < |db.docs| ==> db.docs[j].name != name
  {
    match FirstNamed(db.docs, name)
    case None => None
    case Some(i) => Some(db.docs[i])
  }

  /** The documents named `name`, in store order: what listDocuments with that filter returns. */
  function Matching(docs: seq<Record>, name: string): seq<Record>
  {
    if docs == [] then []
    else (if docs[0].name == name then [docs[0]] else []) + Matching(docs[1..], name)
  }

  /** The head of the filtered listing is the first document with that name. */
  lemma {:induction false} MatchingHead(docs: seq<Record>, name: string)
    ensures Matching(docs, name) == [] <==> FirstNamed(docs, name).None?
    ensures FirstNamed(docs, name).Some? ==> Matching(docs, name)[0] == docs[FirstNamed(docs, name).value]
  {
    if docs != [] {
      MatchingHead(docs[1..], name);
    }
  }

  /** What `get()` returns: nothing when the listing call raises, else the first document with the name. */
  function Fetch(db: Db, faults: Faults, name: string): Option<Record>
  {
    if name in faults.readFails then None else Lookup(db, name)
  }

  /** createDocument: the body is stored as a new document under the next `_id`. */
  function Insert(db: Db, body: MetaBody): Db
  {
    Db(db.docs + [Record(db.nextOid, body.name, body.status, body.lastUpdateTime, body.additionalInfo,
                         Some(body.history), body.createTime)],
       db.nextOid + 1)
  }

  /** modifyDocument patches the fields the body carries; `_id` and an absent `create_time` are kept. */
  function Merge(rec: Record, body: MetaBody): Record
  {
    Record(rec.oid, body.name, body.status, body.lastUpdateTime, body.additionalInfo, Some(body.history),
           if body.createTime.Some? then body.createTime else rec.createTime)
  }

  function Patch(db: Db, oid: nat, body: MetaBody): Db
  {
    Db(seq(|db.docs|, i requires 0 <= i < |db.docs| => if db.docs[i].oid == oid then Merge(db.docs[i], body) else db.docs[i]),
       db.nextOid)
  }

  /** The history `update` appends to: a stored null or empty history counts as []. */
  function PriorHistory(rec: Record): seq<Snapshot>
  {
    if rec.history.Some? then rec.history.value else []
  }

  /** What `create()` does to the store and returns. */
  function CreateStep(db: Db, faults: Faults, name: string, now: string): Step<Result<bool, Raised>>
  {
    if Fetch(db, faults, name).Some? then Step(db, Success(false))
    else if name in faults.writeFails then Step(db, Failure(ForeignError("createDocument failed")))
    else Step(Insert(db, NewMetaObj(name, now)), Success(true))
  }

  /** What `update(statusKey, info)` does to the store and returns. */
  function UpdateStep(db: Db, faults: Faults, name: string, statusKey: string, info: Json, now: string): Step<Result<(), Raised>>
  {
    match Fetch(db, faults, name)
    case None => Step(db, Failure(TypeError("'NoneType' object is not subscriptable")))
    case Some(rec) =>
      var prev := Snapshot(rec.status, rec.lastUpdateTime, rec.additionalInfo);
      match MetaObj(name, statusKey, PriorHistory(rec) + [prev], info, false, now)
      case Failure(e) => Step(db, Failure(e))
      case Success(body) =>
        if name in faults.writeFails then Step(db, Success(())) else Step(Patch(db, rec.oid, body), Success(()))
  }

  /** In-memory fake of one Tapis Meta collection. */
  class MetaApi {
    var docs: seq<Record>
    var nextOid: nat
    const faults: Faults

    constructor (faults: Faults)
      ensures docs == [] && nextOid == 0 && this.faults == faults
    {
      docs, nextOid := [], 0;
      this.faults := faults;
    }

    function State(): Db
      reads this
    {
      Db(docs, nextOid)
    }

    ghost predicate Valid()
      reads this
    {
      WellFormed(State())
    }

    /** listDocuments(filter={'name': name}): the matching documents, or None when the call raises. */
    function ListDocuments(name: string): (r: Option<seq<Record>>)
      reads this
      ensures r.None? <==> name in faults.readFails
      ensures r.Some? ==> r.value == Matching(docs, name)
    {
      if name in faults.readFails then None else Some(Matching(docs, name))
    }

    /** createDocument: stores the body as a new document unless the call raises (`ok` false). */
    method CreateDocument(body: MetaBody) returns (ok: bool)
      requires Valid()
      modifies this
      ensures Valid()
      ensures ok == (body.name !in faults.writeFails)
      ensures State() == if ok then Insert(old(State()), body) else old(State())
    {
      ok := body.name !in faults.writeFails;
      if ok {
        docs := docs + [Record(nextOid, body.name, body.status, body.lastUpdateTime, body.additionalInfo,
                               Some(body.history), body.createTime)];
        nextOid := nextOid + 1;
      }
    }

    /** modifyDocument: patches the document with `_id` `oid` unless the call raises (`ok` false). */
    method ModifyDocument(oid: nat, body: MetaBody) returns (ok: bool)
      requires Valid()
      modifies this
      ensures Valid()
      ensures ok == (body.name !in faults.writeFails)
      ensures State() == if ok then Patch(old(State()), oid, body) else old(State())
    {
      ok := body.name !in faults.writeFails;
      if ok {
        docs := Patch(State(), oid, body).docs;
      }
    }
  }

  /** MetadataHelper: reads and writes the metadata record of one job in one collection. */
  class MetadataHelper {
    const api: MetaApi
    const db: Json
    const collection: Json
    const jobName: string

    constructor (api: MetaApi, db: Json, collection: Json, jobName: string)
      ensures this.api == api && this.db == db && this.collection == collection && this.jobName == jobName
    {
      this.api := api;
      this.db := db;
      this.collection := collection;
      this.jobName := jobName;
    }

    /** `get()`: the first document named after the job; None when there is none or the call fails. */
    method Get() returns (r: Option<Record>)
      ensures r == Fetch(api.State(), api.faults, jobName)
      ensures r.Some? ==> r.value in api.docs && r.value.name == jobName
      ensures r.None? <==> jobName in api.faults.readFails || forall j :: 0 <= j < |api.docs| ==> api.docs[j].name != jobName
    {
      var listed := api.ListDocuments(jobName);
      MatchingHead(api.docs, jobName);
      if listed.None? || listed.value == [] {
        r := None;
      } else {
        r := Some(listed.value[0]);
      }
    }

    /** `create()`: claims the job by creating its record, unless `get()` finds one. */
    method Create(now: string) returns (r: Result<bool, Raised>)
      requires api.Valid()
      modifies api
      ensures api.Valid()
      ensures Step(api.State(), r) == CreateStep(old(api.State()), api.faults, jobName, now)
    {
      var existing := Get();
      if existing.Some? {
        return Success(false);
      }
      var ok := api.CreateDocument(NewMetaObj(jobName, now));
      if !ok {
        return Failure(ForeignError("createDocument failed"));
      }
      return Success(true);
    }

    /**
     * `update(statusKey, info)`: pushes a snapshot of the current status onto the
     * history and writes the new status; a failing write is swallowed.
     */
    method Update(statusKey: string, info: Json, now: string) returns (r: Result<(), Raised>)
      requires api.Valid()
      modifies api
      ensures api.Valid()
      ensures Step(api.State(), r) == UpdateStep(old(api.State()), api.faults, jobName, statusKey, info, now)
    {
      var metadata := Get();
      if metadata.None? {
        return Failure(TypeError("'NoneType' object is not subscriptable"));
      }
      var rec := metadata.value;
      var prevStatus := Snapshot(rec.status, rec.lastUpdateTime, rec.additionalInfo);
      var prevHistory := PriorHistory(rec);
      prevHistory := prevHistory + [prevStatus];
      var body := MetaObj(jobName, statusKey, prevHistory, info, false, now);
      if body.Failure? {
        return Failure(body.error);
      }
      var _ := api.ModifyDocument(rec.oid, body.value);
      r := Success(());
    }
  }

  // ---------------------------------------------------------------------------
  // Properties of the record store
  // ---------------------------------------------------------------------------

  /** The document a fresh claim stores. */
  predicate IsInitialRecord(d: Record, name: string, now: string)
  {
    && d.name == name && d.status == "METADATA_CREATED" && d.history == Some([])
    && d.additionalInfo == JStr("") && d.lastUpdateTime == now && d.createTime == Some(now)
  }

  /** Looking a name up after one more document is appended. */
  lemma {:induction false} FirstNamedAppend(docs: seq<Record>, x: Record, name: string)
    ensures FirstNamed(docs + [x], name) ==
      if FirstNamed(docs, name).Some? then FirstNamed(docs, name)
      else if x.name == name then Some(|docs|) else None
  {
    if docs != [] {
      assert (docs + [x])[1..] == docs[1..] + [x];
      FirstNamedAppend(docs[1..], x, name);
    }
  }

  /** Two document lists with the same names at the same places have the same first match. */
  lemma {:induction false} FirstNamedSameNames(a: seq<Record>, b: seq<Record>, name: string)
    requires |a| == |b| && forall i :: 0 <= i < |a| ==> a[i].name == b[i].name
    ensures FirstNamed(a, name) == FirstNamed(b, name)
  {
    if a != [] {
      FirstNamedSameNames(a[1..], b[1..], name);
    }
  }

  /** Appending a document named otherwise does not change what a name looks up to. */
  lemma InsertKeepsOtherLookups(db: Db, body: MetaBody, name: string)
    ensures Lookup(Insert(db, body), name) == if Lookup(db, name).Some? || body.name != name then Lookup(db, name)
      else Some(Insert(db, body).docs[|db.docs|])
  {
    FirstNamedAppend(db.docs, Insert(db, body).docs[|db.docs|], name);
  }

  /** When `get()` finds a record, `create()` returns False and writes nothing. */
  lemma CreateWhenRecorded(db: Db, faults: Faults, name: string, now: string)
    requires Fetch(db, faults, name).Some?
    ensures CreateStep(db, faults, name, now) == Step(db, Success(false))
  {
  }

  /**
   * When no record exists, `create()` appends exactly one document, the initial
   * record of the job, returns True, and the job now looks up to that document.
   */
  lemma CreateWhenAbsent(db: Db, faults: Faults, name: string, now: string)
    requires WellFormed(db)
    requires Lookup(db, name).None? && name !in faults.readFails && name !in faults.writeFails
    ensures var s := CreateStep(db, faults, name, now);
      && s.out == Success(true)
      && WellFormed(s.db)
      && |s.db.docs| == |db.docs| + 1 && s.db.docs[..|db.docs|] == db.docs
      && IsInitialRecord(s.db.docs[|db.docs|], name, now)
      && Lookup(s.db, name) == Some(s.db.docs[|db.docs|])
  {
    var s := CreateStep(db, faults, name, now);
    assert s.db == Insert(db, NewMetaObj(name, now));
    InsertKeepsOtherLookups(db, NewMetaObj(name, now), name);
    assert s.db.docs[..|db.docs|] == db.docs;
  }

  /** A claim, successful or not, never changes what any other job looks up to. */
  lemma CreateKeepsOtherJobs(db: Db, faults: Faults, name: string, now: string, other: string)
    requires other != name
    ensures Lookup(CreateStep(db, faults, name, now).db, other) == Lookup(db, other)
  {
    InsertKeepsOtherLookups(db, NewMetaObj(name, now), other);
  }

  /** A claim keeps the store well formed. */
  lemma CreateKeepsWellFormed(db: Db, faults: Faults, name: string, now: string)
    requires WellFormed(db)
    ensures WellFormed(CreateStep(db, faults, name, now).db)
  {
  }

  /** The updated record after a successful `update`. */
  predicate IsUpdatedRecord(after: Record, before: Record, statusKey: string, info: Json, now: string)
    requires statusKey in STATUS
  {
    && after.oid == before.oid && after.name == before.name
    && after.status == STATUS[statusKey] && after.additionalInfo == info && after.lastUpdateTime == now
    && after.createTime == before.createTime
    && after.history == Some(PriorHistory(before) + [Snapshot(before.status, before.lastUpdateTime, before.additionalInfo)])
  }

  /**
   * `update` with a known key on a found record appends exactly one snapshot of
   * the previous status to the history, sets the new status and info, keeps the
   * create time, and leaves every other document as it was.
   */
  lemma UpdateAppendsSnapshot(db: Db, faults: Faults, name: string, statusKey: string, info: Json, now: string)
    requires WellFormed(db)
    requires Fetch(db, faults, name).Some? && statusKey in STATUS && name !in faults.writeFails
    ensures var s := UpdateStep(db, faults, name, statusKey, info, now);
      && s.out == Success(())
      && WellFormed(s.db)
      && |s.db.docs| == |db.docs|
      && Lookup(s.db, name).Some?
      && IsUpdatedRecord(Lookup(s.db, name).value, Lookup(db, name).value, statusKey, info, now)
      && forall j :: 0 <= j < |db.docs| && db.docs[j].oid != Lookup(db, name).value.oid ==> s.db.docs[j] == db.docs[j]
  {
    var rec := Lookup(db, name).value;
    var i := FirstNamed(db.docs, name).value;
    var s := UpdateStep(db, faults, name, statusKey, info, now);
    var body := MetaObj(name, statusKey, PriorHistory(rec) + [Snapshot(rec.status, rec.lastUpdateTime, rec.additionalInfo)], info, false, now).value;
    assert s.db == Patch(db, rec.oid, body);
    forall j | 0 <= j < |db.docs|
      ensures s.db.docs[j].name == db.docs[j].name
      ensures j == i ==> s.db.docs[j] == Merge(rec, body)
      ensures j != i ==> s.db.docs[j] == db.docs[j]
    {
    }
    FirstNamedSameNames(s.db.docs, db.docs, name);
  }

  /** An unknown status key raises KeyError (or the TypeError of a missing record) before anything is written. */
  lemma UnknownKeyWritesNothing(db: Db, faults: Faults, name: string, statusKey: string, info: Json, now: string)
    requires statusKey !in STATUS
    ensures var s := UpdateStep(db, faults, name, statusKey, info, now);
      && s.db == db
      && s.out == if Fetch(db, faults, name).Some? then Failure(KeyError(statusKey))
                  else Failure(TypeError("'NoneType' object is not subscriptable"))
  {
  }

  /** A write that raises is swallowed: `update` returns normally and the store is unchanged. */
  lemma FailedWriteIsSwallowed(db: Db, faults: Faults, name: string, statusKey: string, info: Json, now: string)
    requires Fetch(db, faults, name).Some? && statusKey in STATUS && name in faults.writeFails
    ensures UpdateStep(db, faults, name, statusKey, info, now) == Step(db, Success(()))
  {
  }

  /** The status keys: upper-case "ERROR" is one of them, lower-case "error" is not. */
  lemma ErrorKeys()
    ensures "ERROR" in STATUS && STATUS["ERROR"] == "ERROR"
    ensures "error" !in STATUS
  {
  }

  /** One call of `update`: its status key, its info, and the clock's reading when it runs. */
  datatype UpdateCall = UpdateCall(statusKey: string, info: Json, time: string)

  /** A sequence of `update` calls for one job, in order. */
  function UpdateAll(db: Db, faults: Faults, name: string, calls: seq<UpdateCall>): Db
    decreases |calls|
  {
    if calls == [] then db
    else UpdateAll(UpdateStep(db, faults, name, calls[0].statusKey, calls[0].info, calls[0].time).db, faults, name, calls[1..])
  }

  /**
   * After N updates with known keys the history holds N more snapshots, the old
   * history is an unchanged prefix of it, the status, info and time are the last
   * call's, and the create time and `_id` are those of the record before.
   */
  lemma {:induction false} HistoryGrowsByOnePerUpdate(db: Db, faults: Faults, name: string, calls: seq<UpdateCall>)
    requires WellFormed(db)
    requires Fetch(db, faults, name).Some? && name !in faults.writeFails
    requires forall k :: 0 <= k < |calls| ==> calls[k].statusKey in STATUS
    ensures var after := UpdateAll(db, faults, name, calls);
      && WellFormed(after)
      && Fetch(after, faults, name).Some?
      && var was, now' := Lookup(db, name).value, Lookup(after, name).value;
      && |PriorHistory(now')| == |PriorHistory(was)| + |calls|
      && PriorHistory(now')[..|PriorHistory(was)|] == PriorHistory(was)
      && now'.createTime == was.createTime && now'.oid == was.oid
      && (calls != [] ==>
            var last := calls[|calls| - 1];
            now'.status == STATUS[last.statusKey] && now'.additionalInfo == last.info && now'.lastUpdateTime == last.time)
    decreases |calls|
  {
    if calls != [] {
      var c := calls[0];
      var s := UpdateStep(db, faults, name, c.statusKey, c.info, c.time);
      UpdateAppendsSnapshot(db, faults, name, c.statusKey, c.info, c.time);
      HistoryGrowsByOnePerUpdate(s.db, faults, name, calls[1..]);
      var was, mid := Lookup(db, name).value, Lookup(s.db, name).value;
      var fin := Lookup(UpdateAll(db, faults, name, calls), name).value;
      assert PriorHistory(mid) == PriorHistory(was) + [Snapshot(was.status, was.lastUpdateTime, was.additionalInfo)];
      assert PriorHistory(fin)[..|PriorHistory(was)|] == PriorHistory(mid)[..|PriorHistory(was)|];
    }
  }

  /** The snapshot `update` appends for a record: its status, time and info before the call. */
  function SnapshotOf(rec: Record): Snapshot
  {
    Snapshot(rec.status, rec.lastUpdateTime, rec.additionalInfo)
  }

  /**
   * The snapshots N updates append to a record `was`: first `was` itself, then the
   * status, time and info each call set, for every call but the last.
   */
  function Appended(was: Record, calls: seq<UpdateCall>): (r: seq<Snapshot>)
    requires forall k :: 0 <= k < |calls| ==> calls[k].statusKey in STATUS
    ensures |r| == |calls|
    ensures calls != [] ==> r[0] == SnapshotOf(was)
    ensures forall j :: 1 <= j < |calls| ==> r[j] == Snapshot(STATUS[calls[j - 1].statusKey], calls[j - 1].time, calls[j - 1].info)
  {
    if calls == [] then []
    else [SnapshotOf(was)] + seq(|calls| - 1, j requires 0 <= j < |calls| - 1 => Snapshot(STATUS[calls[j].statusKey], calls[j].time, calls[j].info))
  }

  /** The snapshots of N calls: `was`, then those of the remaining calls from the record the first call left. */
  lemma AppendedStep(was: Record, mid: Record, calls: seq<UpdateCall>)
    requires calls != [] && forall k :: 0 <= k < |calls| ==> calls[k].statusKey in STATUS
    requires mid.status == STATUS[calls[0].statusKey] && mid.lastUpdateTime == calls[0].time && mid.additionalInfo == calls[0].info
    ensures [SnapshotOf(was)] + Appended(mid, calls[1..]) == Appended(was, calls)
  {
    var a, b := [SnapshotOf(was)] + Appended(mid, calls[1..]), Appended(was, calls);
    assert |a| == |b|;
    forall j | 0 <= j < |a|
      ensures a[j] == b[j]
    {
      if j > 1 {
        assert calls[1..][j - 2] == calls[j - 1];
      }
    }
  }

  /** N updates with known keys extend a record's history by exactly the snapshots `Appended` lists. */
  lemma {:induction false} HistoryRecordsEachCall(db: Db, faults: Faults, name: string, calls: seq<UpdateCall>)
    requires WellFormed(db)
    requires Fetch(db, faults, name).Some? && name !in faults.writeFails
    requires forall k :: 0 <= k < |calls| ==> calls[k].statusKey in STATUS
    ensures var after := UpdateAll(db, faults, name, calls);
      && Fetch(after, faults, name).Some?
      && PriorHistory(Lookup(after, name).value) == PriorHistory(Lookup(db, name).value) + Appended(Lookup(db, name).value, calls)
    decreases |calls|
  {
    if calls == [] {
      assert PriorHistory(Lookup(db, name).value) + [] == PriorHistory(Lookup(db, name).value);
    } else {
      var c, rest := calls[0], calls[1..];
      var s := UpdateStep(db, faults, name, c.statusKey, c.info, c.time);
      UpdateAppendsSnapshot(db, faults, name, c.statusKey, c.info, c.time);
      HistoryRecordsEachCall(s.db, faults, name, rest);
      var was, mid := Lookup(db, name).value, Lookup(s.db, name).value;
      assert PriorHistory(mid) == PriorHistory(was) + [SnapshotOf(was)];
      AppendedStep(was, mid, calls);
      AppendAssociates(PriorHistory(was), [SnapshotOf(was)], Appended(mid, rest));
    }
  }

  /**
   * The first update after a claim leaves exactly the METADATA_CREATED snapshot,
   * stamped with the claim's time, in the history; the record then carries the
   * update's time and still the claim's create time.
   */
  lemma FirstUpdateAfterClaim(db: Db, faults: Faults, name: string, claimTime: string, statusKey: string, info: Json, updateTime: string)
    requires WellFormed(db)
    requires Lookup(db, name).None? && name !in faults.readFails && name !in faults.writeFails
    requires statusKey in STATUS
    ensures var first := UpdateStep(CreateStep(db, faults, name, claimTime).db, faults, name, statusKey, info, updateTime).db;
      && WellFormed(first)
      && Fetch(first, faults, name).Some?
      && PriorHistory(Lookup(first, name).value) == [Snapshot("METADATA_CREATED", claimTime, JStr(""))]
      && Lookup(first, name).value.lastUpdateTime == updateTime
      && Lookup(first, name).value.createTime == Some(claimTime)
  {
    var created := CreateStep(db, faults, name, claimTime).db;
    CreateWhenAbsent(db, faults, name, claimTime);
    UpdateAppendsSnapshot(created, faults, name, statusKey, info, updateTime);
  }

  /**
   * A record created by a claim and then moved through N updates has N history
   * entries: the METADATA_CREATED status at the claim's time, then the status,
   * time and info of each update but the last.
   */
  lemma ClaimThenUpdates(db: Db, faults: Faults, name: string, claimTime: string, calls: seq<UpdateCall>)
    requires WellFormed(db)
    requires Lookup(db, name).None? && name !in faults.readFails && name !in faults.writeFails
    requires forall k :: 0 <= k < |calls| ==> calls[k].statusKey in STATUS
    ensures var after := UpdateAll(CreateStep(db, faults, name, claimTime).db, faults, name, calls);
      && Lookup(after, name).Some?
      && var h := PriorHistory(Lookup(after, name).value);
      && |h| == |calls|
      && (calls != [] ==> h[0] == Snapshot("METADATA_CREATED", claimTime, JStr("")))
      && forall j :: 1 <= j < |calls| ==> h[j] == Snapshot(STATUS[calls[j - 1].statusKey], calls[j - 1].time, calls[j - 1].info)
  {
    var created := CreateStep(db, faults, name, claimTime).db;
    CreateWhenAbsent(db, faults, name, claimTime);
    HistoryRecordsEachCall(created, faults, name, calls);
    var initial := Lookup(created, name).value;
    assert PriorHistory(initial) + Appended(initial, calls) == Appended(initial, calls);
  }
}
