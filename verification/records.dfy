/** File records, the scan job that travels from the upload route to the
    scanner, and the record store (the document collection, seen as a map from
    id to record). */
module Records {
  import opened Wrappers
  import opened IsoTime

  /** Record ids are handed out by the store; the model numbers them in creation order. */
  type FileId = nat

  datatype Status = Pending | Scanned

  /** The scan outcome; `Error` is written by the scanner's failure path even
      though the collection's schema does not list it. */
  datatype ScanResult = Clean | Infected | Error

  datatype FileRecord = FileRecord(
    id: FileId,
    filename: string,
    path: string,
    status: Status,
    uploadedAt: Instant,
    scannedAt: Option<Instant>,
    result: Option<ScanResult>)

  /** The record lifecycle: pending exactly while there is neither a result nor a scan time. */
  predicate Lifecycle(r: FileRecord)
  {
    && (r.status == Pending <==> r.result == None)
    && (r.result == None <==> r.scannedAt == None)
  }

  /** What the upload route hands to the queue and the scanner reads. */
  datatype ScanJob = ScanJob(fileId: FileId, fileUrl: string, filename: string)

  /** The update the scanner sends: status scanned, a result and a scan time. */
  datatype ScanPatch = ScanPatch(result: ScanResult, scannedAt: Instant)

  function Patched(r: FileRecord, p: ScanPatch): FileRecord
  {
    r.(status := Scanned, result := Some(p.result), scannedAt := Some(p.scannedAt))
  }

  /** `findByIdAndUpdate`: the record with that id takes the patch; an unknown id changes nothing. */
  function UpdateById(records: map<FileId, FileRecord>, id: FileId, p: ScanPatch): map<FileId, FileRecord>
  {
    if id in records then records[id := Patched(records[id], p)] else records
  }

  /** Several updates of one id, applied in order. */
  function UpdateAll(records: map<FileId, FileRecord>, id: FileId, ps: seq<ScanPatch>): map<FileId, FileRecord>
    decreases |ps|
  {
    if ps == [] then records else UpdateAll(UpdateById(records, id, ps[0]), id, ps[1..])
  }

  /** Applying one more update after a sequence of them. */
  lemma {:induction false} UpdateAllThenOne(records: map<FileId, FileRecord>, id: FileId, ps: seq<ScanPatch>, p: ScanPatch)
    ensures UpdateAll(records, id, ps + [p]) == UpdateById(UpdateAll(records, id, ps), id, p)
    decreases |ps|
  {
    if ps == [] {
      assert ([] + [p])[1..] == [];
    } else {
      assert (ps + [p])[1..] == ps[1..] + [p];
      UpdateAllThenOne(UpdateById(records, id, ps[0]), id, ps[1..], p);
    }
  }

  /** Every record sits under its own id and follows the lifecycle. */
  predicate WellFormedStore(records: map<FileId, FileRecord>)
  {
    forall id :: id in records ==> records[id].id == id && Lifecycle(records[id])
  }

  /** A sequence of updates of one id keeps the store well formed, keeps its set
      of ids, never touches another record, and leaves the updated record
      scanned with the last patch's result and time. */
  lemma {:induction false} UpdateAllEffect(records: map<FileId, FileRecord>, id: FileId, ps: seq<ScanPatch>)
    requires WellFormedStore(records)
    ensures var after := UpdateAll(records, id, ps);
      && WellFormedStore(after)
      && after.Keys == records.Keys
      && (forall other :: other in records && other != id ==> after[other] == records[other])
      && (id in records && ps != [] ==>
            after[id] == Patched(records[id], ps[|ps| - 1]))
      && (id in records && ps == [] ==> after[id] == records[id])
    decreases |ps|
  {
    if ps != [] {
      var next := UpdateById(records, id, ps[0]);
      UpdateAllEffect(next, id, ps[1..]);
      if id in records && |ps| > 1 {
        assert ps[1..][|ps[1..]| - 1] == ps[|ps| - 1];
      }
    }
  }

  /** The store of file records. */
  class FileStore {
    var records: map<FileId, FileRecord>
    var nextId: FileId

    ghost predicate Valid()
      reads this
    {
      && WellFormedStore(records)
      && (forall id :: id in records ==> id < nextId)
    }

    constructor ()
      ensures Valid() && records == map[]
    {
      records := map[];
      nextId := 0;
    }

    /** `create` with status pending and no result or scan time (also the
        collection's defaults): inserts the record under a fresh id and returns
        it as stored. */
    method Create(filename: string, path: string, uploadedAt: Instant) returns (created: FileRecord)
      requires Valid()
      modifies this
      ensures Valid()
      ensures created.id !in old(records)
      ensures created == FileRecord(created.id, filename, path, Pending, uploadedAt, None, None)
      ensures records == old(records)[created.id := created]
    {
      created := FileRecord(nextId, filename, path, Pending, uploadedAt, None, None);
      records := records[nextId := created];
      nextId := nextId + 1;
    }

    /** `findByIdAndUpdate` with the scanner's patch. */
    method FindByIdAndUpdate(id: FileId, p: ScanPatch)
      requires Valid()
      modifies this
      ensures Valid()
      ensures records == UpdateById(old(records), id, p)
      ensures nextId == old(nextId)
    {
      if id in records {
        records := records[id := Patched(records[id], p)];
      }
    }
  }
}
