/** The queue's `processJob` wired to the scanner: the running job is scanned
    and then finishes, successfully or not, after which the queue moves on. */
module Pipeline {
  import opened Wrappers
  import opened Records
  import opened ScanQueue
  import opened Scanner

  /** `processJob` for the running job followed by its completion. When the
      dynamic import of the scanner rejects, the job fails without a scan. */
  method ProcessCurrent(queue: InMemoryQueue, store: FileStore, env: ScanEnv, scannerImportFails: bool)
    returns (report: Option<ScanReport>)
    requires queue.Valid() && queue.processing && store.Valid()
    modifies queue, store
    ensures queue.Valid() && store.Valid()
    ensures var job := old(queue.current).value;
      && (scannerImportFails ==> report == None && store.records == old(store.records))
      && (!scannerImportFails ==>
            report.Some? && ScanReportFor(report.value, job, env)
            && store.records == UpdateAll(old(store.records), job.fileId, ScanWrites(env)))
      && queue.completed == old(queue.completed)
           + [Completion(job, !scannerImportFails && !ScanRejects(env))]
    ensures queue.Outstanding() == old(queue.Outstanding())[1..]
    ensures queue.processing <==> old(queue.queue) != []
  {
    var job := queue.current.value;
    if scannerImportFails {
      report := None;
      queue.FinishCurrent(false);
    } else {
      var r := ScanFile(store, job, env);
      report := Some(r);
      queue.FinishCurrent(!r.threw);
    }
  }
}
