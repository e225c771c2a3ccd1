/** The in-memory scan queue: an array of waiting jobs and a `processing` flag
    that lets at most one job run at a time, draining the array in FIFO order.
    The event loop is replaced by explicit steps: `Enqueue`, the start of
    `processNext` (`StartNext`), and the completion of the awaited job
    (`FinishCurrent`). */
module ScanQueue {
  import opened Wrappers
  import opened Records

  /** A finished job and whether it completed without throwing. */
  datatype Completion = Completion(job: ScanJob, ok: bool)

  function JobsOf(log: seq<Completion>): seq<ScanJob>
  {
    seq(|log|, i requires 0 <= i < |log| => log[i].job)
  }

  /** Pairs each job with the outcome it completed with. */
  function Completions(jobs: seq<ScanJob>, outcomes: seq<bool>): seq<Completion>
    requires |jobs| == |outcomes|
  {
    seq(|jobs|, i requires 0 <= i < |jobs| => Completion(jobs[i], outcomes[i]))
  }

  class InMemoryQueue {
    /** The waiting jobs, head first. */
    var queue: seq<ScanJob>
    /** Set while a job is being processed. */
    var processing: bool
    /** The job `processNext` took off the head and is awaiting. */
    var current: Option<ScanJob>
    /** Every job that has finished, in completion order. */
    ghost var completed: seq<Completion>
    /** Every job ever enqueued, in enqueue order. */
    ghost var enqueued: seq<ScanJob>

    /** The jobs not yet finished, in the order they will finish: the running
        job first, then the waiting ones. */
    ghost function Outstanding(): seq<ScanJob>
      reads this
    {
      (if current.Some? then [current.value] else []) + queue
    }

    /** The flag tells exactly whether a job is in progress, and every enqueued
        job is either finished or outstanding, in enqueue order: FIFO, and no
        job is lost, repeated or re-queued. */
    ghost predicate Coherent()
      reads this
    {
      && (processing <==> current.Some?)
      && enqueued == JobsOf(completed) + Outstanding()
    }

    /** Coherent, and never stalled: while nothing runs, nothing waits. */
    ghost predicate Valid()
      reads this
    {
      Coherent() && (!processing ==> queue == [])
    }

    constructor ()
      ensures Valid()
      ensures queue == [] && !processing && completed == [] && enqueued == []
    {
      queue := [];
      processing := false;
      current := None;
      completed := [];
      enqueued := [];
    }

    /** `enqueue`: push the job at the tail, then call `processNext`. */
    method Enqueue(job: ScanJob)
      requires Valid()
      modifies this
      ensures Valid()
      ensures enqueued == old(enqueued) + [job]
      ensures Outstanding() == old(Outstanding()) + [job]
      ensures completed == old(completed)
      ensures processing
      ensures old(processing) ==> current == old(current) && queue == old(queue) + [job]
      ensures !old(processing) ==> current == Some(job) && queue == []
    {
      queue := queue + [job];
      enqueued := enqueued + [job];
      StartNext();
    }

    /** `processNext` up to the awaited job: nothing happens while a job is
        processing or when the queue is empty; otherwise the flag is set and
        the head is shifted off and becomes the running job. */
    method StartNext()
      requires Coherent()
      modifies this
      ensures Valid()
      ensures Outstanding() == old(Outstanding())
      ensures enqueued == old(enqueued) && completed == old(completed)
      ensures old(processing) || old(queue) == [] ==>
        processing == old(processing) && current == old(current) && queue == old(queue)
      ensures !old(processing) && old(queue) != [] ==>
        processing && current == Some(old(queue)[0]) && queue == old(queue)[1..]
    {
      if processing || |queue| == 0 {
        return;
      }
      processing := true;
      var job := queue[0];
      queue := queue[1..];
      current := Some(job);
    }

    /** The awaited job settles (`ok` is false when it threw, which is caught
        and logged): the flag is cleared and, if jobs wait, the next one starts. */
    method FinishCurrent(ok: bool)
      requires Valid() && processing
      modifies this
      ensures Valid()
      ensures completed == old(completed) + [Completion(old(current).value, ok)]
      ensures Outstanding() == old(Outstanding())[1..]
      ensures enqueued == old(enqueued)
      ensures processing <==> old(queue) != []
      ensures processing ==> current == Some(old(queue)[0]) && queue == old(queue)[1..]
    {
      completed := completed + [Completion(current.value, ok)];
      processing := false;
      current := None;
      if |queue| > 0 {
        StartNext();
      }
    }

    /** Repeated completions, as `processNext` re-invokes itself: every
        outstanding job finishes, in order, whatever its outcome, and the queue
        ends idle. */
    method Drain(outcomes: seq<bool>)
      requires Valid() && |outcomes| == |Outstanding()|
      modifies this
      ensures Valid()
      ensures completed == old(completed) + Completions(old(Outstanding()), outcomes)
      ensures !processing && queue == [] && Outstanding() == []
      ensures enqueued == old(enqueued)
    {
      var i := 0;
      while processing
        invariant Valid()
        invariant 0 <= i <= |outcomes|
        invariant enqueued == old(enqueued)
        invariant Outstanding() == old(Outstanding())[i..]
        invariant completed == old(completed) + Completions(old(Outstanding())[..i], outcomes[..i])
        decreases |Outstanding()|
      {
        FinishCurrent(outcomes[i]);
        assert old(Outstanding())[..i + 1] == old(Outstanding())[..i] + [old(Outstanding())[i]];
        assert outcomes[..i + 1] == outcomes[..i] + [outcomes[i]];
        i := i + 1;
      }
      assert old(Outstanding())[..i] == old(Outstanding());
      assert outcomes[..i] == outcomes;
    }
  }
}
