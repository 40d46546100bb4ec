/** The scan that resumes enrichment jobs left in PROCESSING, against a queue that ignores a job
    whose id it already knows, whatever became of the old one. */
module ResumeQueue {
  import opened Text
  import opened EnrichmentRun

  datatype QueueState = Active | WaitingInQueue | WaitingChildren | Delayed | Completed | FailedInQueue

  /** A row of enrichment_jobs and what the disk holds for it. */
  datatype Record = Record(id: string, status: JobStatus, checkpoint: bool, totalRecords: nat, sources: nat)

  /** A BullMQ queue as the states of the jobs it knows. */
  type Queue = map<string, QueueState>

  predicate IsLive(state: Option<QueueState>) {
    state.Some? && (state.value.Active? || state.value.WaitingInQueue? || state.value.WaitingChildren? || state.value.Delayed?)
  }

  function StateOf(q: Queue, id: string): Option<QueueState> {
    if id in q then Some(q[id]) else None
  }

  /** `queue.add` with a job id: nothing at all when the id is known. */
  function Add(q: Queue, id: string): Queue {
    if id in q then q else q[id := WaitingInQueue]
  }

  function MergeId(id: string): string {
    "merge-" + id
  }

  /** Its extraction or the merge before it is still with the queue. */
  predicate Attended(q: Queue, id: string) {
    IsLive(StateOf(q, id)) || IsLive(StateOf(q, MergeId(id)))
  }

  /** Something to go on from: a checkpoint, or a finished merge with its sources still on disk. */
  predicate Resumable(r: Record) {
    r.checkpoint || (r.totalRecords > 0 && r.sources > 0)
  }

  predicate Stuck(r: Record, q: Queue) {
    r.status.PROCESSING? && !Attended(q, r.id)
  }

  /** Job ids are UUIDs: no two records share one, none is another's merge id. */
  predicate IdsApart(records: seq<Record>) {
    && (forall i, j :: 0 <= i < j < |records| ==> records[i].id != records[j].id)
    && (forall i, j :: 0 <= i < |records| && 0 <= j < |records| ==> records[i].id != MergeId(records[j].id))
  }

  /** No live job is touched; one that was not is as before or waits anew. */
  ghost predicate OnlyRevived(before: Queue, after: Queue) {
    forall id :: StateOf(after, id) == StateOf(before, id) || (!IsLive(StateOf(before, id)) && StateOf(after, id) == Some(WaitingInQueue))
  }

  /** What becomes of one record. */
  function AfterScan(r: Record, q: Queue): Record {
    if Stuck(r, q) && !Resumable(r) then r.(status := FAILED) else r
  }

  class EnrichmentQueue {
    var records: seq<Record>
    var queue: Queue

    /** One turn of the loop. */
    method ResumeOne(i: nat)
      requires i < |records| && records[i].status.PROCESSING?
      modifies this
      ensures records == old(records)[i := AfterScan(old(records[i]), old(queue))]
      ensures queue == if Stuck(old(records[i]), old(queue)) && Resumable(old(records[i]))
        then old(queue)[old(records[i]).id := WaitingInQueue] else old(queue)
    {
      var job := records[i];
      if IsLive(StateOf(queue, job.id)) { return; }
      if IsLive(StateOf(queue, MergeId(job.id))) { return; }
      var restartFromZero := !job.checkpoint && job.totalRecords > 0 && job.sources > 0;
      if job.checkpoint || restartFromZero {
        queue := queue - {job.id};
        queue := Add(queue, job.id);
      } else {
        records := records[i := job.(status := FAILED)];
      }
    }

    /** The last part of a retry request: the job is left alone while it is with the queue, and otherwise added
        anew; either way it will be worked on, and no other job is touched. */
    method Requeue(id: string)
      modifies this`queue
      ensures IsLive(StateOf(queue, id))
      ensures IsLive(StateOf(old(queue), id)) ==> queue == old(queue)
      ensures forall other :: other != id ==> StateOf(queue, other) == StateOf(old(queue), other)
    {
      if !IsLive(StateOf(queue, id)) {
        queue := queue - {id};
        queue := Add(queue, id);
      }
    }

    /** resumeStuckJobs: afterwards every record still in PROCESSING has a live job, a stuck one that
        cannot be resumed has failed, and no live job was touched, so none runs twice. */
    method ResumeStuckJobs()
      requires IdsApart(records)
      modifies this
      ensures |records| == |old(records)|
      ensures forall i :: 0 <= i < |records| ==> records[i] == AfterScan(old(records)[i], old(queue))
      ensures forall i :: 0 <= i < |records| && records[i].status.PROCESSING? ==> Attended(queue, records[i].id)
      ensures OnlyRevived(old(queue), queue)
    {
      ghost var rs, q := records, queue;
      for i := 0 to |records|
        invariant |records| == |rs|
        invariant forall k :: 0 <= k < i ==> records[k] == AfterScan(rs[k], q)
        invariant forall k :: i <= k < |rs| ==> records[k] == rs[k]
        invariant forall k :: 0 <= k < i && records[k].status.PROCESSING? ==> Attended(queue, records[k].id)
        invariant forall k :: i <= k < |rs| ==> StateOf(queue, rs[k].id) == StateOf(q, rs[k].id)
        invariant forall k :: 0 <= k < |rs| ==> StateOf(queue, MergeId(rs[k].id)) == StateOf(q, MergeId(rs[k].id))
        invariant OnlyRevived(q, queue)
      {
        if records[i].status.PROCESSING? {
          ResumeOne(i);
        }
      }
    }
  }

  /** What the scan decides, on the record and on what the queue knows of its two jobs: a record in PROCESSING with
      neither of them live goes on exactly from a checkpoint, or from zero after a merge whose sources are still
      there; otherwise it fails. */
  lemma ScanDecides(r: Record, q: Queue)
    ensures AfterScan(r, q).id == r.id && (r.status != PROCESSING ==> AfterScan(r, q) == r)
    ensures KnownLive(q, r.id) || KnownLive(q, "merge-" + r.id) ==> AfterScan(r, q) == r
    ensures r.status == PROCESSING && !KnownLive(q, r.id) && !KnownLive(q, "merge-" + r.id) ==>
      AfterScan(r, q).status == if r.checkpoint || (r.totalRecords >= 1 && r.sources >= 1) then PROCESSING else FAILED
  {
  }

  predicate KnownLive(q: Queue, id: string) {
    id in q && q[id] in {Active, WaitingInQueue, WaitingChildren, Delayed}
  }

  /** Running the scan again at once changes nothing more. */
  lemma ScanTwice(before: Record, q: Queue, after: Record, q': Queue)
    requires after == AfterScan(before, q) && (after.status.PROCESSING? ==> Attended(q', after.id))
    ensures AfterScan(after, q') == after
  {
  }

  /** Without removing the finished job first, adding it again would leave the record without any live
      job: exactly when the queue still knows the id. */
  lemma AddAloneIsNotEnough(q: Queue, id: string)
    requires !IsLive(StateOf(q, id))
    ensures IsLive(StateOf(Add(q, id), id)) <==> id !in q
    ensures IsLive(StateOf(Add(q - {id}, id), id))
  {
  }
}
