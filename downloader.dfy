/**
 * The download queue and the supervision of the external downloader.
 *
 * Every download is a job of the bounded-concurrency queue. A job's task
 * record is one object shared by the queue's job and by the `activeDownloads`
 * entry made when the process is spawned, so a cancellation and the job's own
 * error handler write to the same record. Here each job is an entry of `jobs`
 * (its index is its handle) and `activeDownloads` maps a task id to the handle
 * whose record it refers to.
 *
 * The queue is a FIFO (`waiting`) and a set of started jobs (`running`). A job
 * starts only while fewer than `concurrency` jobs run. The asynchronous steps
 * of a job are separate events: `StartNext` (the queue runs the next job: it is
 * marked downloading, its directory is created, its file name is derived and
 * the process is spawned), `OnChunk` (a chunk of standard output), `Close`
 * (the process ends) and `Cancel`.
 */
module Downloader {
  import opened Wrappers
  import opened Types
  import opened IdLists
  import opened Store
  import opened Naming
  import opened YtDlp

  const CancelMessage := "Cancelled by user"
  const VodNotFound := "VOD not found"
  /** What converting an unparsable creation date to ISO form throws. */
  const InvalidDate := "Invalid time value"
  const DefaultConcurrency := 2

  /** Where a job is in its life. */
  datatype Phase =
    | Queued                                          // in the queue, not started
    | Spawned(outputPath: string, args: seq<string>)  // its process is running
    | Settled(outcome: Result<string, string>)        // its promise: the output path, or the error message

  /** One queued download: the shared task record, what the job closed over, and its parser. */
  datatype Job = Job(
    task: DownloadTask,
    vod: Vod,
    quality: VideoQuality,
    downloadPath: string,
    parser: ParserState,
    phase: Phase)

  /** One call of the registered progress callback. */
  datatype ProgressEvent = ProgressEvent(taskId: string, progress: real, downloaded: real, total: real)

  /** The record `downloadVOD` creates and persists before queueing. */
  function PendingTask(vodId: string, streamerId: string, streamerName: string, title: string, now: int): (t: DownloadTask)
    ensures t.id == TaskId(vodId, now) && t.vodId == vodId
    ensures t.status == Pending && t.progress == 0.0 && t.error == None && t.completedAt == None
  {
    DownloadTask(TaskId(vodId, now), vodId, streamerId, streamerName, title, Pending, 0.0, None, None, None, now, None)
  }

  /** What the progress handler writes into the task record. */
  function WithProgress(t: DownloadTask, p: Progress): DownloadTask
  {
    t.(progress := p.progress, downloadedSize := Some(p.downloaded), totalSize := Some(p.total))
  }

  function Tag(taskId: string, p: Progress): ProgressEvent
  {
    ProgressEvent(taskId, p.progress, p.downloaded, p.total)
  }

  /**
   * The status moves a record can make: forward from pending to downloading to
   * completed or failed, and from failed to completed when a cancelled
   * process still exits with code 0.
   */
  predicate MayFollow(a: Status, b: Status)
  {
    || a == b
    || (a == Pending && b != Pending)
    || (a == Downloading && (b == Completed || b == Failed))
    || (a == Failed && b == Completed)
  }

  /** No record returns to pending, and a completed record stays completed. */
  lemma MayFollowNeverReturns(a: Status, b: Status, c: Status)
    requires MayFollow(a, b) && MayFollow(b, c)
    ensures MayFollow(a, c)
    ensures c == Pending ==> a == Pending
    ensures a == Completed ==> c == Completed
  {
  }

  /** Every job that existed before still exists, and its status moved only as `MayFollow` allows. */
  ghost predicate StatusesAdvance(before: seq<Job>, after: seq<Job>)
  {
    && |before| <= |after|
    && forall h :: 0 <= h < |before| ==> MayFollow(before[h].task.status, after[h].task.status)
  }

  lemma AdvanceReflexive(js: seq<Job>)
    ensures StatusesAdvance(js, js)
  {
  }

  lemma AdvanceAppend(js: seq<Job>, j: Job)
    ensures StatusesAdvance(js, js + [j])
  {
    assert forall h :: 0 <= h < |js| ==> (js + [j])[h] == js[h];
  }

  lemma AdvanceUpdate(js: seq<Job>, h: nat, j: Job)
    requires h < |js| && MayFollow(js[h].task.status, j.task.status)
    ensures StatusesAdvance(js, js[h := j])
  {
  }

  /** How a job's phase and its record's status agree. */
  ghost predicate Consistent(j: Job)
  {
    match j.phase
    case Queued => j.task.status == Pending && j.task.progress == 0.0
    case Spawned(_, _) =>
      j.task.status == Downloading || (j.task.status == Failed && j.task.error == Some(CancelMessage))
    case Settled(outcome) =>
      if outcome.Success? then j.task.status == Completed && j.task.progress == 100.0 && j.task.completedAt.Some?
      else j.task.status == Failed && j.task.error == Some(outcome.error)
  }


  /** Waiting handles are queued jobs, each once, and every queued job waits. */
  ghost predicate WaitingOk(jobs: seq<Job>, waiting: seq<nat>)
  {
    && (forall k :: 0 <= k < |waiting| ==> waiting[k] < |jobs| && jobs[waiting[k]].phase.Queued?)
    && (forall k, l :: 0 <= k < l < |waiting| ==> waiting[k] != waiting[l])
    && (forall h :: 0 <= h < |jobs| && jobs[h].phase.Queued? ==> h in waiting)
  }

  /** The queue's started jobs are exactly the jobs whose process runs. */
  ghost predicate RunningOk(jobs: seq<Job>, running: set<nat>)
  {
    forall h: nat :: h in running <==> h < |jobs| && jobs[h].phase.Spawned?
  }

  /** Every `activeDownloads` entry refers to a running job whose record has that id. */
  ghost predicate ActiveOk(jobs: seq<Job>, active: map<string, nat>)
  {
    forall id :: id in active ==> active[id] < |jobs| && jobs[active[id]].phase.Spawned? && jobs[active[id]].task.id == id
  }

  ghost predicate AllConsistent(jobs: seq<Job>)
  {
    forall h :: 0 <= h < |jobs| ==> Consistent(jobs[h])
  }

  ghost predicate QueueInvariant(jobs: seq<Job>, waiting: seq<nat>, running: set<nat>, active: map<string, nat>)
  {
    WaitingOk(jobs, waiting) && RunningOk(jobs, running) && ActiveOk(jobs, active) && AllConsistent(jobs)
  }

  /** The jobs the queue still holds: queued or started, but not settled. */
  ghost function Unsettled(jobs: seq<Job>): set<nat>
  {
    set h: nat | h < |jobs| && !jobs[h].phase.Settled?
  }

  /** The handles a sequence holds. */
  ghost function Elems(s: seq<nat>): set<nat>
  {
    set x | x in s
  }

  /** A sequence without repetitions has as many distinct elements as entries. */
  lemma {:induction false} DistinctCount(s: seq<nat>)
    requires forall k, l :: 0 <= k < l < |s| ==> s[k] != s[l]
    ensures |Elems(s)| == |s|
  {
    if s != [] {
      var t := s[1..];
      DistinctCount(t);
      assert s[0] !in t;
      assert Elems(s) == Elems(t) + {s[0]};
    }
  }

  /**
   * Under the invariant, the waiting handles and the running set together
   * count exactly the jobs that have not settled.
   */
  lemma QueueCountsUnsettled(jobs: seq<Job>, waiting: seq<nat>, running: set<nat>, active: map<string, nat>)
    requires QueueInvariant(jobs, waiting, running, active)
    ensures |waiting| + |running| == |Unsettled(jobs)|
  {
    DistinctCount(waiting);
    var queued := Elems(waiting);
    assert Unsettled(jobs) == queued + running by {
      forall h: nat | h in Unsettled(jobs) ensures h in queued + running {
        if jobs[h].phase.Queued? {
          assert h in waiting;
        }
      }
      forall h | h in queued ensures h in Unsettled(jobs) {
        var k :| 0 <= k < |waiting| && waiting[k] == h;
      }
    }
    assert queued * running == {} by {
      forall h | h in queued ensures h !in running {
        var k :| 0 <= k < |waiting| && waiting[k] == h;
      }
    }
    assert |queued + running| == |queued| + |running|;
  }

  /** Queueing a new pending job at the end keeps the invariant. */
  lemma InvariantAppend(jobs: seq<Job>, waiting: seq<nat>, running: set<nat>, active: map<string, nat>, j: Job)
    requires QueueInvariant(jobs, waiting, running, active)
    requires j.phase.Queued? && Consistent(j)
    ensures QueueInvariant(jobs + [j], waiting + [|jobs|], running, active)
  {
    var js := jobs + [j];
    assert forall h :: 0 <= h < |jobs| ==> js[h] == jobs[h];
  }

  /** Rewriting a job's record without changing its id or its phase keeps the invariant. */
  lemma InvariantRetask(jobs: seq<Job>, waiting: seq<nat>, running: set<nat>, active: map<string, nat>, h: nat, j: Job)
    requires QueueInvariant(jobs, waiting, running, active)
    requires h < |jobs| && j.phase == jobs[h].phase && j.task.id == jobs[h].task.id && Consistent(j)
    ensures QueueInvariant(jobs[h := j], waiting, running, active)
  {
  }

  /** Deleting an `activeDownloads` entry keeps the invariant. */
  lemma InvariantDrop(jobs: seq<Job>, waiting: seq<nat>, running: set<nat>, active: map<string, nat>, id: string)
    requires QueueInvariant(jobs, waiting, running, active)
    ensures QueueInvariant(jobs, waiting, running, active - {id})
  {
  }

  /** Spawning the oldest waiting job keeps the invariant. */
  lemma InvariantSpawn(jobs: seq<Job>, waiting: seq<nat>, running: set<nat>, active: map<string, nat>, j: Job)
    requires QueueInvariant(jobs, waiting, running, active)
    requires waiting != [] && j.task.id == jobs[waiting[0]].task.id && j.phase.Spawned? && Consistent(j)
    ensures waiting[0] !in running
    ensures QueueInvariant(jobs[waiting[0] := j], waiting[1..], running + {waiting[0]}, active[j.task.id := waiting[0]])
  {
    var h := waiting[0];
    var js := jobs[h := j];
    var ws := waiting[1..];
    forall g | 0 <= g < |js| && js[g].phase.Queued?
      ensures g in ws
    {
      var k :| 0 <= k < |waiting| && waiting[k] == g;
      assert k != 0;
      assert ws[k - 1] == g;
    }
  }

  /** Settling the oldest waiting job before its spawn keeps the invariant. */
  lemma InvariantSettleWaiting(jobs: seq<Job>, waiting: seq<nat>, running: set<nat>, active: map<string, nat>, j: Job)
    requires QueueInvariant(jobs, waiting, running, active)
    requires waiting != [] && j.phase.Settled? && Consistent(j)
    ensures QueueInvariant(jobs[waiting[0] := j], waiting[1..], running, active)
  {
    var h := waiting[0];
    var js := jobs[h := j];
    var ws := waiting[1..];
    forall g | 0 <= g < |js| && js[g].phase.Queued?
      ensures g in ws
    {
      var k :| 0 <= k < |waiting| && waiting[k] == g;
      assert k != 0;
      assert ws[k - 1] == g;
    }
  }

  /** Settling a running job, freeing its slot and its entry, keeps the invariant. */
  lemma InvariantClose(jobs: seq<Job>, waiting: seq<nat>, running: set<nat>, active: map<string, nat>, h: nat, j: Job)
    requires QueueInvariant(jobs, waiting, running, active)
    requires h < |jobs| && jobs[h].phase.Spawned? && j.task.id == jobs[h].task.id && j.phase.Settled? && Consistent(j)
    ensures QueueInvariant(jobs[h := j], waiting, running - {h}, active - {j.task.id})
  {
  }

  class Downloader {
    const store: AppStore
    var jobs: seq<Job>
    /** The queue's waiting jobs, oldest first. */
    var waiting: seq<nat>
    /** The queue's started jobs whose process has not ended. */
    var running: set<nat>
    var concurrency: int
    var activeDownloads: map<string, nat>
    /** Whether a progress callback is registered. */
    var subscribed: bool
    /** Every call made to the progress callback, in order. */
    var emitted: seq<ProgressEvent>

    ghost predicate Valid()
      reads this
    {
      concurrency >= 1 && QueueInvariant(jobs, waiting, running, activeDownloads)
    }

    /** The queue as first created: empty, two jobs at a time, no callback registered. */
    constructor (store: AppStore)
      ensures Valid() && this.store == store
      ensures jobs == [] && waiting == [] && running == {} && activeDownloads == map[]
      ensures concurrency == DefaultConcurrency && !subscribed && emitted == []
    {
      this.store := store;
      jobs, waiting, running, activeDownloads := [], [], {}, map[];
      concurrency := DefaultConcurrency;
      subscribed, emitted := false, [];
    }

    /** `setProgressCallback`: register a callback (`on`) or clear it. */
    method SetProgressCallback(on: bool)
      modifies this`subscribed
      ensures subscribed == on
    {
      subscribed := on;
    }

    /**
     * `downloadVOD`: look the VOD up (`lookup` is the lookup's outcome), create
     * the task in `pending`, persist it and queue the job. A failed lookup or a
     * missing VOD throws and nothing is persisted or queued.
     */
    method DownloadVOD(vodId: string, streamerId: string, streamerName: string, quality: VideoQuality,
                       now: int, lookup: Result<Option<Vod>, string>)
      returns (r: Result<nat, string>)
      requires Valid()
      modifies this`jobs, this`waiting, store`downloads
      ensures Valid() && StatusesAdvance(old(jobs), jobs)
      ensures lookup.Failure? ==> r == Failure(lookup.error)
      ensures lookup == Success(None) ==> r == Failure(VodNotFound)
      ensures r.Failure? ==> jobs == old(jobs) && waiting == old(waiting) && store.downloads == old(store.downloads)
      ensures lookup.Success? && lookup.value.Some? ==>
        var task := PendingTask(vodId, streamerId, streamerName, lookup.value.value.title, now);
        && r == Success(|old(jobs)|)
        && jobs == old(jobs) + [Job(task, lookup.value.value, quality, store.config.downloadPath, InitialParser, Queued)]
        && waiting == old(waiting) + [|old(jobs)|]
        && store.downloads == Upsert(old(store.downloads), DownloadId, task)
    {
      var config := store.config;
      AdvanceReflexive(jobs);
      if lookup.Failure? {
        return Failure(lookup.error);
      }
      if lookup.value.None? {
        return Failure(VodNotFound);
      }
      var vod := lookup.value.value;
      var task := PendingTask(vodId, streamerId, streamerName, vod.title, now);
      store.SaveDownload(task);
      var h := |jobs|;
      var job := Job(task, vod, quality, config.downloadPath, InitialParser, Queued);
      AdvanceAppend(jobs, job);
      InvariantAppend(jobs, waiting, running, activeDownloads, job);
      jobs := jobs + [job];
      waiting := waiting + [h];
      r := Success(h);
    }

    /**
     * The queue starts its oldest waiting job when a slot is free. The job marks
     * its task downloading and persists it, creates the output directory
     * (`mkdirError` is that step's failure, if any), formats the VOD's creation
     * date (`isoDate`, absent when the date is invalid), builds the file name
     * and the argument list and spawns the process. A failure before the spawn
     * fails the task and clears the `activeDownloads` entry for its id.
     */
    method StartNext(mkdirError: Option<string>, isoDate: Option<string>) returns (started: Option<nat>)
      requires Valid()
      modifies this`jobs, this`waiting, this`running, this`activeDownloads, store`downloads
      ensures Valid() && StatusesAdvance(old(jobs), jobs)
      ensures old(waiting) == [] || |old(running)| >= old(concurrency) ==>
        && started == None && jobs == old(jobs) && waiting == old(waiting) && running == old(running)
        && activeDownloads == old(activeDownloads) && store.downloads == old(store.downloads)
      ensures old(waiting) != [] && |old(running)| < old(concurrency) ==>
        var h := old(waiting[0]);
        var j := old(jobs[h]);
        var task := j.task.(status := Downloading);
        && started == Some(h)
        && waiting == old(waiting[1..])
        && |running| <= concurrency
        && (mkdirError.Some? || isoDate.None? ==>
              var message := if mkdirError.Some? then mkdirError.value else InvalidDate;
              && jobs == old(jobs)[h := j.(task := task.(status := Failed, error := Some(message)),
                                           phase := Settled(Failure(message)))]
              && running == old(running)
              && activeDownloads == old(activeDownloads) - {task.id})
        && (mkdirError.None? && isoDate.Some? ==>
              var path := OutputPath(j.downloadPath, task.streamerId, isoDate.value, j.vod.title, task.vodId);
              && jobs == old(jobs)[h := j.(task := task, phase := Spawned(path, BaseArgs(j.vod.url, path) + QualityArgs(j.quality)))]
              && running == old(running) + {h}
              && activeDownloads == old(activeDownloads)[task.id := h])
        && store.downloads == Upsert(old(store.downloads), DownloadId, jobs[h].task)
    {
      AdvanceReflexive(jobs);
      if waiting == [] || |running| >= concurrency {
        return None;
      }
      var h := waiting[0];
      var task := jobs[h].task.(status := Downloading);
      store.SaveDownload(task);
      if mkdirError.Some? || isoDate.None? {
        var message := if mkdirError.Some? then mkdirError.value else InvalidDate;
        FailBeforeSpawn(message);
        UpsertAbsorbs(old(store.downloads), DownloadId, task, jobs[h].task);
      } else {
        Spawn(isoDate.value);
      }
      started := Some(h);
    }

    /** The oldest waiting job fails before its process is spawned. */
    method FailBeforeSpawn(message: string)
      requires Valid() && waiting != []
      modifies this`jobs, this`waiting, this`activeDownloads, store`downloads
      ensures Valid() && StatusesAdvance(old(jobs), jobs)
      ensures var h := old(waiting[0]);
        var task := old(jobs[h].task).(status := Failed, error := Some(message));
        && jobs == old(jobs)[h := old(jobs[h]).(task := task, phase := Settled(Failure(message)))]
        && waiting == old(waiting[1..])
        && activeDownloads == old(activeDownloads) - {task.id}
        && store.downloads == Upsert(old(store.downloads), DownloadId, task)
    {
      var h := waiting[0];
      var job := jobs[h];
      var task := job.task.(status := Failed, error := Some(message));
      store.SaveDownload(task);
      var settled := job.(task := task, phase := Settled(Failure(message)));
      AdvanceUpdate(jobs, h, settled);
      InvariantSettleWaiting(jobs, waiting, running, activeDownloads, settled);
      InvariantDrop(jobs[h := settled], waiting[1..], running, activeDownloads, task.id);
      jobs := jobs[h := settled];
      waiting := waiting[1..];
      activeDownloads := activeDownloads - {task.id};
    }

    /**
     * The oldest waiting job, already marked downloading and persisted, gets
     * its output path and arguments and its process is spawned and registered.
     */
    method Spawn(isoDate: string)
      requires Valid() && waiting != []
      modifies this`jobs, this`waiting, this`running, this`activeDownloads
      ensures Valid() && StatusesAdvance(old(jobs), jobs)
      ensures var h := old(waiting[0]);
        var j := old(jobs[h]);
        var task := j.task.(status := Downloading);
        var path := OutputPath(j.downloadPath, task.streamerId, isoDate, j.vod.title, task.vodId);
        && jobs == old(jobs)[h := j.(task := task, phase := Spawned(path, BaseArgs(j.vod.url, path) + QualityArgs(j.quality)))]
        && waiting == old(waiting[1..])
        && h !in old(running) && running == old(running) + {h}
        && activeDownloads == old(activeDownloads)[task.id := h]
    {
      var h := waiting[0];
      var job := jobs[h];
      var task := job.task.(status := Downloading);
      var outputPath := OutputPath(job.downloadPath, task.streamerId, isoDate, job.vod.title, task.vodId);
      var args := BuildArgs(job.vod.url, outputPath, job.quality);
      var spawned := job.(task := task, phase := Spawned(outputPath, args));
      AdvanceUpdate(jobs, h, spawned);
      InvariantSpawn(jobs, waiting, running, activeDownloads, spawned);
      jobs := jobs[h := spawned];
      waiting := waiting[1..];
      activeDownloads := activeDownloads[task.id := h];
      running := running + {h};
    }

    /**
     * A chunk of the process's standard output. The parser state is updated;
     * when the chunk carries sizes, the record takes the progress, is persisted
     * and the callback (if registered) is called once. This also happens after
     * a cancellation, as long as the process still writes.
     */
    method OnChunk(h: nat, chunk: Chunk)
      requires Valid() && h < |jobs| && jobs[h].phase.Spawned?
      modifies this`jobs, this`emitted, store`downloads
      ensures Valid() && StatusesAdvance(old(jobs), jobs)
      ensures var j := old(jobs[h]);
        var st := Step(j.parser, chunk).0;
        var ev := Step(j.parser, chunk).1;
        && jobs == old(jobs)[h := j.(parser := st, task := if ev.Some? then WithProgress(j.task, ev.value) else j.task)]
        && store.downloads == (if ev.Some? then Upsert(old(store.downloads), DownloadId, jobs[h].task) else old(store.downloads))
        && emitted == old(emitted) + (if ev.Some? && subscribed then [Tag(j.task.id, ev.value)] else [])
    {
      var job := jobs[h];
      var step := Step(job.parser, chunk);
      var task := job.task;
      if step.1.Some? {
        task := WithProgress(task, step.1.value);
        store.SaveDownload(task);
        if subscribed {
          emitted := emitted + [Tag(task.id, step.1.value)];
        }
      }
      AdvanceUpdate(jobs, h, job.(parser := step.0, task := task));
      InvariantRetask(jobs, waiting, running, activeDownloads, h, job.(parser := step.0, task := task));
      jobs := jobs[h := job.(parser := step.0, task := task)];
    }

    /**
     * The process ended. Exit code 0 calls the progress handler once more at
     * 100% with the last parsed total as both sizes, then completes the task;
     * any other end fails it with the exit message or the process error,
     * overwriting whatever error it had (a cancellation's included). Either
     * way the `activeDownloads` entry for the task's id is deleted and the
     * queue slot is freed.
     */
    method Close(h: nat, end: ProcessEnd, now: int) returns (outcome: Result<string, string>)
      requires Valid() && h < |jobs| && jobs[h].phase.Spawned?
      modifies this`jobs, this`running, this`activeDownloads, this`emitted, store`downloads
      ensures Valid() && StatusesAdvance(old(jobs), jobs)
      ensures var j := old(jobs[h]);
        var final := Finish(j.parser, end).0;
        var result := Finish(j.parser, end).1;
        && (result.Success? ==>
              && outcome == Success(j.phase.outputPath)
              && jobs[h].task == WithProgress(j.task, final.value).(status := Completed, progress := 100.0, completedAt := Some(now)))
        && (result.Failure? ==>
              && outcome == Failure(result.error)
              && jobs[h].task == j.task.(status := Failed, error := Some(result.error)))
        && jobs == old(jobs)[h := j.(task := jobs[h].task, phase := Settled(outcome))]
        && emitted == old(emitted) + (if final.Some? && subscribed then [Tag(j.task.id, final.value)] else [])
        && activeDownloads == old(activeDownloads) - {j.task.id}
        && store.downloads == Upsert(old(store.downloads), DownloadId, jobs[h].task)
      ensures running == old(running) - {h}
    {
      var job := jobs[h];
      var finish := Finish(job.parser, end);
      if finish.1.Success? {
        var task := WithProgress(job.task, finish.0.value);
        store.SaveDownload(task);
        if subscribed {
          emitted := emitted + [Tag(task.id, finish.0.value)];
        }
        outcome := Success(job.phase.outputPath);
        Settle(h, task.(status := Completed, progress := 100.0, completedAt := Some(now)), outcome);
        UpsertAbsorbs(old(store.downloads), DownloadId, task, jobs[h].task);
      } else {
        outcome := Failure(finish.1.error);
        Settle(h, job.task.(status := Failed, error := Some(finish.1.error)), outcome);
      }
    }

    /** A running job settles with `outcome`: its record is persisted, its entry deleted and its slot freed. */
    method Settle(h: nat, task: DownloadTask, outcome: Result<string, string>)
      requires Valid() && h < |jobs| && jobs[h].phase.Spawned? && task.id == jobs[h].task.id
      requires MayFollow(jobs[h].task.status, task.status)
      requires Consistent(jobs[h].(task := task, phase := Settled(outcome)))
      modifies this`jobs, this`running, this`activeDownloads, store`downloads
      ensures Valid() && StatusesAdvance(old(jobs), jobs)
      ensures jobs == old(jobs)[h := old(jobs[h]).(task := task, phase := Settled(outcome))]
      ensures running == old(running) - {h} && activeDownloads == old(activeDownloads) - {task.id}
      ensures store.downloads == Upsert(old(store.downloads), DownloadId, task)
    {
      store.SaveDownload(task);
      var settled := jobs[h].(task := task, phase := Settled(outcome));
      AdvanceUpdate(jobs, h, settled);
      InvariantClose(jobs, waiting, running, activeDownloads, h, settled);
      jobs := jobs[h := settled];
      activeDownloads := activeDownloads - {task.id};
      running := running - {h};
    }

    /**
     * `cancelDownload`: only a task whose process is registered in
     * `activeDownloads` can be cancelled. Its entry is deleted and its record
     * fails with the cancellation message; the process is signalled and its
     * job stays in its slot until the process reports its end through `Close`.
     */
    method Cancel(taskId: string) returns (cancelled: bool)
      requires Valid()
      modifies this`jobs, this`activeDownloads, store`downloads
      ensures Valid() && StatusesAdvance(old(jobs), jobs)
      ensures cancelled <==> taskId in old(activeDownloads)
      ensures !cancelled ==> jobs == old(jobs) && activeDownloads == old(activeDownloads) && store.downloads == old(store.downloads)
      ensures cancelled ==>
        var h := old(activeDownloads[taskId]);
        && jobs == old(jobs)[h := old(jobs[h]).(task := old(jobs[h].task).(status := Failed, error := Some(CancelMessage)))]
        && jobs[h].phase.Spawned?
        && activeDownloads == old(activeDownloads) - {taskId}
        && store.downloads == Upsert(old(store.downloads), DownloadId, jobs[h].task)
    {
      AdvanceReflexive(jobs);
      if taskId !in activeDownloads {
        return false;
      }
      var h := activeDownloads[taskId];
      var job := jobs[h];
      var task := job.task.(status := Failed, error := Some(CancelMessage));
      AdvanceUpdate(jobs, h, job.(task := task));
      InvariantRetask(jobs, waiting, running, activeDownloads, h, job.(task := task));
      InvariantDrop(jobs[h := job.(task := task)], waiting, running, activeDownloads, taskId);
      activeDownloads := activeDownloads - {taskId};
      jobs := jobs[h := job.(task := task)];
      store.SaveDownload(task);
      cancelled := true;
    }

    /**
     * `getQueueSize`: waiting jobs plus started ones, which is the number of
     * queued downloads that have not settled yet.
     */
    method QueueSize() returns (n: nat)
      requires Valid()
      ensures n == |waiting| + |running|
      ensures n == |Unsettled(jobs)|
    {
      QueueCountsUnsettled(jobs, waiting, running, activeDownloads);
      n := |waiting| + |running|;
    }

    /** `updateQueueConcurrency`: later starts use the new bound; running jobs are not stopped. */
    method UpdateQueueConcurrency(c: int)
      requires Valid() && c >= 1
      modifies this`concurrency
      ensures Valid() && concurrency == c
    {
      concurrency := c;
    }
  }
  /**
   * Cancelling a running download and then receiving the killed process's end
   * (a signal gives no exit code): the record stays failed, but the job's error
   * handler overwrites the cancellation message with the exit message.
   */
  method CancelThenKilled(d: Downloader, taskId: string, now: int) returns (h: nat)
    requires d.Valid() && taskId in d.activeDownloads
    modifies d`jobs, d`running, d`activeDownloads, d`emitted, d.store`downloads
    ensures d.Valid() && h == old(d.activeDownloads[taskId]) && h < |d.jobs| && h !in d.running
    ensures taskId !in d.activeDownloads
    ensures d.jobs[h].task.status == Failed
    ensures d.jobs[h].task.error == Some("yt-dlp exited with code null")
    ensures d.jobs[h].phase == Settled(Failure("yt-dlp exited with code null"))
  {
    h := d.activeDownloads[taskId];
    var cancelled := d.Cancel(taskId);
    assert d.jobs[h].task.error == Some(CancelMessage);
    var outcome := d.Close(h, Exited(None), now);
    KilledProcessMessage();
  }

  /**
   * Cancelling a download whose process then exits cleanly anyway: the record
   * goes from failed to completed and keeps the cancellation message as its
   * error.
   */
  method CancelRacingCleanExit(d: Downloader, taskId: string, now: int) returns (h: nat)
    requires d.Valid() && taskId in d.activeDownloads
    modifies d`jobs, d`running, d`activeDownloads, d`emitted, d.store`downloads
    ensures d.Valid() && h == old(d.activeDownloads[taskId]) && h < |d.jobs|
    ensures d.jobs[h].task.status == Completed && d.jobs[h].task.progress == 100.0
    ensures d.jobs[h].task.error == Some(CancelMessage)
  {
    h := d.activeDownloads[taskId];
    var cancelled := d.Cancel(taskId);
    var outcome := d.Close(h, Exited(Some(0)), now);
  }
}
