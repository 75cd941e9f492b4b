/**
 * Recurring downloads: a map from scheduled-task id to a live trigger. A
 * trigger holds the task object it was installed with; the fire handler and
 * the next-run update mutate that object in place, so a trigger is modelled by
 * the task value it currently holds.
 *
 * Cron validation and the next-run computation belong to libraries that are
 * not part of this model; they are the parameters `validate` and
 * `nextRunTime`. A trigger firing is an explicit `Fire` event.
 */
module Scheduler {
  import opened Wrappers
  import opened Types
  import opened IdLists
  import opened Store
  import opened Downloader
  import YtDlp

  /** The active triggers together with the persisted scheduled-task list. */
  datatype Schedules = Schedules(jobs: map<string, ScheduledTask>, saved: seq<ScheduledTask>)

  /**
   * The task a trigger holds right after `scheduleTask`, or `None` when no
   * trigger is installed: a disabled task or an invalid cron expression gets
   * none; otherwise the next run is recorded when one can be computed.
   */
  function Trigger(task: ScheduledTask, valid: bool, nextRun: Option<int>): (r: Option<ScheduledTask>)
    ensures r.Some? <==> task.enabled && valid
    ensures r.Some? ==> r.value.id == task.id && r.value.enabled
    ensures r.Some? ==> r.value == task.(nextRun := if nextRun.Some? then nextRun else task.nextRun)
  {
    if !task.enabled || !valid then None
    else if nextRun.Some? then Some(task.(nextRun := nextRun))
    else Some(task)
  }

  /**
   * `scheduleTask` as a state step: the trigger for the task's id is stopped
   * first, then a new one is installed when `Trigger` gives one, and the task
   * is persisted only when it got a trigger and a next run.
   */
  function ScheduleStep(s: Schedules, task: ScheduledTask, valid: bool, nextRun: Option<int>): Schedules
  {
    var cleared := s.jobs - {task.id};
    var t := Trigger(task, valid, nextRun);
    if t.None? then Schedules(cleared, s.saved)
    else Schedules(cleared[task.id := t.value], if nextRun.Some? then Upsert(s.saved, ScheduledId, t.value) else s.saved)
  }

  /** `initializeScheduler`: `scheduleTask` for each stored task that is enabled, in list order. */
  function InitializeFrom(s: Schedules, tasks: seq<ScheduledTask>, validate: string -> bool,
                          nextRunTime: string -> Option<int>): Schedules
    decreases |tasks|
  {
    if tasks == [] then s
    else
      var prev := InitializeFrom(s, tasks[..|tasks| - 1], validate, nextRunTime);
      var t := tasks[|tasks| - 1];
      if t.enabled then ScheduleStep(prev, t, validate(t.cronExpression), nextRunTime(t.cronExpression))
      else prev
  }

  /** What is left of an earlier trigger for the same id does not matter: it is stopped first. */
  lemma ScheduleStopsExisting(s: Schedules, task: ScheduledTask, valid: bool, nextRun: Option<int>)
    ensures ScheduleStep(s, task, valid, nextRun) == ScheduleStep(Schedules(s.jobs - {task.id}, s.saved), task, valid, nextRun)
  {
    assert s.jobs - {task.id} - {task.id} == s.jobs - {task.id};
  }

  /** Scheduling the same task again leaves the triggers as they were after the first time. */
  lemma ScheduleIdempotent(s: Schedules, task: ScheduledTask, valid: bool, nextRun: Option<int>)
    ensures ScheduleStep(ScheduleStep(s, task, valid, nextRun), task, valid, nextRun).jobs
         == ScheduleStep(s, task, valid, nextRun).jobs
  {
    var once := ScheduleStep(s, task, valid, nextRun);
    var twice := ScheduleStep(once, task, valid, nextRun);
    assert once.jobs - {task.id} == s.jobs - {task.id};
  }

  /**
   * A disabled task, or one whose expression does not validate, ends with no
   * trigger and is not persisted; an installed trigger holds the task, with
   * the computed next run when there is one. Triggers of other ids are kept.
   */
  lemma ScheduleOutcome(s: Schedules, task: ScheduledTask, valid: bool, nextRun: Option<int>)
    ensures var r := ScheduleStep(s, task, valid, nextRun);
      && (!task.enabled || !valid ==> task.id !in r.jobs && r.saved == s.saved)
      && (task.enabled && valid ==>
            && task.id in r.jobs
            && r.jobs[task.id] == task.(nextRun := if nextRun.Some? then nextRun else task.nextRun))
      && (nextRun.None? ==> r.saved == s.saved)
      && (task.enabled && valid && nextRun.Some? ==>
            Lookup(r.saved, ScheduledId, task.id) == Some(task.(nextRun := nextRun)))
      && (forall id :: id != task.id ==> (id in r.jobs <==> id in s.jobs))
      && (forall id :: id != task.id && id in s.jobs ==> r.jobs[id] == s.jobs[id])
  {
    if task.enabled && valid && nextRun.Some? {
      LookupAfterUpsert(s.saved, ScheduledId, task.(nextRun := nextRun));
    }
  }

  /**
   * With unique stored ids, initialisation leaves a trigger for an enabled
   * stored task exactly when its expression validates. A disabled task is
   * skipped altogether, so its id, like an id that is not stored, keeps
   * whatever trigger it had.
   */
  lemma {:induction false} InitializeFromKeys(s: Schedules, tasks: seq<ScheduledTask>,
                                              validate: string -> bool, nextRunTime: string -> Option<int>)
    requires UniqueKeys(tasks, ScheduledId)
    ensures var r := InitializeFrom(s, tasks, validate, nextRunTime);
      forall i :: 0 <= i < |tasks| ==>
        (tasks[i].id in r.jobs <==> if tasks[i].enabled then validate(tasks[i].cronExpression) else tasks[i].id in s.jobs)
    ensures var r := InitializeFrom(s, tasks, validate, nextRunTime);
      forall id :: !HasKey(tasks, ScheduledId, id) ==> (id in r.jobs <==> id in s.jobs)
    decreases |tasks|
  {
    if tasks != [] {
      var init := tasks[..|tasks| - 1];
      var t := tasks[|tasks| - 1];
      assert UniqueKeys(init, ScheduledId);
      InitializeFromKeys(s, init, validate, nextRunTime);
      var prev := InitializeFrom(s, init, validate, nextRunTime);
      var r := InitializeFrom(s, tasks, validate, nextRunTime);
      ScheduleOutcome(prev, t, validate(t.cronExpression), nextRunTime(t.cronExpression));
      assert !t.enabled ==> r == prev;
      assert !HasKey(init, ScheduledId, t.id) by {
        forall j | 0 <= j < |init|
          ensures init[j].id != t.id
        {
          assert init[j] == tasks[j];
        }
      }
      forall i | 0 <= i < |tasks|
        ensures tasks[i].id in r.jobs <==> if tasks[i].enabled then validate(tasks[i].cronExpression) else tasks[i].id in s.jobs
      {
        if i < |tasks| - 1 {
          assert init[i] == tasks[i];
          assert tasks[i].id != t.id;
        }
      }
      forall id | !HasKey(tasks, ScheduledId, id)
        ensures id in r.jobs <==> id in s.jobs
      {
        assert id != t.id;
        assert !HasKey(init, ScheduledId, id) by {
          forall j | 0 <= j < |init|
            ensures init[j].id != id
          {
            assert init[j] == tasks[j];
          }
        }
      }
    }
  }

  /** At start-up, with no trigger yet, exactly the enabled stored tasks with a valid expression get one. */
  lemma InitializeFromEmpty(saved: seq<ScheduledTask>, validate: string -> bool, nextRunTime: string -> Option<int>)
    requires UniqueKeys(saved, ScheduledId)
    ensures var r := InitializeFrom(Schedules(map[], saved), saved, validate, nextRunTime);
      && (forall i :: 0 <= i < |saved| ==> (saved[i].id in r.jobs <==> saved[i].enabled && validate(saved[i].cronExpression)))
      && (forall id :: id in r.jobs ==> HasKey(saved, ScheduledId, id))
  {
    InitializeFromKeys(Schedules(map[], saved), saved, validate, nextRunTime);
  }

  // ---------------------------------------------------------------------------
  // The fire handler's decision

  /** Some stored download of this VOD has completed; records in any other status do not count. */
  predicate IsAlreadyDownloaded(downloads: seq<DownloadTask>, vodId: string)
  {
    exists i :: 0 <= i < |downloads| && downloads[i].vodId == vodId && downloads[i].status == Completed
  }

  datatype Decision = NoVods | AlreadyDownloaded(vod: Vod) | Download(vod: Vod)

  /** Only the newest VOD is considered, and it is downloaded unless a completed record of it exists. */
  function Decide(vods: seq<Vod>, downloads: seq<DownloadTask>): (d: Decision)
    ensures d.NoVods? <==> vods == []
    ensures !d.NoVods? ==> d.vod == vods[0]
    ensures d.Download? <==> vods != [] && !IsAlreadyDownloaded(downloads, vods[0].id)
  {
    if vods == [] then NoVods
    else if IsAlreadyDownloaded(downloads, vods[0].id) then AlreadyDownloaded(vods[0])
    else Download(vods[0])
  }

  /** VODs after the first do not influence the decision. */
  lemma DecideIgnoresOlderVods(latest: Vod, older: seq<Vod>, downloads: seq<DownloadTask>)
    ensures Decide([latest] + older, downloads) == Decide([latest], downloads)
  {
    assert ([latest] + older)[0] == latest;
  }

  /** A stored record that is not completed (pending, downloading or failed) never blocks a download. */
  lemma IncompleteRecordDoesNotBlock(vods: seq<Vod>, downloads: seq<DownloadTask>, d: DownloadTask)
    requires d.status != Completed
    ensures Decide(vods, downloads + [d]) == Decide(vods, downloads)
  {
    if vods != [] {
      var ds := downloads + [d];
      if IsAlreadyDownloaded(ds, vods[0].id) {
        var i :| 0 <= i < |ds| && ds[i].vodId == vods[0].id && ds[i].status == Completed;
        assert i < |downloads| && ds[i] == downloads[i];
      }
      if IsAlreadyDownloaded(downloads, vods[0].id) {
        var i :| 0 <= i < |downloads| && downloads[i].vodId == vods[0].id && downloads[i].status == Completed;
        assert ds[i] == downloads[i];
      }
    }
  }

  /** Once a completed record of the newest VOD is stored, a fire does not download it again. */
  lemma CompletedRecordBlocks(vods: seq<Vod>, downloads: seq<DownloadTask>, d: DownloadTask)
    requires vods != [] && d.vodId == vods[0].id && d.status == Completed
    ensures Decide(vods, Upsert(downloads, DownloadId, d)) == AlreadyDownloaded(vods[0])
  {
    LookupAfterUpsert(downloads, DownloadId, d);
    var ds := Upsert(downloads, DownloadId, d);
    var i := FindIndex(ds, DownloadId, d.id);
    assert ds[i] == d;
  }

  /** What one fire of a trigger did. */
  datatype FireResult = NoVodsFound | SkippedAlreadyDownloaded | Enqueued(handle: nat) | Errored(message: string)

  class Scheduler {
    const downloader: Downloader
    const validate: string -> bool
    const nextRunTime: string -> Option<int>
    var activeJobs: map<string, ScheduledTask>

    /** Every trigger is stored under its task's id and holds an enabled task with a valid expression. */
    ghost predicate Valid()
      reads this
    {
      forall id :: id in activeJobs ==>
        activeJobs[id].id == id && activeJobs[id].enabled && validate(activeJobs[id].cronExpression)
    }

    constructor (downloader: Downloader, validate: string -> bool, nextRunTime: string -> Option<int>)
      ensures this.downloader == downloader && this.validate == validate && this.nextRunTime == nextRunTime
      ensures activeJobs == map[] && Valid()
    {
      this.downloader := downloader;
      this.validate := validate;
      this.nextRunTime := nextRunTime;
      activeJobs := map[];
    }

    /** `scheduleTask`, proved against `ScheduleStep`. */
    method ScheduleTask(task: ScheduledTask)
      requires Valid()
      modifies this`activeJobs, downloader.store`scheduledTasks
      ensures Valid()
      ensures Schedules(activeJobs, downloader.store.scheduledTasks)
           == ScheduleStep(Schedules(old(activeJobs), old(downloader.store.scheduledTasks)),
                           task, validate(task.cronExpression), nextRunTime(task.cronExpression))
    {
      StopTask(task.id);
      if !task.enabled {
        return;
      }
      if !validate(task.cronExpression) {
        return;
      }
      var t := task;
      activeJobs := activeJobs[t.id := t];
      var nextRun := nextRunTime(t.cronExpression);
      if nextRun.Some? {
        t := t.(nextRun := nextRun);
        activeJobs := activeJobs[t.id := t];
        downloader.store.SaveScheduledTask(t);
      }
    }

    /** `initializeScheduler`: schedule the enabled stored tasks one by one. */
    method InitializeScheduler()
      requires Valid()
      modifies this`activeJobs, downloader.store`scheduledTasks
      ensures Valid()
      ensures var tasks := old(downloader.store.scheduledTasks);
        Schedules(activeJobs, downloader.store.scheduledTasks)
          == InitializeFrom(Schedules(old(activeJobs), tasks), tasks, validate, nextRunTime)
    {
      var tasks := downloader.store.scheduledTasks;
      var i := 0;
      while i < |tasks|
        invariant 0 <= i <= |tasks| && Valid()
        invariant Schedules(activeJobs, downloader.store.scheduledTasks)
               == InitializeFrom(Schedules(old(activeJobs), tasks), tasks[..i], validate, nextRunTime)
      {
        assert tasks[..i + 1][..i] == tasks[..i];
        if tasks[i].enabled {
          ScheduleTask(tasks[i]);
        }
        i := i + 1;
      }
      assert tasks[..|tasks|] == tasks;
    }

    /** `stopTask`: delete the trigger for `id`, if there is one. */
    method StopTask(id: string)
      requires Valid()
      modifies this`activeJobs
      ensures Valid() && activeJobs == old(activeJobs) - {id}
      ensures id !in old(activeJobs) ==> activeJobs == old(activeJobs)
    {
      if id in activeJobs {
        activeJobs := activeJobs - {id};
      }
    }

    /** `stopAllTasks` */
    method StopAllTasks()
      modifies this`activeJobs
      ensures Valid() && activeJobs == map[]
    {
      activeJobs := map[];
    }

    /**
     * A trigger fires at `now`: its task's last run is recorded and persisted
     * first, then the recent VODs are fetched (`vods`, the outcome of asking
     * for the five most recent) and the newest one is enqueued unless it
     * was already downloaded (`lookup` is the outcome of the VOD lookup the
     * download starts with). Every error is caught and ends the fire.
     */
    method Fire(id: string, now: int, vods: Result<seq<Vod>, string>, lookup: Result<Option<Vod>, string>)
      returns (r: FireResult)
      requires Valid() && id in activeJobs && downloader.Valid()
      modifies this`activeJobs, downloader.store`scheduledTasks
      modifies downloader`jobs, downloader`waiting, downloader.store`downloads
      ensures Valid() && downloader.Valid()
      ensures var task := old(activeJobs[id]).(lastRun := Some(now));
        && activeJobs == old(activeJobs)[id := task]
        && downloader.store.scheduledTasks == Upsert(old(downloader.store.scheduledTasks), ScheduledId, task)
      ensures vods.Failure? ==> r == Errored(vods.error)
      ensures vods.Success? ==>
        var decision := Decide(vods.value, old(downloader.store.downloads));
        && (decision.NoVods? <==> r == NoVodsFound)
        && (decision.AlreadyDownloaded? <==> r == SkippedAlreadyDownloaded)
        && (decision.Download? <==> r.Enqueued? || r.Errored?)
        && (decision.Download? && r.Errored? ==>
              r == Errored(if lookup.Failure? then lookup.error else VodNotFound))
      ensures r.Enqueued? ==>
        var t := old(activeJobs[id]);
        && vods.Success? && vods.value != [] && lookup.Success? && lookup.value.Some?
        && var pending := PendingTask(vods.value[0].id, t.streamerId, t.streamerName, lookup.value.value.title, now);
        && r.handle == old(|downloader.jobs|)
        && downloader.jobs == old(downloader.jobs)
             + [Job(pending, lookup.value.value, t.quality, downloader.store.config.downloadPath, YtDlp.InitialParser, Queued)]
        && downloader.waiting == old(downloader.waiting) + [r.handle]
        && downloader.store.downloads == Upsert(old(downloader.store.downloads), DownloadId, pending)
      ensures !r.Enqueued? ==>
        && downloader.jobs == old(downloader.jobs) && downloader.waiting == old(downloader.waiting)
        && downloader.store.downloads == old(downloader.store.downloads)
    {
      var task := activeJobs[id].(lastRun := Some(now));
      activeJobs := activeJobs[id := task];
      downloader.store.SaveScheduledTask(task);
      if vods.Failure? {
        return Errored(vods.error);
      }
      var decision := Decide(vods.value, downloader.store.downloads);
      match decision {
        case NoVods =>
          r := NoVodsFound;
        case AlreadyDownloaded(_) =>
          r := SkippedAlreadyDownloaded;
        case Download(latest) =>
          var started := downloader.DownloadVOD(latest.id, task.streamerId, task.streamerName, task.quality, now, lookup);
          if started.Success? {
            r := Enqueued(started.value);
          } else {
            r := Errored(started.error);
          }
      }
    }
  }
}
