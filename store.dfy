/**
 * The main process's persistent store: one configuration record and two
 * lists, written back whole on every change. The encrypted file behind it is
 * modelled as the three in-memory collections it holds.
 */
module Store {
  import opened Wrappers
  import opened Types
  import opened IdLists

  /** A `Partial<Config>`: each field is either supplied or absent. */
  datatype ConfigPatch = ConfigPatch(
    twitchClientId: Option<string>,
    twitchClientSecret: Option<string>,
    downloadPath: Option<string>,
    maxConcurrentDownloads: Option<int>,
    preferredQuality: Option<VideoQuality>)

  const NoChanges := ConfigPatch(None, None, None, None, None)

  function Pick<T>(update: Option<T>, current: T): T
  {
    if update.Some? then update.value else current
  }

  /** `{ ...current, ...updates }` */
  function MergeConfig(c: Config, p: ConfigPatch): Config
  {
    Config(
      Pick(p.twitchClientId, c.twitchClientId),
      Pick(p.twitchClientSecret, c.twitchClientSecret),
      Pick(p.downloadPath, c.downloadPath),
      Pick(p.maxConcurrentDownloads, c.maxConcurrentDownloads),
      Pick(p.preferredQuality, c.preferredQuality))
  }

  /** Later updates win field by field: `{ ...p, ...q }` for two patches. */
  function Combine(p: ConfigPatch, q: ConfigPatch): ConfigPatch
  {
    ConfigPatch(
      if q.twitchClientId.Some? then q.twitchClientId else p.twitchClientId,
      if q.twitchClientSecret.Some? then q.twitchClientSecret else p.twitchClientSecret,
      if q.downloadPath.Some? then q.downloadPath else p.downloadPath,
      if q.maxConcurrentDownloads.Some? then q.maxConcurrentDownloads else p.maxConcurrentDownloads,
      if q.preferredQuality.Some? then q.preferredQuality else p.preferredQuality)
  }

  /** An update overwrites exactly the fields it supplies and keeps every other field. */
  lemma MergeConfigFields(c: Config, p: ConfigPatch)
    ensures var r := MergeConfig(c, p);
      && (p.twitchClientId.Some? ==> r.twitchClientId == p.twitchClientId.value)
      && (p.twitchClientId.None? ==> r.twitchClientId == c.twitchClientId)
      && (p.twitchClientSecret.Some? ==> r.twitchClientSecret == p.twitchClientSecret.value)
      && (p.twitchClientSecret.None? ==> r.twitchClientSecret == c.twitchClientSecret)
      && (p.downloadPath.Some? ==> r.downloadPath == p.downloadPath.value)
      && (p.downloadPath.None? ==> r.downloadPath == c.downloadPath)
      && (p.maxConcurrentDownloads.Some? ==> r.maxConcurrentDownloads == p.maxConcurrentDownloads.value)
      && (p.maxConcurrentDownloads.None? ==> r.maxConcurrentDownloads == c.maxConcurrentDownloads)
      && (p.preferredQuality.Some? ==> r.preferredQuality == p.preferredQuality.value)
      && (p.preferredQuality.None? ==> r.preferredQuality == c.preferredQuality)
  {
  }

  /** An empty update changes nothing, and applying the same update twice is applying it once. */
  lemma MergeConfigIdempotent(c: Config, p: ConfigPatch)
    ensures MergeConfig(c, NoChanges) == c
    ensures MergeConfig(MergeConfig(c, p), p) == MergeConfig(c, p)
  {
  }

  /** Two successive updates equal one update with the later values winning. */
  lemma MergeConfigCompose(c: Config, p: ConfigPatch, q: ConfigPatch)
    ensures MergeConfig(MergeConfig(c, p), q) == MergeConfig(c, Combine(p, q))
  {
  }

  /** The configuration written on first start. */
  function DefaultConfig(downloadPath: string): Config
  {
    Config("", "", downloadPath, 2, Source)
  }

  /** The configuration in effect after start-up: the stored one, or the default when none is stored. */
  function InitialConfig(stored: Option<Config>, defaultDownloadPath: string): (c: Config)
    ensures stored.Some? ==> c == stored.value
    ensures stored.None? ==> c.twitchClientId == "" && c.twitchClientSecret == ""
    ensures stored.None? ==> c.maxConcurrentDownloads == 2 && c.preferredQuality == Source
    ensures stored.None? ==> c.downloadPath == defaultDownloadPath
  {
    if stored.Some? then stored.value else DefaultConfig(defaultDownloadPath)
  }

  class AppStore {
    var config: Config
    var downloads: seq<DownloadTask>
    var scheduledTasks: seq<ScheduledTask>

    /** `initializeStore`: open the persisted collections and write the default configuration when there is none. */
    constructor Open(stored: Option<Config>, storedDownloads: seq<DownloadTask>,
                     storedTasks: seq<ScheduledTask>, defaultDownloadPath: string)
      ensures config == InitialConfig(stored, defaultDownloadPath)
      ensures downloads == storedDownloads && scheduledTasks == storedTasks
    {
      downloads := storedDownloads;
      scheduledTasks := storedTasks;
      if stored.None? {
        config := DefaultConfig(defaultDownloadPath);
      } else {
        config := stored.value;
      }
    }

    /** `updateConfig`: shallow merge of the supplied fields into the stored configuration. */
    method UpdateConfig(updates: ConfigPatch)
      modifies this`config
      ensures config == MergeConfig(old(config), updates)
    {
      var current := config;
      config := MergeConfig(current, updates);
    }

    /** `saveDownload`: replace the first record with the same id, or append a new one. */
    method SaveDownload(download: DownloadTask)
      modifies this`downloads
      ensures downloads == Upsert(old(downloads), DownloadId, download)
    {
      var list := downloads;
      var index := FindIndex(list, DownloadId, download.id);
      if index >= 0 {
        list := list[index := download];
      } else {
        list := list + [download];
      }
      downloads := list;
    }

    /** `removeDownload`: keep every record whose id differs. */
    method RemoveDownload(id: string)
      modifies this`downloads
      ensures downloads == RemoveById(old(downloads), DownloadId, id)
    {
      downloads := RemoveById(downloads, DownloadId, id);
    }

    /** `saveScheduledTask`: the same upsert over the scheduled-task list. */
    method SaveScheduledTask(task: ScheduledTask)
      modifies this`scheduledTasks
      ensures scheduledTasks == Upsert(old(scheduledTasks), ScheduledId, task)
    {
      var list := scheduledTasks;
      var index := FindIndex(list, ScheduledId, task.id);
      if index >= 0 {
        list := list[index := task];
      } else {
        list := list + [task];
      }
      scheduledTasks := list;
    }

    /** `removeScheduledTask`: keep every task whose id differs. */
    method RemoveScheduledTask(id: string)
      modifies this`scheduledTasks
      ensures scheduledTasks == RemoveById(old(scheduledTasks), ScheduledId, id)
    {
      scheduledTasks := RemoveById(scheduledTasks, ScheduledId, id);
    }
  }

  /** A scheduled task saved and read back by id keeps its cron expression, quality and enabled flag. */
  lemma ScheduledTaskRoundTrip(tasks: seq<ScheduledTask>, t: ScheduledTask)
    ensures var back := Lookup(Upsert(tasks, ScheduledId, t), ScheduledId, t.id);
      && back.Some?
      && back.value.cronExpression == t.cronExpression
      && back.value.quality == t.quality
      && back.value.enabled == t.enabled
  {
    LookupAfterUpsert(tasks, ScheduledId, t);
  }
}
