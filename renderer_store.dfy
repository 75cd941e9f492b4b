/**
 * The renderer's application state and its actions. Every action is a pure
 * function from the current state to the next one: a setter replaces one
 * field, and the list actions append, map over matching ids or filter by id.
 */
module RendererStore {
  import opened Wrappers
  import opened Types
  import opened IdLists
  import opened Store

  datatype Tab = SearchTab | DownloadsTab | ScheduledTab | SettingsTab

  datatype AppState = AppState(
    activeTab: Tab,
    config: Option<Config>,
    selectedStreamer: Option<Streamer>,
    vods: seq<Vod>,
    downloads: seq<DownloadTask>,
    scheduledTasks: seq<ScheduledTask>)

  /** The state the renderer starts with. */
  const Initial := AppState(SearchTab, None, None, [], [], [])

  // ---------------------------------------------------------------------------
  // Setters

  function SetActiveTab(s: AppState, tab: Tab): AppState { s.(activeTab := tab) }
  function SetConfig(s: AppState, config: Config): AppState { s.(config := Some(config)) }
  function SetSelectedStreamer(s: AppState, streamer: Option<Streamer>): AppState { s.(selectedStreamer := streamer) }
  function SetVods(s: AppState, vods: seq<Vod>): AppState { s.(vods := vods) }
  function SetDownloads(s: AppState, downloads: seq<DownloadTask>): AppState { s.(downloads := downloads) }
  function SetScheduledTasks(s: AppState, tasks: seq<ScheduledTask>): AppState { s.(scheduledTasks := tasks) }

  /** Each setter changes its own field and nothing else. */
  lemma SettersTouchOneField(s: AppState, tab: Tab, c: Config, st: Option<Streamer>, vs: seq<Vod>,
                             ds: seq<DownloadTask>, ts: seq<ScheduledTask>)
    ensures var r := SetActiveTab(s, tab);
      r.activeTab == tab && r.config == s.config && r.selectedStreamer == s.selectedStreamer
      && r.vods == s.vods && r.downloads == s.downloads && r.scheduledTasks == s.scheduledTasks
    ensures var r := SetConfig(s, c);
      r.activeTab == s.activeTab && r.config == Some(c) && r.selectedStreamer == s.selectedStreamer
      && r.vods == s.vods && r.downloads == s.downloads && r.scheduledTasks == s.scheduledTasks
    ensures var r := SetSelectedStreamer(s, st);
      r.activeTab == s.activeTab && r.config == s.config && r.selectedStreamer == st
      && r.vods == s.vods && r.downloads == s.downloads && r.scheduledTasks == s.scheduledTasks
    ensures var r := SetVods(s, vs);
      r.activeTab == s.activeTab && r.config == s.config && r.selectedStreamer == s.selectedStreamer
      && r.vods == vs && r.downloads == s.downloads && r.scheduledTasks == s.scheduledTasks
    ensures var r := SetDownloads(s, ds);
      r.activeTab == s.activeTab && r.config == s.config && r.selectedStreamer == s.selectedStreamer
      && r.vods == s.vods && r.downloads == ds && r.scheduledTasks == s.scheduledTasks
    ensures var r := SetScheduledTasks(s, ts);
      r.activeTab == s.activeTab && r.config == s.config && r.selectedStreamer == s.selectedStreamer
      && r.vods == s.vods && r.downloads == s.downloads && r.scheduledTasks == ts
  {
  }

  // ---------------------------------------------------------------------------
  // Partial updates

  /**
   * A `Partial<DownloadTask>`: `None` is a key the update does not have. The
   * optional fields take `Some(None)` for a key present with an undefined value.
   */
  datatype TaskPatch = TaskPatch(
    id: Option<string>,
    vodId: Option<string>,
    streamerId: Option<string>,
    streamerName: Option<string>,
    title: Option<string>,
    status: Option<Status>,
    progress: Option<real>,
    totalSize: Option<Option<real>>,
    downloadedSize: Option<Option<real>>,
    error: Option<Option<string>>,
    createdAt: Option<int>,
    completedAt: Option<Option<int>>)

  /** `{ ...d, ...update }` */
  function ApplyTaskPatch(d: DownloadTask, p: TaskPatch): DownloadTask
  {
    DownloadTask(
      Pick(p.id, d.id), Pick(p.vodId, d.vodId), Pick(p.streamerId, d.streamerId),
      Pick(p.streamerName, d.streamerName), Pick(p.title, d.title), Pick(p.status, d.status),
      Pick(p.progress, d.progress), Pick(p.totalSize, d.totalSize), Pick(p.downloadedSize, d.downloadedSize),
      Pick(p.error, d.error), Pick(p.createdAt, d.createdAt), Pick(p.completedAt, d.completedAt))
  }

  /** The update that carries every field of `d`. */
  function FullTaskPatch(d: DownloadTask): TaskPatch
  {
    TaskPatch(Some(d.id), Some(d.vodId), Some(d.streamerId), Some(d.streamerName), Some(d.title), Some(d.status),
              Some(d.progress), Some(d.totalSize), Some(d.downloadedSize), Some(d.error), Some(d.createdAt),
              Some(d.completedAt))
  }

  /** The update with no keys. */
  const NoTaskChanges := TaskPatch(None, None, None, None, None, None, None, None, None, None, None, None)

  /**
   * An update overwrites exactly the fields it supplies: a supplied field takes
   * the supplied value, every other field keeps its value.
   */
  lemma TaskPatchFields(d: DownloadTask, p: TaskPatch)
    ensures var r := ApplyTaskPatch(d, p);
      && (if p.id.Some? then r.id == p.id.value else r.id == d.id)
      && (if p.vodId.Some? then r.vodId == p.vodId.value else r.vodId == d.vodId)
      && (if p.streamerId.Some? then r.streamerId == p.streamerId.value else r.streamerId == d.streamerId)
      && (if p.streamerName.Some? then r.streamerName == p.streamerName.value else r.streamerName == d.streamerName)
      && (if p.title.Some? then r.title == p.title.value else r.title == d.title)
      && (if p.status.Some? then r.status == p.status.value else r.status == d.status)
      && (if p.progress.Some? then r.progress == p.progress.value else r.progress == d.progress)
      && (if p.totalSize.Some? then r.totalSize == p.totalSize.value else r.totalSize == d.totalSize)
      && (if p.downloadedSize.Some? then r.downloadedSize == p.downloadedSize.value else r.downloadedSize == d.downloadedSize)
      && (if p.error.Some? then r.error == p.error.value else r.error == d.error)
      && (if p.createdAt.Some? then r.createdAt == p.createdAt.value else r.createdAt == d.createdAt)
      && (if p.completedAt.Some? then r.completedAt == p.completedAt.value else r.completedAt == d.completedAt)
  {
  }

  /** An update with no keys changes nothing; one carrying all of `x` yields `x`. */
  lemma TaskPatchExtremes(d: DownloadTask, x: DownloadTask)
    ensures ApplyTaskPatch(d, NoTaskChanges) == d
    ensures ApplyTaskPatch(d, FullTaskPatch(x)) == x
  {
  }

  /** `Partial<ScheduledTask>`, in the same form. */
  datatype ScheduledPatch = ScheduledPatch(
    id: Option<string>,
    streamerId: Option<string>,
    streamerName: Option<string>,
    cronExpression: Option<string>,
    quality: Option<VideoQuality>,
    enabled: Option<bool>,
    lastRun: Option<Option<int>>,
    nextRun: Option<Option<int>>)

  function ApplyScheduledPatch(t: ScheduledTask, p: ScheduledPatch): ScheduledTask
  {
    ScheduledTask(
      Pick(p.id, t.id), Pick(p.streamerId, t.streamerId), Pick(p.streamerName, t.streamerName),
      Pick(p.cronExpression, t.cronExpression), Pick(p.quality, t.quality), Pick(p.enabled, t.enabled),
      Pick(p.lastRun, t.lastRun), Pick(p.nextRun, t.nextRun))
  }

  const NoScheduledChanges := ScheduledPatch(None, None, None, None, None, None, None, None)

  /** The same field-by-field overwrite for scheduled tasks. */
  lemma ScheduledPatchFields(t: ScheduledTask, p: ScheduledPatch)
    ensures var r := ApplyScheduledPatch(t, p);
      && (if p.id.Some? then r.id == p.id.value else r.id == t.id)
      && (if p.streamerId.Some? then r.streamerId == p.streamerId.value else r.streamerId == t.streamerId)
      && (if p.streamerName.Some? then r.streamerName == p.streamerName.value else r.streamerName == t.streamerName)
      && (if p.cronExpression.Some? then r.cronExpression == p.cronExpression.value else r.cronExpression == t.cronExpression)
      && (if p.quality.Some? then r.quality == p.quality.value else r.quality == t.quality)
      && (if p.enabled.Some? then r.enabled == p.enabled.value else r.enabled == t.enabled)
      && (if p.lastRun.Some? then r.lastRun == p.lastRun.value else r.lastRun == t.lastRun)
      && (if p.nextRun.Some? then r.nextRun == p.nextRun.value else r.nextRun == t.nextRun)
    ensures ApplyScheduledPatch(t, NoScheduledChanges) == t
  {
  }

  // ---------------------------------------------------------------------------
  // List actions

  function AddDownload(s: AppState, task: DownloadTask): AppState
  {
    s.(downloads := s.downloads + [task])
  }

  function UpdateDownload(s: AppState, id: string, update: TaskPatch): AppState
  {
    s.(downloads := MapWhere(s.downloads, DownloadId, id, d => ApplyTaskPatch(d, update)))
  }

  function RemoveDownload(s: AppState, id: string): AppState
  {
    s.(downloads := RemoveById(s.downloads, DownloadId, id))
  }

  function AddScheduledTask(s: AppState, task: ScheduledTask): AppState
  {
    s.(scheduledTasks := s.scheduledTasks + [task])
  }

  function UpdateScheduledTask(s: AppState, id: string, update: ScheduledPatch): AppState
  {
    s.(scheduledTasks := MapWhere(s.scheduledTasks, ScheduledId, id, t => ApplyScheduledPatch(t, update)))
  }

  function RemoveScheduledTask(s: AppState, id: string): AppState
  {
    s.(scheduledTasks := RemoveById(s.scheduledTasks, ScheduledId, id))
  }

  /** Adding appends at the end and keeps every existing entry and every other field. */
  lemma AddDownloadAppends(s: AppState, task: DownloadTask)
    ensures var r := AddDownload(s, task);
      && |r.downloads| == |s.downloads| + 1 && r.downloads[|s.downloads|] == task
      && r.downloads[..|s.downloads|] == s.downloads
      && r == s.(downloads := r.downloads)
  {
  }

  /**
   * An update patches every entry with the id and only those, keeps length
   * and order, and leaves the list as it was when the id is unknown.
   */
  lemma UpdateDownloadPointwise(s: AppState, id: string, update: TaskPatch)
    ensures var r := UpdateDownload(s, id, update);
      && |r.downloads| == |s.downloads|
      && (forall i :: 0 <= i < |s.downloads| && s.downloads[i].id == id ==>
            r.downloads[i] == ApplyTaskPatch(s.downloads[i], update))
      && (forall i :: 0 <= i < |s.downloads| && s.downloads[i].id != id ==> r.downloads[i] == s.downloads[i])
      && (!HasKey(s.downloads, DownloadId, id) ==> r == s)
      && r == s.(downloads := r.downloads)
  {
    MapWherePointwise(s.downloads, DownloadId, id, d => ApplyTaskPatch(d, update));
    if !HasKey(s.downloads, DownloadId, id) {
      MapWhereAbsent(s.downloads, DownloadId, id, d => ApplyTaskPatch(d, update));
    }
  }

  /** Removal drops every entry with the id, keeps the rest in order, and a second removal changes nothing. */
  lemma RemoveDownloadFilters(s: AppState, id: string)
    ensures var r := RemoveDownload(s, id);
      && (forall d :: d in r.downloads <==> d in s.downloads && d.id != id)
      && RemoveDownload(r, id) == r
      && r == s.(downloads := r.downloads)
  {
    RemoveByIdMembers(s.downloads, DownloadId, id);
    RemoveByIdIdempotent(s.downloads, DownloadId, id);
  }

  /** The scheduled-task actions behave the same way on their list, and touch no other field. */
  lemma ScheduledTaskActions(s: AppState, task: ScheduledTask, id: string, update: ScheduledPatch)
    ensures var r := AddScheduledTask(s, task);
      && |r.scheduledTasks| == |s.scheduledTasks| + 1 && r.scheduledTasks[|s.scheduledTasks|] == task
      && r.scheduledTasks[..|s.scheduledTasks|] == s.scheduledTasks
      && r == s.(scheduledTasks := r.scheduledTasks)
    ensures var r := UpdateScheduledTask(s, id, update);
      && |r.scheduledTasks| == |s.scheduledTasks|
      && (forall i :: 0 <= i < |s.scheduledTasks| && s.scheduledTasks[i].id == id ==>
            r.scheduledTasks[i] == ApplyScheduledPatch(s.scheduledTasks[i], update))
      && (forall i :: 0 <= i < |s.scheduledTasks| && s.scheduledTasks[i].id != id ==>
            r.scheduledTasks[i] == s.scheduledTasks[i])
      && (!HasKey(s.scheduledTasks, ScheduledId, id) ==> r == s)
      && r == s.(scheduledTasks := r.scheduledTasks)
    ensures var r := RemoveScheduledTask(s, id);
      && (forall t :: t in r.scheduledTasks <==> t in s.scheduledTasks && t.id != id)
      && RemoveScheduledTask(r, id) == r
      && r == s.(scheduledTasks := r.scheduledTasks)
  {
    MapWherePointwise(s.scheduledTasks, ScheduledId, id, t => ApplyScheduledPatch(t, update));
    if !HasKey(s.scheduledTasks, ScheduledId, id) {
      MapWhereAbsent(s.scheduledTasks, ScheduledId, id, t => ApplyScheduledPatch(t, update));
    }
    RemoveByIdMembers(s.scheduledTasks, ScheduledId, id);
    RemoveByIdIdempotent(s.scheduledTasks, ScheduledId, id);
  }

  /**
   * The renderer's list follows the persisted one: when both hold the same
   * records with unique ids, saving a record in the main process and either
   * updating it with all its fields (known id) or adding it (new id) in the
   * renderer leaves the two lists equal.
   */
  lemma RendererFollowsSave(s: AppState, x: DownloadTask)
    requires UniqueKeys(s.downloads, DownloadId)
    ensures HasKey(s.downloads, DownloadId, x.id) ==>
      UpdateDownload(s, x.id, FullTaskPatch(x)).downloads == Upsert(s.downloads, DownloadId, x)
    ensures !HasKey(s.downloads, DownloadId, x.id) ==>
      AddDownload(s, x).downloads == Upsert(s.downloads, DownloadId, x)
  {
    var xs := s.downloads;
    if HasKey(xs, DownloadId, x.id) {
      var i := FindIndex(xs, DownloadId, x.id);
      var r := UpdateDownload(s, x.id, FullTaskPatch(x)).downloads;
      MapWherePointwise(xs, DownloadId, x.id, d => ApplyTaskPatch(d, FullTaskPatch(x)));
      forall j | 0 <= j < |xs|
        ensures r[j] == xs[i := x][j]
      {
        if j == i {
          assert ApplyTaskPatch(xs[j], FullTaskPatch(x)) == x;
        } else {
          assert xs[j].id != x.id;
        }
      }
    }
  }
}
