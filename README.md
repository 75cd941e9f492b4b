# twitch-backup core, modelled in Dafny

twitch-backup is a desktop application. It searches Twitch for streamers,
lists their past broadcasts (VODs) and downloads them with the external
`yt-dlp` program. Downloads run through a queue with a bounded number of
jobs at a time. Recurring "scheduled tasks" download each streamer's newest
VOD on a cron schedule. The configuration, the download records and the
scheduled tasks are persisted in a key-value store, and the user interface
mirrors them in a client-side state store.

This project models the main-process core and the interface's state store:

- `types.dfy` (module `Types`): the shared records `Config`, `Streamer`,
  `Vod`, `DownloadTask` and `ScheduledTask`, the download `Status` and the
  `VideoQuality` choices.
- `id_lists.dfy` (module `IdLists`): the lists keyed by `id` that both
  stores keep. It covers find-by-id, insert-or-replace (`Upsert`),
  filter-out-by-id and map-where-id-matches.
- `store.dfy` (module `Store`): the persisted store as a class `AppStore`.
  It covers the configuration defaults, the shallow merge of configuration
  updates, and saving and removing downloads and scheduled tasks.
- `naming.dfy` (module `Naming`): the task id (`<vodId>-<millis>`), the
  sanitised title and the output file name. The sanitiser works on UTF-16
  code units, as the JavaScript pattern does.
- `yt_dlp.dfy` (module `YtDlp`): the downloader's argument list, the
  progress parser folded over its output, size units, and how the process's
  end becomes success or an error message.
- `downloader.dfy` (module `Downloader`): the download queue as a class.
  It holds the jobs, the waiting and running queue, the concurrency bound,
  the `activeDownloads` map of cancellable processes and the progress
  callback. Every step of a job's life is a method: queueing, start, output
  chunk, process end and cancellation.
- `scheduler.dfy` (module `Scheduler`): the map of active cron triggers as a
  class. It covers scheduling, start-up initialisation, stopping, and what a
  trigger does when it fires.
- `twitch_api.dfy` (module `TwitchApi`): the cached app access token and
  the API request with its single retry after a 401 reply, as a class
  `TwitchClient`. The outcomes of HTTP calls are parameters, and every call
  made is appended to a call log.
- `renderer_store.dfy` (module `RendererStore`): the interface store as
  pure state-to-state functions.

A job's task record is shared between the queued job and the
`activeDownloads` entry. The model expresses that sharing with job handles:
positions in `Downloader.jobs`. Everything the store persists is stated
against `IdLists.Upsert` and `IdLists.RemoveById`.

The model follows the code in these places:

- Cancelling a job that is still waiting in the queue returns `false`, and
  the job runs later. Only a task with a spawned process is in
  `activeDownloads`.
- A cancelled process that still exits with code 0 moves its record from
  failed to completed. The cancellation message stays in `error`
  (`Downloader.CancelRacingCleanExit`).
- A cancelled process that is killed reports code `null`. Its record's
  error becomes "yt-dlp exited with code null" and no longer reads
  "Cancelled by user" (`Downloader.CancelThenKilled`).
- A fire records `lastRun` but does not recompute `nextRun`.

## Model

| member | source | states |
|---|---|---|
| IdLists.FindIndex | src/main/store.ts:68 | the index is the first position whose id matches, and it is -1 exactly when no element has the id |
| IdLists.Lookup | src/main/store.ts:62-68 | a record is found exactly when one with that id is stored, and the record found carries that id |
| IdLists.UpsertAppendsNew | src/main/store.ts:72-74 | saving a record whose id is not stored appends it at the end |
| IdLists.UpsertReplacesFirst | src/main/store.ts:70-71 | saving a record whose id is stored replaces the first record with that id and keeps the length |
| IdLists.LookupAfterUpsert | src/main/store.ts:66-77 | after a save, looking its id up returns the saved record |
| IdLists.LookupOtherAfterUpsert | src/main/store.ts:66-77 | a save does not change what any other id looks up to |
| IdLists.UpsertKeepsUnique | src/main/store.ts:66-77 | a save keeps the ids of the list distinct |
| IdLists.UpsertAbsorbs | src/main/store.ts:66-77 | saving twice under the same id is the same as saving the second record once |
| IdLists.RemoveByIdMembers | src/main/store.ts:79-82 | removal keeps exactly the records with another id, leaves none with the id and never grows the list |
| IdLists.RemoveByIdConcat | src/main/store.ts:80 | removal distributes over concatenation, so the order of the kept records is preserved |
| IdLists.RemoveByIdAbsent | src/main/store.ts:79-82 | removing an id that is not stored changes nothing |
| IdLists.RemoveByIdIdempotent | src/main/store.ts:79-82 | removing the same id twice is the same as removing it once |
| IdLists.LookupAfterRemove | src/main/store.ts:79-82 | after removal the id is no longer found |
| IdLists.MapWherePointwise | src/renderer/store/index.ts:53-55 | an update keeps the length, applies the patch at every position with the id and leaves all other positions unchanged |
| IdLists.MapWhereAbsent | src/renderer/store/index.ts:53-55 | an update for an id that is not stored changes nothing |
| Store.MergeConfigFields | src/main/store.ts:57-60 | each configuration field takes the update's value when the update has one, and keeps the current one otherwise |
| Store.MergeConfigIdempotent | src/main/store.ts:57-60 | an empty update changes nothing, and applying the same update twice equals applying it once |
| Store.MergeConfigCompose | src/main/store.ts:57-60 | two updates in a row equal one update that combines them, the later one winning |
| Store.InitialConfig | src/main/store.ts:35-51 | a stored configuration is kept; otherwise the defaults apply: empty credentials, two concurrent downloads, source quality and the default download folder |
| Store.AppStore.Open | src/main/store.ts:35-51 | the store opens with the initial configuration and the stored download and scheduled-task lists |
| Store.AppStore.UpdateConfig | src/main/store.ts:57-60 | the new configuration is the old one merged with the update |
| Store.AppStore.SaveDownload | src/main/store.ts:66-77 | the download list becomes the insert-or-replace of the record by id |
| Store.AppStore.RemoveDownload | src/main/store.ts:79-82 | the download list loses every record with the id, and nothing else changes |
| Store.AppStore.SaveScheduledTask | src/main/store.ts:88-99 | the scheduled-task list becomes the insert-or-replace of the task by id |
| Store.AppStore.RemoveScheduledTask | src/main/store.ts:101-103 | the scheduled-task list loses every task with the id |
| Store.ScheduledTaskRoundTrip | src/main/store.ts:88-99 | a saved scheduled task is read back unchanged under its id |
| Naming.Utf16LengthBounds | src/main/downloader.ts:80 | a string's JavaScript length in UTF-16 code units lies between its character count and twice that, and equals the count inside the Basic Multilingual Plane |
| Naming.SafeTitleShape | src/main/downloader.ts:80 | the sanitised title is as long as the title in UTF-16 code units and is made of lower-case ASCII letters, digits and underscores only |
| Naming.SafeTitleConcat | src/main/downloader.ts:80 | the title is sanitised character by character, so the parts of a title are sanitised independently |
| Naming.SafeTitleBmp | src/main/downloader.ts:80 | inside the Basic Multilingual Plane every ASCII letter or digit is kept, lower-cased, and every other character becomes one underscore |
| Naming.SafeTitleWideChar | src/main/downloader.ts:80 | a character outside the Basic Multilingual Plane, a surrogate pair to the pattern, becomes two underscores |
| Naming.SafeTitleEmojiExample | src/main/downloader.ts:80 | the title "🎉 Win" is sanitised to `___win` |
| Naming.SafeTitleIdempotent | src/main/downloader.ts:80 | sanitising a sanitised title changes nothing |
| Naming.DatePart | src/main/downloader.ts:79 | the date part is the longest prefix of the ISO timestamp without a `T`: it stops at the first `T`, or takes the whole text when there is none |
| Naming.FileNameDeterminesVod | src/main/downloader.ts:81 | two equal file names belong to the same VOD id, when VOD ids contain no underscore |
| Naming.NatToStringDigits | src/main/downloader.ts:41 | a number's decimal text is non-empty and made of digits only |
| Naming.TaskIdShape | src/main/downloader.ts:41 | a task id is the VOD id, a dash, and a non-empty run of decimal digits |
| Naming.NatToStringInjective | src/main/downloader.ts:41 | distinct numbers render as distinct decimal texts |
| Naming.TaskIdInjective | src/main/downloader.ts:41 | for one VOD, two clock readings at or after the epoch give two different task ids, so the digits are the reading itself |
| YtDlp.ReplaceFirstSkipsPrefix | src/main/downloader.ts:142 | a prefix that cannot start the pattern is kept as it is, and replacing goes on after it |
| YtDlp.StripResolutionSuffix | src/main/downloader.ts:142 | dropping `p60` and then `p` from a height followed by `p` or `p60` leaves the height |
| YtDlp.MaxHeightOfResolution | src/main/downloader.ts:138-144 | every resolution quality yields its pixel height as the format's maximum height |
| YtDlp.BuildArgs | src/main/downloader.ts:129-144 | the argument list is url, `-o` and the path, `--no-part`, `--no-playlist` and four fragments, then nothing for source, `-f bestaudio` for audio only, or a maximum-height selector |
| YtDlp.ParseSizeUnits | src/main/downloader.ts:198-206 | KiB scales by 1024, MiB by 1024² and GiB by 1024³, and any other unit leaves the number as it is |
| YtDlp.ParseSizeMonotone | src/main/downloader.ts:198-206 | sizes are never negative, and a larger reading in the same unit is never a smaller size |
| YtDlp.Step | src/main/downloader.ts:160-177 | a percentage replaces the remembered one; a size pair replaces both sizes and emits exactly one event with the remembered percentage; a chunk without sizes emits nothing |
| YtDlp.FeedEmitsOnePerSizedChunk | src/main/downloader.ts:160-177 | over any output stream there is exactly one progress event per chunk that carries a size pair |
| YtDlp.FeedRemembersPercent | src/main/downloader.ts:165-168 | the remembered percentage after a stream is that of the last chunk carrying one, read from the end of the stream, or the starting one when none does |
| YtDlp.PercentCarriedToSizeChunk | src/main/downloader.ts:165-176 | a percentage seen in one chunk is reported with the sizes of a later chunk |
| YtDlp.KilledProcessMessage | src/main/downloader.ts:188 | a process that ended by a signal (code `null`) fails with "yt-dlp exited with code null" |
| YtDlp.Finish | src/main/downloader.ts:183-194 | exit code 0 succeeds and emits a final 100% event with the last total as both sizes; any other code fails with the exit message; a process error fails with its message |
| YtDlp.FeedTotalIsLastSized | src/main/downloader.ts:171-176 | after any stream the remembered total is the parsed total of the last chunk that carries a size pair, or the starting total when none does |
| YtDlp.FinalTotalIsLastParsed | src/main/downloader.ts:183-186 | after a clean exit both sizes of the final event are the total of the last size pair in the output, or 0 when there was none |
| YtDlp.NoSizeKeepsTotal | src/main/downloader.ts:171-176 | a stream without size pairs leaves the total as it was |
| Downloader.PendingTask | src/main/downloader.ts:51-60 | a new record has the task id, the VOD id, status pending, progress 0 and no error or completion time |
| Downloader.AdvanceAppend | src/main/downloader.ts:69 | queueing a new job keeps every earlier job and lets no status move outside the allowed lifecycle |
| Downloader.AdvanceUpdate | src/main/downloader.ts:71-113 | changing one record by an allowed status move keeps every status history allowed |
| Downloader.InvariantAppend | src/main/downloader.ts:63-69 | a new queued job at the end of the waiting queue keeps the queue invariant |
| Downloader.InvariantRetask | src/main/downloader.ts:90-99 | rewriting a job's record without changing its phase or status keeps the queue invariant |
| Downloader.InvariantDrop | src/main/downloader.ts:208-222 | deleting a task id from the active map keeps the queue invariant |
| Downloader.InvariantSpawn | src/main/downloader.ts:147-154 | moving the oldest waiting job to the running set as spawned, and registering it, keeps the queue invariant |
| Downloader.InvariantSettleWaiting | src/main/downloader.ts:109-115 | settling the oldest waiting job with a failure before its spawn keeps the queue invariant |
| Downloader.InvariantClose | src/main/downloader.ts:102-115 | settling a running job, freeing its slot and deleting its entry keeps the queue invariant |
| Downloader.Downloader.constructor | src/main/downloader.ts:13-26 | the queue starts empty with concurrency 2, no active downloads and no callback |
| Downloader.Downloader.SetProgressCallback | src/main/downloader.ts:31-33 | the callback is registered or cleared, and nothing else changes |
| Downloader.Downloader.DownloadVOD | src/main/downloader.ts:35-69 | a failed lookup or a missing VOD fails with its message and changes nothing; otherwise a pending record is persisted and a queued job is appended to the waiting queue |
| Downloader.Downloader.StartNext | src/main/downloader.ts:69-154 | with no free slot or no waiting job nothing changes; otherwise the oldest job is marked downloading and persisted, then fails with the mkdir or date error or is spawned with its output path and arguments |
| Downloader.Downloader.FailBeforeSpawn | src/main/downloader.ts:109-115 | the oldest waiting job is dequeued, failed with the message and persisted, and its id is removed from the active map |
| Downloader.Downloader.Spawn | src/main/downloader.ts:75-154 | the oldest waiting job runs with the output path built from the folder, streamer, date, sanitised title and VOD id, and the argument list for its quality; its id maps to its handle |
| Downloader.Downloader.OnChunk | src/main/downloader.ts:156-177 | the parser steps; a chunk with sizes writes the progress into the record, persists it and calls the callback once when registered |
| Downloader.Downloader.Close | src/main/downloader.ts:102-115 | exit code 0 completes the record at 100% with a completion time, and any other end fails it with the exit message; either way the record is persisted, the entry deleted and the slot freed |
| Downloader.Downloader.Settle | src/main/downloader.ts:102-115 | the job's record and outcome are stored and persisted, its slot is freed and its id leaves the active map |
| Downloader.Downloader.Cancel | src/main/downloader.ts:208-222 | cancelling succeeds exactly when the id has a spawned process; then the entry is deleted and the record fails with "Cancelled by user"; otherwise nothing changes |
| Downloader.QueueCountsUnsettled | src/main/downloader.ts:224-227 | under the queue invariant, waiting plus running jobs are exactly the queued downloads that have not settled |
| Downloader.Downloader.QueueSize | src/main/downloader.ts:224-227 | the size is the number of waiting jobs plus the number of running ones, which is the number of queued downloads not yet settled |
| Downloader.Downloader.UpdateQueueConcurrency | src/main/downloader.ts:229-232 | the concurrency bound becomes the new value, and no job is stopped |
| Downloader.CancelThenKilled | src/main/downloader.ts:183-194 | a cancelled process killed by its signal leaves the record failed with "yt-dlp exited with code null" |
| Downloader.CancelRacingCleanExit | src/main/downloader.ts:102-106 | a cancelled process that exits with 0 completes its record at 100% and keeps the cancellation message |
| Scheduler.Trigger | src/main/scheduler.ts:25-86 | a trigger is installed exactly for an enabled task with a valid expression; it holds that task unchanged except that `nextRun` becomes the computed next run when there is one |
| Scheduler.ScheduleStopsExisting | src/main/scheduler.ts:23 | an earlier trigger for the same id has no effect on scheduling |
| Scheduler.ScheduleIdempotent | src/main/scheduler.ts:21-92 | scheduling the same task twice leaves the same triggers as once |
| Scheduler.ScheduleOutcome | src/main/scheduler.ts:21-92 | a disabled or invalid task has no trigger and is not persisted; a valid one holds the task with its next run; other ids keep their triggers |
| Scheduler.InitializeFromKeys | src/main/scheduler.ts:11-19 | an enabled stored task gets a trigger exactly when its expression validates; disabled and unknown ids keep what they had |
| Scheduler.InitializeFromEmpty | src/main/scheduler.ts:11-19 | at start-up exactly the enabled stored tasks with a valid expression get a trigger |
| Scheduler.Decide | src/main/scheduler.ts:48-69 | no VODs means nothing to do; otherwise only the newest VOD counts, and it is downloaded exactly when no completed record of it exists |
| Scheduler.DecideIgnoresOlderVods | src/main/scheduler.ts:54 | VODs after the newest do not change the decision |
| Scheduler.IncompleteRecordDoesNotBlock | src/main/scheduler.ts:57-60 | a pending, downloading or failed record never prevents a download |
| Scheduler.CompletedRecordBlocks | src/main/scheduler.ts:57-60 | once a completed record of the newest VOD is saved, a fire skips it |
| Scheduler.Scheduler.constructor | src/main/scheduler.ts:9 | the scheduler starts with no active triggers |
| Scheduler.Scheduler.ScheduleTask | src/main/scheduler.ts:21-92 | the triggers and the persisted tasks become the scheduling step of the task |
| Scheduler.Scheduler.InitializeScheduler | src/main/scheduler.ts:11-19 | the triggers and persisted tasks become the scheduling of each enabled stored task in list order |
| Scheduler.Scheduler.StopTask | src/main/scheduler.ts:94-101 | the id's trigger is removed, and an unknown id changes nothing |
| Scheduler.Scheduler.StopAllTasks | src/main/scheduler.ts:103-109 | no trigger is left |
| Scheduler.Scheduler.Fire | src/main/scheduler.ts:37-76 | the task records the fire time and is persisted; a failed VOD query errors; no VODs or a completed newest VOD leave the queue and the download records unchanged; otherwise the pending record of the newest VOD, for the task's streamer, is saved and its job appended to the queue at the task's quality, or the lookup's error is reported with nothing queued |
| TwitchApi.AcquireToken | src/main/twitch-api.ts:16-51 | a cached token is reused with no call; missing credentials fail without a call; otherwise one client-credentials exchange is made and its token cached until the expiry minus five minutes, or its failure reported with the prefix |
| TwitchApi.TokenReusedUntilMargin | src/main/twitch-api.ts:17-22 | a token just obtained is reused by any later request before its expiry minus the margin |
| TwitchApi.ShortLivedTokenNeverReused | src/main/twitch-api.ts:17-22 | a token that lives five minutes or less is never reused |
| TwitchApi.GetsOfAcquire | src/main/twitch-api.ts:16-51 | obtaining a token makes no API call |
| TwitchApi.AtMostOneRetry | src/main/twitch-api.ts:53-87 | a request makes at most two API calls, and a second only after a 401 reply |
| TwitchApi.OtherFailuresNotRetried | src/main/twitch-api.ts:85 | a failure other than 401 is reported with the request-failed prefix after exactly one API call |
| TwitchApi.UnauthorizedRefetchesToken | src/main/twitch-api.ts:67-83 | after a 401 the token is cleared and fetched again before the one retry |
| TwitchApi.First | src/main/twitch-api.ts:108 | the first element, or nothing exactly for an empty reply |
| TwitchApi.TwitchClient.constructor | src/main/twitch-api.ts:13-14 | the client starts with no token and no calls |
| TwitchApi.TwitchClient.GetAccessToken | src/main/twitch-api.ts:16-51 | the result, the cached token and the calls made are those of obtaining a token from the cached state |
| TwitchApi.TwitchClient.MakeApiRequest | src/main/twitch-api.ts:53-87 | the result, the cached token and the calls made are those of the request with its single 401 retry |
| TwitchApi.TwitchClient.RetryUnauthorized | src/main/twitch-api.ts:67-83 | the token is refetched from nothing and the request made once more with it |
| TwitchApi.SearchThreshold | src/main/twitch-api.ts:90 | a query of two characters or more is always sent, and so is a single emoji, which is two code units long |
| TwitchApi.TwitchClient.SearchStreamers | src/main/twitch-api.ts:89-101 | a query shorter than two UTF-16 code units gives no results and makes no call; otherwise it asks for ten channels, live or not |
| TwitchApi.TwitchClient.GetStreamerInfo | src/main/twitch-api.ts:103-109 | a user request by id, giving the first user or nothing |
| TwitchApi.TwitchClient.GetVods | src/main/twitch-api.ts:111-119 | a request for the streamer's archived videos with the asked-for count |
| TwitchApi.TwitchClient.GetVodInfo | src/main/twitch-api.ts:121-127 | a video request by id, giving the first video or nothing |
| RendererStore.SettersTouchOneField | src/renderer/store/index.ts:37-62 | each setter replaces its own field and leaves every other field unchanged |
| RendererStore.TaskPatchFields | src/renderer/store/index.ts:53-55 | a patch replaces exactly the fields it carries, an explicit undefined clears an optional field, and the rest stay |
| RendererStore.TaskPatchExtremes | src/renderer/store/index.ts:53-55 | an empty patch changes nothing and a full patch yields the patch's record |
| RendererStore.ScheduledPatchFields | src/renderer/store/index.ts:64-66 | a scheduled-task patch replaces exactly the fields it carries, and an empty one changes nothing |
| RendererStore.AddDownloadAppends | src/renderer/store/index.ts:52 | adding appends the record and leaves the rest of the state unchanged |
| RendererStore.UpdateDownloadPointwise | src/renderer/store/index.ts:53-55 | an update patches every record with the id, keeps the others and the length, and touches no other field |
| RendererStore.RemoveDownloadFilters | src/renderer/store/index.ts:56-58 | removal keeps exactly the records with another id, and touches no other field |
| RendererStore.ScheduledTaskActions | src/renderer/store/index.ts:63-69 | adding appends, updating patches by id, and removing filters by id, each touching only the scheduled tasks |
| RendererStore.RendererFollowsSave | src/renderer/store/index.ts:52-55 | with distinct ids, updating with a full record or adding a new one gives the list the main store saves |

## Left out

- Spawning the `yt-dlp` process, signals and stream events are not modelled. Output chunks and the process's end are events given to `OnChunk` and `Close`. Standard-error logging is not modelled.
- The queue library's internals and the interleaving of asynchronous code are left out. The queue is a FIFO of waiting jobs, a set of running ones and a concurrency bound, and a start is an explicit `StartNext` step.
- Downloader.Downloader.UpdateQueueConcurrency requires a value of at least 1, because the queue library's own check for smaller values is not part of this model.
- Regular-expression matching and `parseFloat` are left out. A chunk is what the two patterns would extract from it: an optional percentage and an optional size pair, already read as numbers. Only the first match in a chunk counts.
- Formatting the VOD's creation date is left out. The ISO timestamp is a parameter; an absent one stands for the "Invalid time value" error.
- `path.join` normalisation is not modelled; paths are joined with a plain `/`.
- Creating the output folder is an optional error parameter of `StartNext`.
- The clock is a parameter. One reading gives the task id and `createdAt`, where the code reads it twice. For a scheduled fire the same reading also gives `lastRun`, which the code takes before the VOD query.
- Cron validation and next-run computation come from libraries outside this model. They are the parameters `validate` and `nextRunTime`; a trigger firing is an explicit `Fire` call.
- The try/catch around installing a cron trigger is not modelled, because the validation step before it already excludes invalid expressions.
- Scheduler.Scheduler.Fire: the VOD list is whatever the query for the five most recent returned; the limit of 5 is not checked on the reply.
- HTTP calls are replaced by their outcomes, passed as parameters and recorded in a call log. The text of an HTTP client error is a field of `HttpError`; how the client renders it is not modelled.
- The encryption and JSON schema of the persistent store are left out, and so is the default download folder taken from the operating system. That folder is a parameter; the schema's folder name (`twitch-vods`) and the initialiser's (`twitch-backup`) disagree.
- Inter-process messaging, the window code and the React components are not part of this model.
- RendererStore.ApplyTaskPatch: a patch can leave a required field out or give it a value, but it cannot set the field to `undefined`, which an object spread would copy over the record. `ApplyScheduledPatch` has the same limit.
- Strings are sequences of Unicode characters. JavaScript's UTF-16 code units are modelled only where the code depends on them: the title sanitiser's pattern and the search query's length (`Naming.Utf16Length`).
- Downloader.Downloader.Close: a process `error` event settles the download, and the model lets no later `close` event reach that job. In the code a later `close` with code 0 still calls the progress handler at 100%, which writes the progress and sizes into the failed record, saves it and calls the callback. A later non-zero `close` changes nothing there.
- Downloader.Downloader.DownloadVOD: the quality is always an argument; the default of `source` when a caller leaves it out is not modelled (the interface's handler always passes one).
- TwitchApi.TwitchClient.GetVods: the count of VODs is always an argument; the default of 20 when a caller leaves it out is not modelled.
