/** The records and enumerations shared by the main process and the renderer. */
module Types {
  import opened Wrappers

  /** The download qualities a user can choose. */
  datatype VideoQuality = Source | Q1080p60 | Q1080p | Q720p60 | Q720p | Q480p | Q360p | AudioOnly

  /** The string each quality has in the program. */
  function QualityName(q: VideoQuality): string
  {
    match q
    case Source => "source"
    case Q1080p60 => "1080p60"
    case Q1080p => "1080p"
    case Q720p60 => "720p60"
    case Q720p => "720p"
    case Q480p => "480p"
    case Q360p => "360p"
    case AudioOnly => "audio_only"
  }

  datatype Status = Pending | Downloading | Completed | Failed

  datatype Config = Config(
    twitchClientId: string,
    twitchClientSecret: string,
    downloadPath: string,
    maxConcurrentDownloads: int,
    preferredQuality: VideoQuality)

  datatype Streamer = Streamer(id: string, login: string, displayName: string, profileImageUrl: string)

  /** An archived broadcast as the video listing returns it. */
  datatype Vod = Vod(
    id: string,
    userId: string,
    userName: string,
    title: string,
    description: string,
    createdAt: string,
    publishedAt: string,
    url: string,
    thumbnailUrl: string,
    viewable: string,
    duration: string,
    vodType: string,
    viewCount: Option<int>)

  /** One backup attempt. Times are milliseconds since the epoch; sizes are bytes. */
  datatype DownloadTask = DownloadTask(
    id: string,
    vodId: string,
    streamerId: string,
    streamerName: string,
    title: string,
    status: Status,
    progress: real,
    totalSize: Option<real>,
    downloadedSize: Option<real>,
    error: Option<string>,
    createdAt: int,
    completedAt: Option<int>)

  /** A recurring backup rule for one streamer. */
  datatype ScheduledTask = ScheduledTask(
    id: string,
    streamerId: string,
    streamerName: string,
    cronExpression: string,
    quality: VideoQuality,
    enabled: bool,
    lastRun: Option<int>,
    nextRun: Option<int>)

  /** The key every list of download tasks is searched by. */
  function DownloadId(d: DownloadTask): string { d.id }

  /** The key every list of scheduled tasks is searched by. */
  function ScheduledId(t: ScheduledTask): string { t.id }
}
