/**
 * The external downloader as the core sees it: the argument list it is
 * started with, the progress parser folded over its standard output, and the
 * way its end (exit code or process error) becomes success or an error message.
 *
 * A chunk of output is modelled by what the two patterns extract from it: an
 * optional percentage (`(\d+\.\d+)%`) and an optional size pair
 * (`(\d+\.\d+)([KMG]iB) / (\d+\.\d+)([KMG]iB)`), with the numbers already read
 * as reals.
 */
module YtDlp {
  import opened Wrappers
  import opened Types
  import Naming

  // ---------------------------------------------------------------------------
  // Argument list

  /** The arguments every download starts with. */
  function BaseArgs(url: string, outputPath: string): seq<string>
  {
    [url, "-o", outputPath, "--no-part", "--no-playlist", "--concurrent-fragments", "4"]
  }

  /** `s.replace(pattern, replacement)` with a string pattern: only the first occurrence. */
  function ReplaceFirst(s: string, pattern: string, replacement: string): string
    decreases |s|
  {
    if |s| < |pattern| then s
    else if s[..|pattern|] == pattern then replacement + s[|pattern|..]
    else [s[0]] + ReplaceFirst(s[1..], pattern, replacement)
  }

  /** `quality.replace('p60', '').replace('p', '')` */
  function MaxHeight(q: VideoQuality): string
  {
    ReplaceFirst(ReplaceFirst(QualityName(q), "p60", ""), "p", "")
  }

  /** The format selector added after the base arguments. */
  function QualityArgs(q: VideoQuality): seq<string>
  {
    if q == Source then []
    else if q == AudioOnly then ["-f", "bestaudio"]
    else ["-f", "best[height<=" + MaxHeight(q) + "]"]
  }

  /** A prefix that cannot start the pattern is kept as it is and the search goes on after it. */
  lemma {:induction false} ReplaceFirstSkipsPrefix(d: string, tail: string, pattern: string, replacement: string)
    requires |pattern| > 0 && pattern[0] !in d
    ensures ReplaceFirst(d + tail, pattern, replacement) == d + ReplaceFirst(tail, pattern, replacement)
  {
    if d == [] {
      assert d + tail == tail;
    } else {
      var s := d + tail;
      assert s[0] == d[0] && s[1..] == d[1..] + tail;
      ReplaceFirstSkipsPrefix(d[1..], tail, pattern, replacement);
      assert d == [d[0]] + d[1..];
      if |s| < |pattern| {
        assert ReplaceFirst(tail, pattern, replacement) == tail;
      } else {
        assert s[..|pattern|][0] == d[0] != pattern[0];
        assert ReplaceFirst(s, pattern, replacement) == [d[0]] + ReplaceFirst(d[1..] + tail, pattern, replacement);
      }
    }
  }

  /** Dropping `p60` and then `p` from `<digits>p60` or `<digits>p` leaves the digits. */
  lemma StripResolutionSuffix(digits: string, suffix: string)
    requires 'p' !in digits
    requires suffix == "p" || suffix == "p60"
    ensures ReplaceFirst(ReplaceFirst(digits + suffix, "p60", ""), "p", "") == digits
  {
    ReplaceFirstSkipsPrefix(digits, suffix, "p60", "");
    var afterFirst := if suffix == "p60" then "" else "p";
    assert ReplaceFirst(suffix, "p60", "") == afterFirst;
    ReplaceFirstSkipsPrefix(digits, afterFirst, "p", "");
    assert ReplaceFirst(afterFirst, "p", "") == "";
    assert digits + "" == digits;
  }

  /** The pixel height each resolution quality stands for. */
  function ResolutionHeight(q: VideoQuality): string
    requires q != Source && q != AudioOnly
  {
    match q
    case Q1080p60 => "1080"
    case Q1080p => "1080"
    case Q720p60 => "720"
    case Q720p => "720"
    case Q480p => "480"
    case Q360p => "360"
  }

  /** Every resolution quality maps to its pixel height, frame-rate suffix dropped. */
  lemma MaxHeightOfResolution(q: VideoQuality)
    requires q != Source && q != AudioOnly
    ensures MaxHeight(q) == ResolutionHeight(q)
  {
    match q
    case Q1080p60 =>
      assert QualityName(q) == "1080" + "p60";
      StripResolutionSuffix("1080", "p60");
    case Q1080p =>
      assert QualityName(q) == "1080" + "p";
      StripResolutionSuffix("1080", "p");
    case Q720p60 =>
      assert QualityName(q) == "720" + "p60";
      StripResolutionSuffix("720", "p60");
    case Q720p =>
      assert QualityName(q) == "720" + "p";
      StripResolutionSuffix("720", "p");
    case Q480p =>
      assert QualityName(q) == "480" + "p";
      StripResolutionSuffix("480", "p");
    case Q360p =>
      assert QualityName(q) == "360" + "p";
      StripResolutionSuffix("360", "p");
  }

  /**
   * The argument list of a download: always url, `-o`, the output path,
   * `--no-part`, `--no-playlist` and four concurrent fragments; then nothing
   * for `source`, `-f bestaudio` for audio only, and a maximum-height filter
   * for a resolution.
   */
  method BuildArgs(url: string, outputPath: string, quality: VideoQuality) returns (args: seq<string>)
    ensures args == BaseArgs(url, outputPath) + QualityArgs(quality)
    ensures |args| >= 7 && args[..7] == [url, "-o", outputPath, "--no-part", "--no-playlist", "--concurrent-fragments", "4"]
    ensures quality == Source <==> |args| == 7
    ensures quality == AudioOnly ==> args[7..] == ["-f", "bestaudio"]
    ensures quality != Source && quality != AudioOnly ==>
      args[7..] == ["-f", "best[height<=" + MaxHeight(quality) + "]"]
  {
    args := [url, "-o", outputPath, "--no-part", "--no-playlist", "--concurrent-fragments", "4"];
    if quality != Source {
      if quality == AudioOnly {
        args := args + ["-f", "bestaudio"];
      } else {
        args := args + ["-f", "best[height<=" + MaxHeight(quality) + "]"];
      }
    }
  }

  // ---------------------------------------------------------------------------
  // Sizes

  /** How many bytes one unit stands for. */
  function UnitFactor(unit: string): (f: real)
    ensures f >= 1.0
  {
    if unit == "KiB" then 1024.0
    else if unit == "MiB" then 1024.0 * 1024.0
    else if unit == "GiB" then 1024.0 * 1024.0 * 1024.0
    else 1.0
  }

  /** `parseSize`: a number and its binary unit as bytes. */
  function ParseSize(num: real, unit: string): real
  {
    num * UnitFactor(unit)
  }

  /**
   * KiB, MiB and GiB scale by 1024, 1024² and 1024³, each unit 1024 times the
   * one below; any other unit leaves the number as it is.
   */
  lemma ParseSizeUnits(num: real, unit: string)
    ensures ParseSize(num, "KiB") == num * 1024.0
    ensures ParseSize(num, "MiB") == 1024.0 * ParseSize(num, "KiB")
    ensures ParseSize(num, "GiB") == 1024.0 * ParseSize(num, "MiB")
    ensures unit != "KiB" && unit != "MiB" && unit != "GiB" ==> ParseSize(num, unit) == num
  {
  }

  /** A larger reading in the same unit is never a smaller size, and sizes are never negative. */
  lemma ParseSizeMonotone(a: real, b: real, unit: string)
    requires 0.0 <= a <= b
    ensures 0.0 <= ParseSize(a, unit) <= ParseSize(b, unit)
  {
    var f := UnitFactor(unit);
    assert a * f <= b * f by {
      assert (b - a) * f >= 0.0;
    }
  }

  // ---------------------------------------------------------------------------
  // Progress parser

  datatype SizeMatch = SizeMatch(downloaded: real, downloadedUnit: string, total: real, totalUnit: string)

  /** What the two patterns found in one chunk of standard output. */
  datatype Chunk = Chunk(percent: Option<real>, size: Option<SizeMatch>)

  /** `lastProgress`, `downloadedSize` and `totalSize` of one running download. */
  datatype ParserState = ParserState(lastProgress: real, downloadedSize: real, totalSize: real)

  /** One invocation of the progress callback. */
  datatype Progress = Progress(progress: real, downloaded: real, total: real)

  const InitialParser := ParserState(0.0, 0.0, 0.0)

  /**
   * The data handler on one chunk: a percentage replaces the remembered one;
   * a size pair replaces both sizes and emits one event carrying the remembered
   * percentage; a chunk without a size pair emits nothing.
   */
  function Step(st: ParserState, chunk: Chunk): (r: (ParserState, Option<Progress>))
    ensures r.0.lastProgress == if chunk.percent.Some? then chunk.percent.value else st.lastProgress
    ensures r.1.Some? <==> chunk.size.Some?
    ensures chunk.size.None? ==> r.0.downloadedSize == st.downloadedSize && r.0.totalSize == st.totalSize
    ensures chunk.size.Some? ==>
      && r.0.downloadedSize == ParseSize(chunk.size.value.downloaded, chunk.size.value.downloadedUnit)
      && r.0.totalSize == ParseSize(chunk.size.value.total, chunk.size.value.totalUnit)
      && r.1 == Some(Progress(r.0.lastProgress, r.0.downloadedSize, r.0.totalSize))
  {
    var last := if chunk.percent.Some? then chunk.percent.value else st.lastProgress;
    match chunk.size
    case None => (st.(lastProgress := last), None)
    case Some(m) =>
      var downloaded := ParseSize(m.downloaded, m.downloadedUnit);
      var total := ParseSize(m.total, m.totalUnit);
      (ParserState(last, downloaded, total), Some(Progress(last, downloaded, total)))
  }

  /** The parser folded over a stream of chunks: the final state and the events, in order. */
  function Feed(st: ParserState, chunks: seq<Chunk>): (ParserState, seq<Progress>)
    decreases |chunks|
  {
    if chunks == [] then (st, [])
    else
      var (st', ev) := Step(st, chunks[0]);
      var (last, events) := Feed(st', chunks[1..]);
      (last, (if ev.Some? then [ev.value] else []) + events)
  }

  /** How many chunks carry a size pair. */
  function SizedChunks(chunks: seq<Chunk>): nat
  {
    if chunks == [] then 0 else (if chunks[0].size.Some? then 1 else 0) + SizedChunks(chunks[1..])
  }

  /** The percentage of the last chunk that carries one, or `start` when none does. */
  function LastPercent(start: real, chunks: seq<Chunk>): real
    decreases |chunks|
  {
    if chunks == [] then start
    else
      var last := chunks[|chunks| - 1];
      if last.percent.Some? then last.percent.value else LastPercent(start, chunks[..|chunks| - 1])
  }

  /** Feeding one more chunk is one more step from the state reached so far. */
  lemma {:induction false} FeedSnoc(st: ParserState, a: seq<Chunk>, c: Chunk)
    decreases |a|
    ensures Feed(st, a + [c]).0 == Step(Feed(st, a).0, c).0
  {
    if a == [] {
      assert a + [c] == [c] && [c][1..] == [];
    } else {
      assert (a + [c])[0] == a[0] && (a + [c])[1..] == a[1..] + [c];
      FeedSnoc(Step(st, a[0]).0, a[1..], c);
    }
  }

  /** Exactly one event per chunk that carries a size pair, and none for the others. */
  lemma {:induction false} FeedEmitsOnePerSizedChunk(st: ParserState, chunks: seq<Chunk>)
    decreases |chunks|
    ensures |Feed(st, chunks).1| == SizedChunks(chunks)
  {
    if chunks != [] {
      FeedEmitsOnePerSizedChunk(Step(st, chunks[0]).0, chunks[1..]);
    }
  }

  /**
   * The remembered percentage after any stream is the last percentage seen
   * (or the starting one), and it survives chunks that carry only sizes.
   */
  lemma {:induction false} FeedRemembersPercent(st: ParserState, chunks: seq<Chunk>)
    decreases |chunks|
    ensures Feed(st, chunks).0.lastProgress == LastPercent(st.lastProgress, chunks)
  {
    if chunks != [] {
      var a, c := chunks[..|chunks| - 1], chunks[|chunks| - 1];
      assert chunks == a + [c];
      FeedSnoc(st, a, c);
      FeedRemembersPercent(st, a);
    }
  }

  /**
   * A percentage chunk without sizes followed by a size chunk without a
   * percentage yields exactly one event, carrying the earlier percentage and
   * the later sizes.
   */
  lemma PercentCarriedToSizeChunk(st: ParserState, p: real, m: SizeMatch)
    ensures Feed(st, [Chunk(Some(p), None), Chunk(None, Some(m))]).1
         == [Progress(p, ParseSize(m.downloaded, m.downloadedUnit), ParseSize(m.total, m.totalUnit))]
  {
    var c1, c2 := Chunk(Some(p), None), Chunk(None, Some(m));
    var st1 := Step(st, c1).0;
    assert st1.lastProgress == p && Step(st, c1).1 == None;
    assert [c1, c2][1..] == [c2];
    assert [c2][1..] == [];
    assert Feed(st1, [c2]).1 == [Step(st1, c2).1.value];
  }

  // ---------------------------------------------------------------------------
  // Process end

  /** How the process ended: its `close` code (`null` when killed by a signal), or an `error` event. */
  datatype ProcessEnd = Exited(code: Option<int>) | ProcessError(message: string)

  /** `yt-dlp exited with code ${code}` */
  function ExitMessage(code: Option<int>): string
  {
    "yt-dlp exited with code " + (if code.Some? then Naming.IntToString(code.value) else "null")
  }

  /**
   * The close handler: code 0 emits a final event at 100% whose downloaded and
   * total sizes are both the last parsed total, and succeeds; any other end
   * fails with the exit message or the process error's message, without event.
   */
  function Finish(st: ParserState, end: ProcessEnd): (r: (Option<Progress>, Result<(), string>))
    ensures end == Exited(Some(0)) <==> r.1.Success?
    ensures r.0.Some? <==> r.1.Success?
    ensures r.1.Success? ==> r.0 == Some(Progress(100.0, st.totalSize, st.totalSize))
    ensures end.Exited? && end.code != Some(0) ==> r.1 == Failure(ExitMessage(end.code))
    ensures end.ProcessError? ==> r.1 == Failure(end.message)
  {
    match end
    case Exited(code) =>
      if code == Some(0) then (Some(Progress(100.0, st.totalSize, st.totalSize)), Success(()))
      else (None, Failure(ExitMessage(code)))
    case ProcessError(message) => (None, Failure(message))
  }

  /** A process killed by a signal reports the code as `null`. */
  lemma KilledProcessMessage()
    ensures ExitMessage(None) == "yt-dlp exited with code null"
  {
  }

  /** The total of the last chunk that carries a size pair, or `start` when none does. */
  function LastSizedTotal(start: real, chunks: seq<Chunk>): real
    decreases |chunks|
  {
    if chunks == [] then start
    else
      var last := chunks[|chunks| - 1];
      if last.size.Some? then ParseSize(last.size.value.total, last.size.value.totalUnit)
      else LastSizedTotal(start, chunks[..|chunks| - 1])
  }

  /** After any stream the remembered total is that of the last size pair, or the starting one. */
  lemma {:induction false} FeedTotalIsLastSized(st: ParserState, chunks: seq<Chunk>)
    decreases |chunks|
    ensures Feed(st, chunks).0.totalSize == LastSizedTotal(st.totalSize, chunks)
  {
    if chunks != [] {
      var a, c := chunks[..|chunks| - 1], chunks[|chunks| - 1];
      assert chunks == a + [c];
      FeedSnoc(st, a, c);
      FeedTotalIsLastSized(st, a);
    }
  }

  /**
   * The final event after a clean exit carries, as both sizes, the total of
   * the last size pair parsed, or 0 when there was none.
   */
  lemma FinalTotalIsLastParsed(chunks: seq<Chunk>)
    ensures var t := LastSizedTotal(0.0, chunks);
      Finish(Feed(InitialParser, chunks).0, Exited(Some(0))).0 == Some(Progress(100.0, t, t))
    ensures SizedChunks(chunks) == 0 ==> Feed(InitialParser, chunks).0.totalSize == 0.0
  {
    FeedTotalIsLastSized(InitialParser, chunks);
    NoSizeKeepsTotal(InitialParser, chunks);
  }

  lemma {:induction false} NoSizeKeepsTotal(st: ParserState, chunks: seq<Chunk>)
    decreases |chunks|
    ensures SizedChunks(chunks) == 0 ==> Feed(st, chunks).0.totalSize == st.totalSize
  {
    if chunks != [] {
      NoSizeKeepsTotal(Step(st, chunks[0]).0, chunks[1..]);
    }
  }
}
