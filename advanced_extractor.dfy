/**
 * The class `AdvancedBilibiliExtractor` of advanced_extractor.py: its
 * construction (lines 23-29), `setup_ydl_options` (lines 61-89) as an update
 * of the object's option dictionary, and `download_playlist_concurrent`
 * (lines 128-183), which submits one download per playlist entry to a
 * thread pool and reports whether any of them succeeded.
 *
 * yt-dlp and the thread pool are not modelled: the info dictionary is an
 * input, and so are the outcome of each download (`jobOk[k]` for the
 * `k`-th submitted download, `singleOk` for a single video) and the order
 * in which the downloads complete.
 */
module AdvancedExtractor {
  import opened Wrappers
  import opened Text
  import opened YtInfo
  import opened PyJson
  import opened AdvancedOptions

  // ---------------------------------------------------------------------
  // The number of worker threads (lines 147 and 152-154).

  /** `self.config['max_concurrent_downloads']` as a number that `min` can
      compare with an `int`; a boolean counts as 0 or 1, every other
      non-number raises `TypeError`. */
  function ConcurrencySetting(config: Json): (r: Result<int, PyError>)
    ensures Subscript(config, "max_concurrent_downloads").Failure? ==>
              r == Failure(Subscript(config, "max_concurrent_downloads").error)
    ensures r.Success? && Subscript(config, "max_concurrent_downloads").value.JInt? ==>
              r.value == Subscript(config, "max_concurrent_downloads").value.i
    ensures r.Success? && Subscript(config, "max_concurrent_downloads").value.JBool? ==>
              r.value == if Subscript(config, "max_concurrent_downloads").value.b then 1 else 0
    ensures r.Success? <==> Subscript(config, "max_concurrent_downloads").Success?
                            && (Subscript(config, "max_concurrent_downloads").value.JInt?
                                || Subscript(config, "max_concurrent_downloads").value.JBool?)
  {
    match Subscript(config, "max_concurrent_downloads")
    case Failure(e) => Failure(e)
    case Success(JInt(n)) => Success(n)
    case Success(JBool(b)) => Success(if b then 1 else 0)
    case Success(_) => Failure(TypeError)
  }

  /** `max_workers = min(setting, total_videos)`, which the thread pool
      rejects with `ValueError` unless it is positive. */
  function MaxWorkers(config: Json, total: nat): (r: Result<nat, PyError>)
    ensures ConcurrencySetting(config).Failure? ==> r == Failure(ConcurrencySetting(config).error)
    ensures r.Success? <==> ConcurrencySetting(config).Success? && ConcurrencySetting(config).value >= 1 && total >= 1
    ensures ConcurrencySetting(config).Success? && r.Failure? ==> r == Failure(ValueError)
    ensures r.Success? ==> 1 <= r.value <= total && r.value <= ConcurrencySetting(config).value
    ensures r.Success? ==> r.value == total || r.value == ConcurrencySetting(config).value
  {
    match ConcurrencySetting(config)
    case Failure(e) => Failure(e)
    case Success(n) =>
      var w := if total < n then total else n;
      if w <= 0 then Failure(ValueError) else Success(w)
  }

  /** The default configuration runs three downloads at a time, or fewer
      when the playlist is shorter. */
  lemma DefaultWorkers(total: nat)
    requires total >= 1
    ensures MaxWorkers(DefaultConfig(), total) == Success(if total < 3 then total else 3)
  {
    DefaultSetting();
  }

  lemma DefaultSetting()
    ensures ConcurrencySetting(DefaultConfig()) == Success(3)
  {
    DefaultConfigValues();
  }

  // ---------------------------------------------------------------------
  // The submitted downloads (lines 143 and 156-165).

  /** One `executor.submit(self.download_single_video, video_url, label)`. */
  datatype Job = Job(videoUrl: Option<string>, caption: string)

  /** `f"[{i}/{total_videos}] {title}"`, with `Video_i` for an entry without
      a title. */
  function JobLabel(i: nat, total: nat, e: Entry): string {
    "[" + DecimalString(i) + "/" + DecimalString(total) + "] " + ValueOr(e.title, FallbackTitle(i))
  }

  /** The pieces of `[a/b] t` at their places. */
  lemma FramedSlices(a: string, b: string, t: string)
    ensures var l := "[" + a + "/" + b + "] " + t;
            var n := 1 + |a| + 1 + |b| + 2;
            && |l| == n + |t| && l[0] == '[' && l[1..1 + |a|] == a && l[1 + |a|] == '/'
            && l[2 + |a|..2 + |a| + |b|] == b && l[n - 2..n] == "] " && l[n..] == t
  {
    var l := "[" + a + "/" + b + "] " + t;
    var n := 1 + |a| + 1 + |b| + 2;
    assert l == ((("[" + a) + "/") + b) + "] " + t;
    assert l[..n] == "[" + a + "/" + b + "] ";
  }

  /** The label reads back as its position and the playlist length, followed
      by the title. */
  lemma JobLabelReadsBack(i: nat, total: nat, e: Entry)
    ensures var a := DecimalString(i);
            var b := DecimalString(total);
            var l := JobLabel(i, total, e);
            var n := 1 + |a| + 1 + |b| + 2;
            && |l| >= n && l[0] == '[' && l[1 + |a|] == '/' && l[n - 2..n] == "] "
            && l[1..1 + |a|] == a && AllDigits(a) && DecimalValue(a) == i
            && l[2 + |a|..2 + |a| + |b|] == b && AllDigits(b) && DecimalValue(b) == total
            && l[n..] == ValueOr(e.title, FallbackTitle(i))
  {
    DecimalRoundTrip(i);
    DecimalRoundTrip(total);
    FramedSlices(DecimalString(i), DecimalString(total), ValueOr(e.title, FallbackTitle(i)));
  }

  /** The downloads of a playlist whose `None` entries are already dropped:
      one per entry, numbered 1 to the number of entries. */
  function PlaylistJobs(entries: seq<Entry>): (r: seq<Job>)
    ensures |r| == |entries|
    ensures forall k :: 0 <= k < |r| ==> r[k] == Job(EntryUrl(entries[k]), JobLabel(k + 1, |entries|, entries[k]))
  {
    seq(|entries|, k requires 0 <= k < |entries| => Job(EntryUrl(entries[k]), JobLabel(k + 1, |entries|, entries[k])))
  }

  /** `job` downloads the URL of `e` under a caption that reads back as
      `[n/total] title`, with `title` the entry's own or `Video_n`. */
  predicate NumberedJob(job: Job, n: nat, total: nat, e: Entry) {
    var a := DecimalString(n);
    var b := DecimalString(total);
    && job.videoUrl == EntryUrl(e)
    && |job.caption| >= 4 + |a| + |b|
    && job.caption[1..1 + |a|] == a && AllDigits(a) && DecimalValue(a) == n
    && job.caption[2 + |a|..2 + |a| + |b|] == b && AllDigits(b) && DecimalValue(b) == total
    && job.caption[4 + |a| + |b|..] == ValueOr(e.title, FallbackTitle(n))
  }

  /** The `k`-th job of `PlaylistJobs(p)` is numbered `k + 1` of `|p|`. */
  lemma PlaylistJobReadsBack(p: seq<Entry>, k: nat)
    requires k < |p|
    ensures NumberedJob(PlaylistJobs(p)[k], k + 1, |p|, p[k])
  {
    JobLabelReadsBack(k + 1, |p|, p[k]);
  }

  /** Since `None` entries are dropped before numbering, the entry at
      position `i` of the list is numbered one more than the present entries
      before it, so the labels count 1, 2, ... without gaps in list order,
      and every label names the number of present entries as the total. */
  lemma PlaylistNumbering(entries: seq<Option<Entry>>, i: nat)
    requires i < |entries| && entries[i].Some?
    ensures PresentCount(entries, i) < |PlaylistJobs(Present(entries))|
    ensures NumberedJob(PlaylistJobs(Present(entries))[PresentCount(entries, i)], PresentCount(entries, i) + 1,
                        PresentCount(entries, |entries|), entries[i].value)
  {
    var p := Present(entries);
    var k := PresentCount(entries, i);
    assert k < |p| && p[k] == entries[i].value;
    PlaylistJobReadsBack(p, k);
  }

  // ---------------------------------------------------------------------
  // The result (lines 132-140 and 167-183).

  /** The number of `true` values. */
  function CountTrue(s: seq<bool>): nat {
    if s == [] then 0 else CountTrue(s[..|s| - 1]) + (if s[|s| - 1] then 1 else 0)
  }

  lemma {:induction false} CountTruePositive(s: seq<bool>)
    ensures CountTrue(s) <= |s|
    ensures CountTrue(s) > 0 <==> exists k :: 0 <= k < |s| && s[k]
  {
    if s != [] {
      var init := s[..|s| - 1];
      CountTruePositive(init);
      assert forall k :: 0 <= k < |init| ==> init[k] == s[k];
      if s[|s| - 1] {
        assert 0 <= |s| - 1 < |s| && s[|s| - 1];
      }
    }
  }

  /** `concurrent.futures.as_completed` yields every submitted download
      exactly once, in some order. */
  predicate CompletionOrder(order: seq<nat>, n: nat) {
    && |order| == n
    && (forall k :: 0 <= k < n ==> order[k] < n)
    && (forall j :: 0 <= j < n ==> j in order)
  }

  /** The downloads `download_playlist_concurrent` submits. */
  function PlaylistPlan(config: Json, info: Option<VideoInfo>, url: string): seq<Job> {
    if info.None? then []
    else if info.value.entries.None? then [Job(Some(url), ValueOr(info.value.title, "Unknown"))]
    else
      var entries := Present(info.value.entries.value);
      if MaxWorkers(config, |entries|).Failure? then [] else PlaylistJobs(entries)
  }

  /** What `download_playlist_concurrent` returns or raises: `False` without
      info, the single download's outcome, the first error of lines 147-154,
      or whether any download of the playlist succeeded. */
  function PlaylistResult(config: Json, info: Option<VideoInfo>, jobOk: seq<bool>, singleOk: bool): Result<bool, PyError>
    requires info.Some? && info.value.entries.Some? ==> |jobOk| == |Present(info.value.entries.value)|
  {
    if info.None? then Success(false)
    else if info.value.entries.None? then Success(singleOk)
    else
      match MaxWorkers(config, |Present(info.value.entries.value)|)
      case Failure(e) => Failure(e)
      case Success(_) => Success(CountTrue(jobOk) > 0)
  }

  /** A playlist that gets its workers succeeds exactly when one of its
      downloads does; otherwise the error is the worker count's. */
  lemma PlaylistResultMeans(config: Json, info: Option<VideoInfo>, jobOk: seq<bool>, singleOk: bool)
    requires info.Some? && info.value.entries.Some?
    requires |jobOk| == |Present(info.value.entries.value)|
    ensures var w := MaxWorkers(config, |jobOk|);
            && (w.Failure? ==> PlaylistResult(config, info, jobOk, singleOk) == Failure(w.error))
            && (w.Success? ==> (PlaylistResult(config, info, jobOk, singleOk) == Success(true)
                                <==> exists k :: 0 <= k < |jobOk| && jobOk[k]))
            && (w.Success? ==> PlaylistResult(config, info, jobOk, singleOk).Success?)
  {
    CountTruePositive(jobOk);
  }

  /** As written, a playlist without a single entry that is not `None`
      raises: `min(setting, 0)` is never positive, and a setting that is a
      number raises `ValueError` from the thread pool. */
  lemma EmptyPlaylistRaises(config: Json, info: Option<VideoInfo>, singleOk: bool)
    requires info.Some? && info.value.entries.Some? && Present(info.value.entries.value) == []
    ensures PlaylistResult(config, info, [], singleOk).Failure?
    ensures ConcurrencySetting(config).Success? ==> PlaylistResult(config, info, [], singleOk) == Failure(ValueError)
  {
  }

  /** The default configuration with the playlist `[None]`, which raises. */
  lemma EmptyPlaylistExample()
    ensures PlaylistResult(DefaultConfig(), Some(VideoInfo(Some([None]), None)), [], false) == Failure(ValueError)
  {
    var info := Some(VideoInfo(Some([None]), None));
    assert Present([None]) == [];
    DefaultSetting();
    EmptyPlaylistRaises(DefaultConfig(), info, false);
  }

  /** The evidently intended result: a playlist with nothing to download
      returns `False`, like the other paths that download nothing, once the
      setting of line 147 has been read. */
  function PlaylistResultFixed(config: Json, info: Option<VideoInfo>, jobOk: seq<bool>, singleOk: bool): (r: Result<bool, PyError>)
    requires info.Some? && info.value.entries.Some? ==> |jobOk| == |Present(info.value.entries.value)|
    ensures info.Some? && info.value.entries.Some? && Present(info.value.entries.value) == [] ==>
              r != Failure(ValueError)
              && (ConcurrencySetting(config).Success? <==> r == Success(false))
  {
    if info.Some? && info.value.entries.Some? && Present(info.value.entries.value) == [] then
      match ConcurrencySetting(config)
      case Failure(e) => Failure(e)
      case Success(_) => Success(false)
    else PlaylistResult(config, info, jobOk, singleOk)
  }

  /** With a usable setting the corrected result never raises, and it is
      `True` exactly when some download succeeded. */
  lemma FixedPlaylistMeans(config: Json, info: Option<VideoInfo>, jobOk: seq<bool>, singleOk: bool)
    requires info.Some? && info.value.entries.Some?
    requires |jobOk| == |Present(info.value.entries.value)|
    requires ConcurrencySetting(config).Success? && ConcurrencySetting(config).value >= 1
    ensures PlaylistResultFixed(config, info, jobOk, singleOk).Success?
    ensures PlaylistResultFixed(config, info, jobOk, singleOk).value <==> exists k :: 0 <= k < |jobOk| && jobOk[k]
  {
    CountTruePositive(jobOk);
    if jobOk != [] {
      PlaylistResultMeans(config, info, jobOk, singleOk);
    }
  }

  /** The corrected result differs from the code only on empty playlists. */
  lemma FixedAgreesElsewhere(config: Json, info: Option<VideoInfo>, jobOk: seq<bool>, singleOk: bool)
    requires info.Some? && info.value.entries.Some? ==> |jobOk| == |Present(info.value.entries.value)|
    requires !(info.Some? && info.value.entries.Some? && Present(info.value.entries.value) == [])
    ensures PlaylistResultFixed(config, info, jobOk, singleOk) == PlaylistResult(config, info, jobOk, singleOk)
  {
  }

  /** Every download counted in completion order: some succeeded exactly
      when one of the downloads in `order` did. */
  lemma CompletionCovers(jobOk: seq<bool>, order: seq<nat>)
    requires CompletionOrder(order, |jobOk|)
    ensures (exists m :: 0 <= m < |order| && jobOk[order[m]]) <==> (exists k :: 0 <= k < |jobOk| && jobOk[k])
  {
    if exists k :: 0 <= k < |jobOk| && jobOk[k] {
      var k :| 0 <= k < |jobOk| && jobOk[k];
      assert k in order;
      var m :| 0 <= m < |order| && order[m] == k;
      assert jobOk[order[m]];
    }
  }

  /** The submission loop of lines 157-165 over the entries that are not
      `None`, numbered from 1. */
  method SubmitJobs(entries: seq<Entry>) returns (jobs: seq<Job>)
    ensures jobs == PlaylistJobs(entries)
  {
    var total := |entries|;
    jobs := [];
    var i := 1;
    while i <= total
      invariant 1 <= i <= total + 1
      invariant jobs == PlaylistJobs(entries)[..i - 1]
    {
      var entry := entries[i - 1];
      var title := ValueOr(entry.title, FallbackTitle(i));
      var videoUrl := EntryUrl(entry);
      var caption := "[" + DecimalString(i) + "/" + DecimalString(total) + "] " + title;
      assert caption == JobLabel(i, total, entry);
      assert PlaylistJobs(entries)[..i] == PlaylistJobs(entries)[..i - 1] + [Job(videoUrl, caption)];
      jobs := jobs + [Job(videoUrl, caption)];
      i := i + 1;
    }
  }

  /** The loop of lines 168-177: the downloads as they complete, counting
      the successful ones.  `download_single_video` catches every exception,
      so `future.result()` never raises. */
  method CountCompleted(jobOk: seq<bool>, completion: seq<nat>) returns (successCount: nat)
    requires CompletionOrder(completion, |jobOk|)
    ensures successCount <= |jobOk|
    ensures successCount > 0 <==> CountTrue(jobOk) > 0
  {
    successCount := 0;
    var k := 0;
    while k < |completion|
      invariant 0 <= k <= |completion|
      invariant successCount <= k
      invariant successCount > 0 <==> exists m :: 0 <= m < k && jobOk[completion[m]]
    {
      if jobOk[completion[k]] {
        successCount := successCount + 1;
      }
      k := k + 1;
    }
    CompletionCovers(jobOk, completion);
    CountTruePositive(jobOk);
  }

  // ---------------------------------------------------------------------
  // The extractor object.

  class AdvancedBilibiliExtractor {
    var config: Json
    var outputDir: string
    var ydlOpts: Dict

    /** `__init__(config_file)`: the configuration, its output directory and
        the options built from them. */
    constructor (file: ConfigFile)
      requires OutputDirectory(LoadConfig(file)).Success?
      requires YdlOptions(LoadConfig(file), OutputDirectory(LoadConfig(file)).value).Success?
      ensures config == LoadConfig(file)
      ensures outputDir == OutputDirectory(config).value
      ensures ydlOpts == YdlOptions(config, outputDir).value
    {
      config := LoadConfig(file);
      outputDir := OutputDirectory(LoadConfig(file)).value;
      ydlOpts := [];
      new;
      var err := SetupYdlOptions();
    }

    /** `setup_ydl_options`: builds the dictionary display and assigns it,
        then adds the proxy, user agent and headers to it in place.  An
        error in the display leaves the options as they were; an error
        after it leaves the options the display built. */
    method SetupYdlOptions() returns (err: Option<PyError>)
      modifies this
      ensures config == old(config) && outputDir == old(outputDir)
      ensures BaseOptions(config, outputDir).Failure? ==>
                err == Some(BaseOptions(config, outputDir).error) && ydlOpts == old(ydlOpts)
      ensures BaseOptions(config, outputDir).Success? ==>
                match Extras(config, BaseOptions(config, outputDir).value)
                case Failure(e) => err == Some(e) && ydlOpts == BaseOptions(config, outputDir).value
                case Success(d) => err == None && ydlOpts == d
      ensures err.None? <==> YdlOptions(config, outputDir).Success?
      ensures err.None? ==> ydlOpts == YdlOptions(config, outputDir).value
    {
      var base := BaseOptions(config, outputDir);
      if base.Failure? {
        return Some(base.error);
      }
      ydlOpts := base.value;
      var proxy := GetOr(config.fields, "proxy", JObject([]));
      if !proxy.JObject? {
        return Some(AttributeError);
      }
      if Truthy(GetOr(proxy.fields, "enabled", JNull)) {
        var http := GetOr(proxy.fields, "http_proxy", JNull);
        if Truthy(http) {
          ydlOpts := Set(ydlOpts, "proxy", http);
        }
      }
      var agent := GetOr(config.fields, "user_agent", JNull);
      if Truthy(agent) {
        ydlOpts := Set(ydlOpts, "user_agent", agent);
      }
      var headers := GetOr(config.fields, "headers", JNull);
      if Truthy(headers) {
        ydlOpts := Set(ydlOpts, "http_headers", headers);
      }
      err := None;
    }

    /** `download_playlist_concurrent(url)`, given the info yt-dlp reports
        (`None` when it failed or reported an empty dictionary), the outcome
        of each download and the order in which the downloads complete;
        returns the result, or the error raised, and the downloads it
        submitted. */
    method DownloadPlaylistConcurrent(info: Option<VideoInfo>, url: string, singleOk: bool,
                                      jobOk: seq<bool>, completion: seq<nat>)
      returns (result: Result<bool, PyError>, jobs: seq<Job>)
      requires info.Some? && info.value.entries.Some? ==>
                 |jobOk| == |Present(info.value.entries.value)| && CompletionOrder(completion, |jobOk|)
      ensures jobs == PlaylistPlan(config, info, url)
      ensures result == PlaylistResult(config, info, jobOk, singleOk)
    {
      if info.None? {
        return Success(false), [];
      }
      if info.value.entries.None? {
        var title := ValueOr(info.value.title, "Unknown");
        return Success(singleOk), [Job(Some(url), title)];
      }
      var entries := Present(info.value.entries.value);
      var total := |entries|;
      var setting := ConcurrencySetting(config);
      if setting.Failure? {
        return Failure(setting.error), [];
      }
      var maxWorkers := if total < setting.value then total else setting.value;
      if maxWorkers <= 0 {
        return Failure(ValueError), [];
      }
      assert MaxWorkers(config, total) == Success(maxWorkers);
      jobs := SubmitJobs(entries);
      var successCount := CountCompleted(jobOk, completion);
      result := Success(successCount > 0);
    }
  }
}
