/**
 * The collection download of bilibili_audio_extractor.py: the output
 * template `download_audio` builds from a custom title (lines 88-92) and
 * the loop of `extract_from_collection` (lines 102-134), which downloads
 * every entry of a collection under the name `{i:02d}_{title}` and counts
 * the successful downloads.
 *
 * yt-dlp is not modelled: the info dictionary is an input, and so is the
 * outcome of each download (`downloadOk[k]` for the entry at position `k`,
 * `singleOk` for a single video).
 */
module Bilibili {
  import opened Wrappers
  import opened Text
  import opened YtInfo

  /** The template yt-dlp fills in when no custom title is given (line 30). */
  const DefaultLeaf: string := "%(title)s.%(ext)s"

  /** `str(output_dir / name)`, for a directory given without a trailing
      separator and a name without one. */
  function JoinPath(dir: string, name: string): string {
    dir + "/" + name
  }

  /** The `outtmpl` option `download_audio` downloads with: the sanitised
      custom title when it is given and not empty, else the default. */
  function OutputTemplate(outputDir: string, customTitle: Option<string>): (r: string)
    ensures |r| > |outputDir| && r[..|outputDir| + 1] == outputDir + "/"
    ensures NoIllegal(r[|outputDir| + 1..])
    ensures customTitle.Some? && customTitle.value != "" ==>
              |r| == |outputDir| + 1 + |customTitle.value| + 8
              && r == outputDir + "/" + ReplaceIllegal(customTitle.value) + ".%(ext)s"
    ensures !(customTitle.Some? && customTitle.value != "") ==> r == outputDir + "/" + DefaultLeaf
  {
    var leaf := if customTitle.Some? && customTitle.value != "" then ReplaceIllegal(customTitle.value) + ".%(ext)s"
                else DefaultLeaf;
    assert NoIllegal(leaf) by {
      if customTitle.Some? && customTitle.value != "" {
        var t := ReplaceIllegal(customTitle.value);
        assert forall i :: |t| <= i < |leaf| ==> leaf[i] == ".%(ext)s"[i - |t|];
      }
    }
    var r := JoinPath(outputDir, leaf);
    assert r[..|outputDir| + 1] == outputDir + "/";
    assert r[|outputDir| + 1..] == leaf;
    r
  }

  /** The name of the collection item at 1-based position `i`:
      `f"{i:02d}_{title}"`, with `Video_i` for an entry without a title. */
  function ItemLabel(i: nat, e: Entry): string {
    ZeroPad2(i) + "_" + ValueOr(e.title, FallbackTitle(i))
  }

  /** The label starts with the position, at least two digits wide, then `_`,
      then the title. */
  lemma ItemLabelReadsBack(i: nat, e: Entry)
    ensures var p := ZeroPad2(i);
            var l := ItemLabel(i, e);
            |p| >= 2 && |l| > |p| && l[..|p|] == p && l[|p|] == '_'
            && AllDigits(p) && DecimalValue(p) == i
            && l[|p| + 1..] == ValueOr(e.title, FallbackTitle(i))
  {
    ZeroPad2RoundTrip(i);
    var p := ZeroPad2(i);
    var l := ItemLabel(i, e);
    assert l[..|p|] == p;
    assert l[|p| + 1..] == ValueOr(e.title, FallbackTitle(i));
  }

  /** One call of `download_audio(video_url, custom_title)`. */
  datatype DownloadCall = DownloadCall(videoUrl: Option<string>, customTitle: string)

  /** The calls the loop makes for the first `n` entries: one per entry that
      is not `None`, named after its position in the whole list. */
  function CollectionCalls(entries: seq<Option<Entry>>, n: nat): seq<DownloadCall>
    requires n <= |entries|
  {
    if n == 0 then []
    else
      var e := entries[n - 1];
      CollectionCalls(entries, n - 1)
      + (if e.Some? then [DownloadCall(EntryUrl(e.value), ItemLabel(n, e.value))] else [])
  }

  /** The successful downloads among the first `n` entries. */
  function Successes(entries: seq<Option<Entry>>, downloadOk: seq<bool>, n: nat): nat
    requires n <= |entries| == |downloadOk|
  {
    if n == 0 then 0
    else Successes(entries, downloadOk, n - 1) + (if entries[n - 1].Some? && downloadOk[n - 1] then 1 else 0)
  }

  /** One call per entry that is not `None`, and nothing else; a `None`
      entry leaves a gap in the numbering, since the position counts every
      entry. */
  lemma {:induction false} CollectionCallsShape(entries: seq<Option<Entry>>, n: nat)
    requires n <= |entries|
    ensures |CollectionCalls(entries, n)| == PresentCount(entries, n)
    ensures forall c :: c in CollectionCalls(entries, n) ==>
              exists k :: 0 <= k < n && entries[k].Some?
                && c == DownloadCall(EntryUrl(entries[k].value), ItemLabel(k + 1, entries[k].value))
  {
    if n > 0 {
      CollectionCallsShape(entries, n - 1);
      var e := entries[n - 1];
      forall c | c in CollectionCalls(entries, n)
        ensures exists k :: 0 <= k < n && entries[k].Some?
                  && c == DownloadCall(EntryUrl(entries[k].value), ItemLabel(k + 1, entries[k].value))
      {
        if c !in CollectionCalls(entries, n - 1) {
          assert e.Some? && c == DownloadCall(EntryUrl(e.value), ItemLabel(n, e.value));
        }
      }
    }
  }

  /** The calls are in list order: the entry at position `k` gets the call
      after those of the present entries before it. */
  lemma {:induction false} CollectionCallsAt(entries: seq<Option<Entry>>, n: nat)
    requires n <= |entries|
    ensures forall k | 0 <= k < n && entries[k].Some? ::
              PresentCount(entries, k) < |CollectionCalls(entries, n)|
              && CollectionCalls(entries, n)[PresentCount(entries, k)]
                   == DownloadCall(EntryUrl(entries[k].value), ItemLabel(k + 1, entries[k].value))
  {
    if n > 0 {
      CollectionCallsAt(entries, n - 1);
      CollectionCallsShape(entries, n - 1);
      var before := CollectionCalls(entries, n - 1);
      var calls := CollectionCalls(entries, n);
      forall k | 0 <= k < n && entries[k].Some?
        ensures PresentCount(entries, k) < |calls|
        ensures calls[PresentCount(entries, k)]
                  == DownloadCall(EntryUrl(entries[k].value), ItemLabel(k + 1, entries[k].value))
      {
        if k < n - 1 {
          PresentCountBelow(entries, k, n - 1);
          assert calls[PresentCount(entries, k)] == before[PresentCount(entries, k)];
        }
      }
    }
  }

  /** The count is at most the number of entries, and positive exactly when
      some entry that is not `None` was downloaded. */
  lemma {:induction false} SuccessesBounds(entries: seq<Option<Entry>>, downloadOk: seq<bool>, n: nat)
    requires n <= |entries| == |downloadOk|
    ensures Successes(entries, downloadOk, n) <= PresentCount(entries, n) <= n
    ensures Successes(entries, downloadOk, n) > 0 <==>
              exists k :: 0 <= k < n && entries[k].Some? && downloadOk[k]
  {
    if n > 0 {
      SuccessesBounds(entries, downloadOk, n - 1);
      if entries[n - 1].Some? && downloadOk[n - 1] {
        assert 0 <= n - 1 < n && entries[n - 1].Some? && downloadOk[n - 1];
      }
    }
  }

  /** What `extract_from_collection` returns: `False` without info, the
      collection's "some download succeeded", or the single download's
      outcome. */
  function CollectionResult(info: Option<VideoInfo>, downloadOk: seq<bool>, singleOk: bool): bool
    requires info.Some? && info.value.entries.Some? ==> |downloadOk| == |info.value.entries.value|
  {
    if info.None? then false
    else if info.value.entries.Some? then
      var entries := info.value.entries.value;
      Successes(entries, downloadOk, |entries|) > 0
    else singleOk
  }

  /** The calls `extract_from_collection` makes. */
  function CollectionPlan(info: Option<VideoInfo>, url: string): seq<DownloadCall> {
    if info.None? then []
    else if info.value.entries.Some? then
      var entries := info.value.entries.value;
      CollectionCalls(entries, |entries|)
    else [DownloadCall(Some(url), ValueOr(info.value.title, "Unknown"))]
  }

  /** The result is `True` exactly when some download succeeded. */
  lemma CollectionResultMeans(info: Option<VideoInfo>, downloadOk: seq<bool>, singleOk: bool)
    requires info.Some? && info.value.entries.Some? ==> |downloadOk| == |info.value.entries.value|
    ensures info.None? ==> !CollectionResult(info, downloadOk, singleOk)
    ensures info.Some? && info.value.entries.Some? ==>
              (CollectionResult(info, downloadOk, singleOk) <==>
                 exists k :: 0 <= k < |downloadOk| && info.value.entries.value[k].Some? && downloadOk[k])
    ensures info.Some? && info.value.entries.None? ==> CollectionResult(info, downloadOk, singleOk) == singleOk
  {
    if info.Some? && info.value.entries.Some? {
      var entries := info.value.entries.value;
      SuccessesBounds(entries, downloadOk, |entries|);
    }
  }

  /** `extract_from_collection(url)`, given the info yt-dlp reports (`None` when
      it failed or reported an empty dictionary) and the outcome of each
      download; returns the result and the downloads it asked for. */
  method ExtractFromCollection(info: Option<VideoInfo>, url: string, downloadOk: seq<bool>, singleOk: bool)
    returns (result: bool, calls: seq<DownloadCall>)
    requires info.Some? && info.value.entries.Some? ==> |downloadOk| == |info.value.entries.value|
    ensures calls == CollectionPlan(info, url)
    ensures result == CollectionResult(info, downloadOk, singleOk)
    ensures info.Some? && info.value.entries.Some? ==>
              (result <==> exists k :: 0 <= k < |downloadOk| && info.value.entries.value[k].Some? && downloadOk[k])
  {
    if info.None? {
      return false, [];
    }
    if info.value.entries.None? {
      var title := ValueOr(info.value.title, "Unknown");
      return singleOk, [DownloadCall(Some(url), title)];
    }
    var entries := info.value.entries.value;
    var successCount := 0;
    calls := [];
    var i := 1;
    while i <= |entries|
      invariant 1 <= i <= |entries| + 1
      invariant calls == CollectionCalls(entries, i - 1)
      invariant successCount == Successes(entries, downloadOk, i - 1)
    {
      var entry := entries[i - 1];
      if entry.None? {
        i := i + 1;
        continue;
      }
      var title := ValueOr(entry.value.title, FallbackTitle(i));
      var videoUrl := EntryUrl(entry.value);
      calls := calls + [DownloadCall(videoUrl, ZeroPad2(i) + "_" + title)];
      if downloadOk[i - 1] {
        successCount := successCount + 1;
      }
      i := i + 1;
    }
    result := successCount > 0;
    CollectionResultMeans(info, downloadOk, singleOk);
  }
}
