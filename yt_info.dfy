/**
 * The parts of a yt-dlp info dictionary that the two extractors read:
 * `entries` (present for a collection or playlist; an item may be `None`),
 * `title`, and for each entry `title`, `webpage_url` and `url`.  An absent
 * key is `None`.
 */
module YtInfo {
  import opened Wrappers
  import opened Text

  datatype Entry = Entry(title: Option<string>, webpageUrl: Option<string>, url: Option<string>)

  datatype VideoInfo = VideoInfo(entries: Option<seq<Option<Entry>>>, title: Option<string>)

  /** `d.get(key, fallback)` for a string-valued key. */
  function ValueOr(value: Option<string>, fallback: string): (r: string)
    ensures value.Some? ==> r == value.value
    ensures value.None? ==> r == fallback
  {
    if value.Some? then value.value else fallback
  }

  /** `entry.get('webpage_url') or entry.get('url')`: the page URL unless it
      is absent or empty, else the plain URL (possibly absent). */
  function EntryUrl(e: Entry): (r: Option<string>)
    ensures r == e.webpageUrl || r == e.url
    ensures r == e.url <== e.webpageUrl.None? || e.webpageUrl == Some("")
    ensures r == e.webpageUrl <== e.webpageUrl.Some? && e.webpageUrl != Some("")
  {
    if e.webpageUrl.Some? && e.webpageUrl.value != "" then e.webpageUrl else e.url
  }

  /** `f'Video_{i}'`, the title of an entry without one. */
  function FallbackTitle(i: nat): string {
    "Video_" + DecimalString(i)
  }

  /** The number of entries that are not `None` among the first `n`. */
  function PresentCount(entries: seq<Option<Entry>>, n: nat): (c: nat)
    requires n <= |entries|
    ensures c <= n
  {
    if n == 0 then 0 else PresentCount(entries, n - 1) + (if entries[n - 1].Some? then 1 else 0)
  }

  /** The count over the first `k` entries only looks at those entries. */
  lemma {:induction false} PresentCountPrefix(entries: seq<Option<Entry>>, m: nat, k: nat)
    requires k <= m <= |entries|
    ensures PresentCount(entries[..m], k) == PresentCount(entries, k)
  {
    if k > 0 {
      PresentCountPrefix(entries, m, k - 1);
      assert entries[..m][k - 1] == entries[k - 1];
    }
  }

  /** An entry that is not `None` counts itself: the entries before it number
      fewer than those up to any later point. */
  lemma {:induction false} PresentCountBelow(entries: seq<Option<Entry>>, k: nat, n: nat)
    requires k < n <= |entries| && entries[k].Some?
    ensures PresentCount(entries, k) < PresentCount(entries, n)
  {
    if n > k + 1 {
      PresentCountBelow(entries, k, n - 1);
    }
  }

  /** The entries that are not `None`, in order: the entry at position `k`
      is the one after the `PresentCount(entries, k)` present entries that
      precede it, and nothing else is added. */
  function Present(entries: seq<Option<Entry>>): (r: seq<Entry>)
    ensures |r| == PresentCount(entries, |entries|) <= |entries|
    ensures forall k | 0 <= k < |entries| && entries[k].Some? ::
              PresentCount(entries, k) < |r| && r[PresentCount(entries, k)] == entries[k].value
    ensures forall e :: e in r <==> Some(e) in entries
    decreases |entries|
  {
    if entries == [] then []
    else
      var m := |entries| - 1;
      var rest := Present(entries[..m]);
      var r := if entries[m].Some? then rest + [entries[m].value] else rest;
      PresentExtend(entries, rest, r);
      r
  }

  /** The step of `Present`: what holds of the present entries of all but
      the last entry carries over once the last one is appended, when it is
      present. */
  lemma PresentExtend(entries: seq<Option<Entry>>, rest: seq<Entry>, r: seq<Entry>)
    requires |entries| > 0
    requires var init := entries[..|entries| - 1];
      && |rest| == PresentCount(init, |init|)
      && (forall k | 0 <= k < |init| && init[k].Some? ::
            PresentCount(init, k) < |rest| && rest[PresentCount(init, k)] == init[k].value)
      && (forall e :: e in rest <==> Some(e) in init)
    requires r == if entries[|entries| - 1].Some? then rest + [entries[|entries| - 1].value] else rest
    ensures |r| == PresentCount(entries, |entries|) <= |entries|
    ensures forall k | 0 <= k < |entries| && entries[k].Some? ::
              PresentCount(entries, k) < |r| && r[PresentCount(entries, k)] == entries[k].value
    ensures forall e :: e in r <==> Some(e) in entries
  {
    var m := |entries| - 1;
    var init := entries[..m];
    PresentCountPrefix(entries, m, m);
    forall k | 0 <= k < m
      ensures PresentCount(init, k) == PresentCount(entries, k) && init[k] == entries[k]
    {
      PresentCountPrefix(entries, m, k);
    }
    assert forall x :: x in entries <==> x in init || x == entries[m];
    PresentStep(entries, rest, r);
  }

  /** Appending the last entry, when it is present, at the end of the
      present entries before it keeps every entry at its count. */
  lemma PresentStep(entries: seq<Option<Entry>>, rest: seq<Entry>, r: seq<Entry>)
    requires |entries| > 0 && |rest| == PresentCount(entries, |entries| - 1)
    requires forall k | 0 <= k < |entries| - 1 && entries[k].Some? ::
               PresentCount(entries, k) < |rest| && rest[PresentCount(entries, k)] == entries[k].value
    requires r == if entries[|entries| - 1].Some? then rest + [entries[|entries| - 1].value] else rest
    ensures forall k | 0 <= k < |entries| && entries[k].Some? ::
              PresentCount(entries, k) < |r| && r[PresentCount(entries, k)] == entries[k].value
  {
    forall k | 0 <= k < |entries| && entries[k].Some?
      ensures PresentCount(entries, k) < |r| && r[PresentCount(entries, k)] == entries[k].value
    {
      if k < |entries| - 1 {
        assert r[PresentCount(entries, k)] == rest[PresentCount(entries, k)];
      }
    }
  }
}
