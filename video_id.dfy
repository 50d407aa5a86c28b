/**
 * `extract_video_id` of bilibili_audio_extractor.py (lines 58-73).  Three
 * patterns are tried in a fixed order, each with `re.search`:
 *
 *   `bilibili\.com/video/([^/?]+)`, `b23\.tv/([^/?]+)`, `BV([A-Za-z0-9]+)`.
 *
 * Each pattern is a literal followed by a greedy `+` over a character class,
 * so it matches at position `j` exactly when the literal is there and at
 * least one class character follows it; since nothing follows the group,
 * the group is the whole run of class characters.  The search takes the
 * leftmost such `j`.  The first pattern that matches anywhere gives the
 * id, which gets a `BV` prefix unless it already starts with `BV`.
 */
module VideoId {
  import opened Wrappers
  import opened Text

  datatype Pattern = VideoPath | ShortLink | BareBv

  /** The literal part of each pattern. */
  function Literal(p: Pattern): string {
    match p
    case VideoPath => "bilibili.com/video/"
    case ShortLink => "b23.tv/"
    case BareBv => "BV"
  }

  /** The class of the captured group of each pattern. */
  function Group(p: Pattern): CharClass {
    match p
    case VideoPath => NotSlashOrQuery
    case ShortLink => NotSlashOrQuery
    case BareBv => AsciiAlnum
  }

  /** The pattern matches with its literal starting at `j`. */
  predicate MatchesAt(url: string, p: Pattern, j: nat) {
    var g := j + |Literal(p)|;
    g < |url| && url[j..g] == Literal(p) && In(url[g], Group(p))
  }

  /** The group captured by a match at `j`: the run of class characters
      after the literal. */
  function CaptureAt(url: string, p: Pattern, j: nat): (g: string)
    requires MatchesAt(url, p, j)
    ensures |g| > 0
    ensures forall i :: 0 <= i < |g| ==> In(g[i], Group(p))
    ensures var start := j + |Literal(p)|;
            start + |g| <= |url| && g == url[start..start + |g|]
            && (start + |g| == |url| || !In(url[start + |g|], Group(p)))
  {
    var start := j + |Literal(p)|;
    url[start..RunEnd(url, start, Group(p))]
  }

  /** The leftmost match of `p` (`re.search`). */
  function Search(url: string, p: Pattern): (j: Option<nat>)
    ensures j.Some? ==> MatchesAt(url, p, j.value)
    ensures j.Some? ==> forall k: nat :: k < j.value ==> !MatchesAt(url, p, k)
    ensures j.None? ==> forall k: nat :: !MatchesAt(url, p, k)
  {
    var ok := (k: nat) => MatchesAt(url, p, k);
    var r := FirstFrom(|url|, 0, ok);
    assert r.Some? ==> ok(r.value) == MatchesAt(url, p, r.value);
    assert forall k: nat :: k < (if r.Some? then r.value else |url|) ==> !ok(k) && ok(k) == MatchesAt(url, p, k);
    r
  }

  predicate StartsWithBv(s: string) {
    |s| >= 2 && s[..2] == "BV"
  }

  /** Lines 69-71: prefix `BV` when the id does not start with it. */
  function WithBvPrefix(id: string): (r: string)
    ensures StartsWithBv(r)
    ensures StartsWithBv(id) ==> r == id
    ensures !StartsWithBv(id) ==> r == "BV" + id
  {
    if StartsWithBv(id) then id else "BV" + id
  }

  /** The id from the first pattern, in priority order, that occurs. */
  function ExtractVideoId(url: string): (r: Option<string>)
    ensures r.Some? ==> StartsWithBv(r.value) && '/' !in r.value && '?' !in r.value
    ensures r.None? <==> forall p, k: nat :: !MatchesAt(url, p, k)
  {
    var first := Search(url, VideoPath);
    var second := Search(url, ShortLink);
    var third := Search(url, BareBv);
    if first.Some? then Some(IdFrom(url, VideoPath, first.value))
    else if second.Some? then Some(IdFrom(url, ShortLink, second.value))
    else if third.Some? then Some(IdFrom(url, BareBv, third.value))
    else
      NoMatchOfAny(url);
      None
  }

  lemma NoMatchOfAny(url: string)
    requires forall k: nat :: !MatchesAt(url, VideoPath, k)
    requires forall k: nat :: !MatchesAt(url, ShortLink, k)
    requires forall k: nat :: !MatchesAt(url, BareBv, k)
    ensures forall p, k: nat :: !MatchesAt(url, p, k)
  {
    forall p, k: nat ensures !MatchesAt(url, p, k) {
      match p
      case VideoPath =>
      case ShortLink =>
      case BareBv =>
    }
  }

  /** The prefixed id of the match at `j`. */
  function IdFrom(url: string, p: Pattern, j: nat): (r: string)
    requires MatchesAt(url, p, j)
    ensures StartsWithBv(r) && '/' !in r && '?' !in r
    ensures p == BareBv ==> forall i :: 0 <= i < |r| ==> IsAsciiAlnum(r[i])
  {
    var g := CaptureAt(url, p, j);
    var r := WithBvPrefix(g);
    assert forall i :: 2 <= i < |r| ==> r[i] == g[i - |r| + |g|];
    assert '/' !in r && '?' !in r by {
      assert r[0] == 'B' && r[1] == 'V';
      forall i | 0 <= i < |r| ensures r[i] != '/' && r[i] != '?' {
        if i >= 2 { assert In(g[i - |r| + |g|], Group(p)); }
      }
    }
    r
  }

  /** The priorities ignore positions: a `bilibili.com/video/` match
      anywhere decides, then a `b23.tv/` match anywhere, then a bare `BV`;
      within a pattern the leftmost match decides. */
  lemma {:induction false} PatternPriority(url: string, p: Pattern, j: nat)
    requires MatchesAt(url, p, j)
    requires forall q, k: nat :: Rank(q) < Rank(p) ==> !MatchesAt(url, q, k)
    requires forall k: nat :: k < j ==> !MatchesAt(url, p, k)
    ensures ExtractVideoId(url) == Some(IdFrom(url, p, j))
  {
    assert Search(url, p) == Some(j);
    match p
    case VideoPath =>
    case ShortLink =>
      assert forall k: nat :: !MatchesAt(url, VideoPath, k) by {
        assert Rank(VideoPath) < Rank(p);
      }
    case BareBv =>
      assert forall k: nat :: !MatchesAt(url, VideoPath, k) && !MatchesAt(url, ShortLink, k) by {
        assert Rank(VideoPath) < Rank(p) && Rank(ShortLink) < Rank(p);
      }
  }

  /** The order the patterns are tried in. */
  function Rank(p: Pattern): nat {
    match p
    case VideoPath => 0
    case ShortLink => 1
    case BareBv => 2
  }

  /** The id names the character after a literal, so any `b23.tv/` link
      gives an id even when it is followed by a query string. */
  lemma ShortLinkExample(url: string)
    requires url == "https://b23.tv/abc?x=1"
    ensures ExtractVideoId(url) == Some("BVabc")
  {
    ShortLinkExampleFirst(url);
    ShortLinkExampleId(url);
    PatternPriority(url, ShortLink, 8);
  }

  /** Nothing in the example matches before its `b23.tv/`. */
  lemma ShortLinkExampleFirst(url: string)
    requires url == "https://b23.tv/abc?x=1"
    ensures forall k: nat :: !MatchesAt(url, VideoPath, k)
    ensures forall k: nat :: k < 8 ==> !MatchesAt(url, ShortLink, k)
  {
    assert url[..8] == "https://";
    assert forall k :: 0 <= k < 8 ==> url[k] != 'b' by {
      assert forall k :: 0 <= k < 8 ==> url[k] == "https://"[k];
    }
    forall k: nat ensures !MatchesAt(url, VideoPath, k) {
      if k + 19 < |url| {
        assert k < 3;
        assert url[k..k + 19][0] == url[k] != 'b';
      }
    }
    forall k: nat | k < 8 ensures !MatchesAt(url, ShortLink, k) {
      assert url[k..k + 7][0] == url[k] != 'b';
    }
  }

  /** The example's `b23.tv/` match captures `abc`. */
  lemma ShortLinkExampleId(url: string)
    requires url == "https://b23.tv/abc?x=1"
    ensures MatchesAt(url, ShortLink, 8) && IdFrom(url, ShortLink, 8) == "BVabc"
  {
    assert url[8..15] == "b23.tv/";
    assert MatchesAt(url, ShortLink, 8);
    assert url[18] == '?' && url[15] == 'a' && url[16] == 'b' && url[17] == 'c';
    assert RunEnd(url, 18, NotSlashOrQuery) == 18;
    assert RunEnd(url, 16, NotSlashOrQuery) == 18;
    assert RunEnd(url, 15, NotSlashOrQuery) == 18;
    assert url[15..18] == "abc";
    assert |Literal(ShortLink)| == 7 && Group(ShortLink) == NotSlashOrQuery;
    assert CaptureAt(url, ShortLink, 8) == "abc";
    assert !StartsWithBv("abc");
    assert IdFrom(url, ShortLink, 8) == WithBvPrefix("abc") == "BVabc";
  }
}
