/**
 * `extract_song_name` of rename_mp3.py: drop the extension, then try five
 * regular expressions in a fixed order; the first that matches decides the
 * song title, and a name no rule matches comes back as it is.
 *
 * Each pattern is encoded directly by the match Python's backtracking
 * engine settles on.  Runs are greedy (`RunEnd`); a lazy `.*?` or the scan
 * of `re.search` is the least position that lets the rest match
 * (`FirstFrom`).  Where a greedy run has to give back a character for the
 * pattern to succeed, the function says so.  The patterns are applied to a
 * name without line breaks, where `.` matches every character and `$` only
 * the end of the string.
 */
module SongName {
  import opened Wrappers
  import opened Text

  /** `filename.rsplit('.', 1)[0]`: everything before the last `.`, or the
      whole name when it has none. */
  function DropExtension(s: string): (r: string)
    ensures |r| <= |s| && r == s[..|r|]
    ensures '.' !in s ==> r == s
    ensures '.' in s ==> |r| < |s| && s[|r|] == '.' && '.' !in s[|r| + 1..]
  {
    match LastIndexOf(s, '.')
    case None => s
    case Some(i) => s[..i]
  }

  /** Whatever the name, adding `.mp3` and dropping the extension again
      gives the name back. */
  lemma DropExtensionMp3(s: string)
    ensures DropExtension(s + ".mp3") == s
  {
    var f := s + ".mp3";
    assert f[|s|] == '.';
    assert f[|s| + 1..] == "mp3";
    var r := DropExtension(f);
    assert |r| == |s|;
  }

  // ---------------------------------------------------------------------
  // Pieces shared by the patterns.

  /** `^\d+_`: the position just after the `_`.  The greedy `\d+` cannot give
      digits back, since the character after a shorter run is a digit and
      not the `_`. */
  function IndexPrefixEnd(n: string): (r: Option<nat>)
    ensures r.Some? ==> 2 <= r.value <= |n| && n[r.value - 1] == '_'
    ensures r.Some? ==> forall k :: 0 <= k < r.value - 1 ==> IsDigit(n[k])
    ensures |n| == 0 || !IsDigit(n[0]) ==> r.None?
  {
    var k := RunEnd(n, 0, Digit);
    if 0 < k < |n| && n[k] == '_' then Some(k + 1) else None
  }

  /** Conversely, a name made of digits up to a `_` has its prefix end just
      after that `_`. */
  lemma IndexPrefixEndOf(n: string, k: nat)
    requires 0 < k < |n| && n[k] == '_' && AllDigits(n[..k])
    ensures IndexPrefixEnd(n) == Some(k + 1)
  {
  }

  /** Where the runs of `\sp\d+\s+` end when the marker starts at `j`. */
  datatype Marker = Marker(digitsEnd: nat, spacesEnd: nat)

  /** `\sp\d+\s+` at `j`.  The runs are greedy and keep all they take: a
      shorter digit run would have to be followed by a space; a shorter
      space run is only needed by the patterns through `TitleStart`. */
  function MarkerAt(n: string, j: nat): (r: Option<Marker>)
    ensures r.Some? ==> j + 2 < r.value.digitsEnd < r.value.spacesEnd <= |n|
    ensures r.Some? ==> IsSpace(n[j]) && n[j + 1] == 'p'
    ensures !(j < |n| && IsSpace(n[j])) ==> r.None?
  {
    if j + 2 <= |n| && IsSpace(n[j]) && n[j + 1] == 'p' then
      var m := RunEnd(n, j + 2, Digit);
      if m > j + 2 then
        var w := RunEnd(n, m, Space);
        if w > m then Some(Marker(m, w)) else None
      else None
    else None
  }

  /** Where the title group `(.+?)` starts after a marker at `j`: just after
      the spaces; when the spaces reach the end of the name, the `\s+` gives
      its last space back to the group, provided it keeps one for itself. */
  function TitleStart(n: string, j: nat): (q: Option<nat>)
    ensures q.Some? ==> MarkerAt(n, j).Some? && q.value < |n|
    ensures q.Some? ==> MarkerAt(n, j).value.digitsEnd < q.value <= MarkerAt(n, j).value.spacesEnd
    ensures MarkerAt(n, j).Some? && MarkerAt(n, j).value.spacesEnd < |n| ==> q.Some?
  {
    match MarkerAt(n, j)
    case None => None
    case Some(mk) =>
      if mk.spacesEnd < |n| then Some(mk.spacesEnd)
      else if mk.spacesEnd - mk.digitsEnd >= 2 then Some(mk.spacesEnd - 1)
      else None
  }

  /** `-.*?-.*?$` can match from `e`: a `-` here and another later. */
  predicate DashPairAt(n: string, e: nat) {
    e < |n| && n[e] == '-' && '-' in n[e + 1..]
  }

  /** `-.*?-\d{4}$` can match from `e`: a `-` here, and the name ends in a
      `-` and four digits that start after `e`. */
  predicate YearTailAt(n: string, e: nat) {
    e + 6 <= |n| && n[e] == '-' && n[|n| - 5] == '-' && AllDigits(n[|n| - 4..])
  }

  /** The end of a lazy `(.+?)` that starts at `q` and is followed by
      `(?:-.*?-.*?)?$`: the first place after `q` the option matches, or the
      end of the name. */
  function DashGroupEnd(n: string, q: nat): (e: nat)
    requires q < |n|
    ensures q < e <= |n|
    ensures e < |n| ==> DashPairAt(n, e)
    ensures forall k :: q < k < e ==> !DashPairAt(n, k)
  {
    var ok := (k: nat) => DashPairAt(n, k);
    var r := FirstFrom(|n|, q + 1, ok);
    var e := if r.Some? then r.value else |n|;
    assert forall k :: q < k < e ==> !ok(k) && ok(k) == DashPairAt(n, k);
    e
  }

  /** The end of a lazy `(.+?)` that starts at `q` and is followed by
      `(?:-.*?-\d{4})?$`. */
  function YearGroupEnd(n: string, q: nat): (e: nat)
    requires q < |n|
    ensures q < e <= |n|
    ensures e < |n| ==> YearTailAt(n, e)
    ensures forall k :: q < k < e ==> !YearTailAt(n, k)
  {
    var ok := (k: nat) => YearTailAt(n, k);
    var r := FirstFrom(|n|, q + 1, ok);
    var e := if r.Some? then r.value else |n|;
    assert forall k :: q < k < e ==> !ok(k) && ok(k) == YearTailAt(n, k);
    e
  }

  // ---------------------------------------------------------------------
  // The lazy scans: the least start position from which the rest of a
  // pattern matches.

  /** Where the lazy scan from `from` finds the marker of every digit pattern, with a title after it. */
  function FirstTitle(n: string, from: nat): (j: Option<nat>)
    ensures j.Some? ==> from <= j.value < |n| && TitleStart(n, j.value).Some?
    ensures forall k :: from <= k < (if j.Some? then j.value else |n|) ==> !(TitleStart(n, k).Some?)
  {
    var ok := (k: nat) => TitleStart(n, k).Some?;
    var r := FirstFrom(|n|, from, ok);
    assert r.Some? ==> ok(r.value) == TitleStart(n, r.value).Some?;
    assert forall k :: from <= k < (if r.Some? then r.value else |n|) ==> !ok(k) && ok(k) == (TitleStart(n, k).Some?);
    r
  }

  /** Where the lazy scan from `from` finds the marker of the Wang Jie pattern. */
  function FirstWangJie(n: string, from: nat): (j: Option<nat>)
    ensures j.Some? ==> from <= j.value < |n| && WangJieAt(n, j.value).Some?
    ensures forall k :: from <= k < (if j.Some? then j.value else |n|) ==> !(WangJieAt(n, k).Some?)
  {
    var ok := (k: nat) => WangJieAt(n, k).Some?;
    var r := FirstFrom(|n|, from, ok);
    assert r.Some? ==> ok(r.value) == WangJieAt(n, r.value).Some?;
    assert forall k :: from <= k < (if r.Some? then r.value else |n|) ==> !ok(k) && ok(k) == (WangJieAt(n, k).Some?);
    r
  }

  /** Where the lazy scan from `from` finds the marker of the old format 1. */
  function FirstOldFormat(n: string, from: nat): (j: Option<nat>)
    ensures j.Some? ==> from <= j.value < |n| && OldFormatAt(n, j.value).Some?
    ensures forall k :: from <= k < (if j.Some? then j.value else |n|) ==> !(OldFormatAt(n, k).Some?)
  {
    var ok := (k: nat) => OldFormatAt(n, k).Some?;
    var r := FirstFrom(|n|, from, ok);
    assert r.Some? ==> ok(r.value) == OldFormatAt(n, r.value).Some?;
    assert forall k :: from <= k < (if r.Some? then r.value else |n|) ==> !ok(k) && ok(k) == (OldFormatAt(n, k).Some?);
    r
  }

  /** Where the lazy scan from `from` finds the `《` of the `NA_` pattern. */
  function FirstBookTitle(n: string, from: nat): (j: Option<nat>)
    ensures j.Some? ==> from <= j.value < |n| && BookTitleAt(n, j.value)
    ensures forall k :: from <= k < (if j.Some? then j.value else |n|) ==> !(BookTitleAt(n, k))
  {
    var ok := (k: nat) => BookTitleAt(n, k);
    var r := FirstFrom(|n|, from, ok);
    assert r.Some? ==> ok(r.value) == BookTitleAt(n, r.value);
    assert forall k :: from <= k < (if r.Some? then r.value else |n|) ==> !ok(k) && ok(k) == (BookTitleAt(n, k));
    r
  }

  /** Where the lazy scan from `from` finds the `\s+` of the fallback. */
  function FirstFallback(n: string, from: nat): (j: Option<nat>)
    ensures j.Some? ==> from <= j.value < |n| && FallbackAt(n, j.value).Some?
    ensures forall k :: from <= k < (if j.Some? then j.value else |n|) ==> !(FallbackAt(n, k).Some?)
  {
    var ok := (k: nat) => FallbackAt(n, k).Some?;
    var r := FirstFrom(|n|, from, ok);
    assert r.Some? ==> ok(r.value) == FallbackAt(n, r.value).Some?;
    assert forall k :: from <= k < (if r.Some? then r.value else |n|) ==> !ok(k) && ok(k) == (FallbackAt(n, k).Some?);
    r
  }

  // ---------------------------------------------------------------------
  // The five patterns; each gives the text of its group 1.

  /** `^\d+_.*?\sp\d+\s+(.+?)(?:-.*?-.*?)?$` (rename_mp3.py:19). */
  function LatestGroup(n: string): (g: Option<string>)
    ensures g.Some? ==> |g.value| > 0 && IsInfix(g.value, n)
  {
    match IndexPrefixEnd(n)
    case None => None
    case Some(a) =>
      match FirstTitle(n, a)
      case None => None
      case Some(j) =>
        var q := TitleStart(n, j).value;
        SliceIsInfix(n, q, DashGroupEnd(n, q));
        Some(n[q..DashGroupEnd(n, q)])
  }

  /** Where the group of the Wang Jie pattern starts when its marker is at
      `j`: after `\d+\.` that follows the spaces directly. */
  function WangJieAt(n: string, j: nat): (q: Option<nat>)
    ensures q.Some? ==> MarkerAt(n, j).Some? && MarkerAt(n, j).value.spacesEnd < q.value < |n|
    ensures q.Some? ==> q.value >= 2 && n[q.value - 1] == '.' && IsDigit(n[q.value - 2])
  {
    match MarkerAt(n, j)
    case None => None
    case Some(mk) =>
      var t := TrackNumberEnd(n, mk.spacesEnd);
      if t.Some? && t.value < |n| then
        assert mk.spacesEnd + 2 <= t.value;
        t
      else None
  }

  /** `\d+\.` at `w`, the greedy digit run keeping all it takes: the position
      after the dot. */
  function TrackNumberEnd(n: string, w: nat): (q: Option<nat>)
    requires w <= |n|
    ensures q.Some? ==> w + 2 <= q.value <= |n| && n[q.value - 1] == '.' && IsDigit(n[q.value - 2])
  {
    var d := RunEnd(n, w, Digit);
    if d > w && d < |n| && n[d] == '.' then
      assert In(n[d - 1], Digit);
      Some(d + 1)
    else None
  }

  /** Where the group of `^\d+_.*?\sp\d+\s+\d+\.(.+)$` (rename_mp3.py:30)
      starts in the match the scan settles on: just after the track number's
      dot. */
  function WangJieStart(n: string): (q: Option<nat>)
    ensures q.Some? ==> 2 <= q.value < |n| && n[q.value - 1] == '.' && IsDigit(n[q.value - 2])
  {
    match IndexPrefixEnd(n)
    case None => None
    case Some(a) =>
      match FirstWangJie(n, a)
      case None => None
      case Some(j) => WangJieAt(n, j)
  }

  /** `^\d+_.*?\sp\d+\s+\d+\.(.+)$` (rename_mp3.py:30): the rest of the name
      after a track number and its dot. */
  function WangJieGroup(n: string): (g: Option<string>)
    ensures g.Some? ==> 0 < |g.value| && |g.value| + 2 <= |n| && g.value == n[|n| - |g.value|..]
    ensures g.Some? ==> n[|n| - |g.value| - 1] == '.' && IsDigit(n[|n| - |g.value| - 2])
    ensures g.Some? ==> IsInfix(g.value, n)
  {
    match WangJieStart(n)
    case None => None
    case Some(q) =>
      SuffixIsInfix(n, q);
      Some(n[q..])
  }

  /** A suffix of a name is one of its infixes. */
  lemma SuffixIsInfix(n: string, q: nat)
    requires q <= |n|
    ensures |n[q..]| == |n| - q && n[q..] == n[|n| - |n[q..]|..]
    ensures IsInfix(n[q..], n)
  {
    assert OccursAt(n[q..], n, q);
  }

  /** Where the group of the old format 1 starts when its marker is at `j`:
      after a bracketed `【...】` that directly follows the spaces, provided
      something follows its first `】`; otherwise where the bare title would
      start. */
  function OldFormatAt(n: string, j: nat): (q: Option<nat>)
    ensures q.Some? ==> q.value < |n|
  {
    match TitleStart(n, j)
    case None => None
    case Some(q) =>
      if n[q] == '【' then
        match FirstIndexOf(n[q + 1..], '】')
        case Some(t) => if q + t + 2 < |n| then Some(q + t + 2) else Some(q)
        case None => Some(q)
      else Some(q)
  }

  /** Where the group of the old format 1 starts in the match the scan
      settles on. */
  function OldFormatStart(n: string): (q: Option<nat>)
    ensures q.Some? ==> q.value < |n|
  {
    match IndexPrefixEnd(n)
    case None => None
    case Some(a) =>
      match FirstOldFormat(n, a)
      case None => None
      case Some(j) => OldFormatAt(n, j)
  }

  /** `^\d+_.*?\sp\d+\s+(?:【.*?】)?(.+?)(?:-.*?-\d{4})?$` (rename_mp3.py:38). */
  function OldFormatGroup(n: string): (g: Option<string>)
    ensures g.Some? <==> OldFormatStart(n).Some?
    ensures g.Some? ==> |g.value| > 0 && IsInfix(g.value, n)
  {
    match OldFormatStart(n)
    case None => None
    case Some(q) =>
      SliceIsInfix(n, q, YearGroupEnd(n, q));
      Some(n[q..YearGroupEnd(n, q)])
  }

  /** The old format 1 matched its optional year suffix `-...-dddd`: the name
      has the song-film-year layout its comment describes. */
  predicate OldFormatDated(n: string) {
    OldFormatStart(n).Some? && YearGroupEnd(n, OldFormatStart(n).value) < |n|
  }

  /** `《` at `i` with a `》` at least two characters further on. */
  predicate BookTitleAt(n: string, i: nat) {
    i + 2 <= |n| && n[i] == '《' && '》' in n[i + 2..]
  }

  /** `^NA_.*?《(.+?)》.*$` (rename_mp3.py:46): the text after the first `《`
      that has a `》` after at least one character, up to that `》`. */
  function NaGroup(n: string): (g: Option<string>)
    ensures g.Some? ==> |g.value| > 0 && '》' !in g.value[1..] && IsInfix(g.value, n)
    ensures !(|n| >= 3 && n[..3] == "NA_") ==> g.None?
  {
    if |n| >= 3 && n[..3] == "NA_" then
      match FirstBookTitle(n, 3)
      case None => None
      case Some(i) =>
        var t := FirstIndexOf(n[i + 2..], '》').value;
        assert n[i + 1..i + 2 + t][1..] == n[i + 2..][..t];
        SliceIsInfix(n, i + 1, i + 2 + t);
        Some(n[i + 1..i + 2 + t])
    else None
  }

  /** Where the group of the fallback starts when `\s+` starts at `j`. */
  function FallbackAt(n: string, j: nat): (q: Option<nat>)
    ensures q.Some? ==> j < q.value < |n| && IsSpace(n[j])
    ensures !(j < |n| && IsSpace(n[j])) ==> q.None?
  {
    if j < |n| && IsSpace(n[j]) then
      var w := RunEnd(n, j, Space);
      if w < |n| then Some(w)
      else if w - j >= 2 then Some(w - 1)
      else None
    else None
  }

  /** `^.*?\s+(.+?)(?:-.*?-\d{4})?$` (rename_mp3.py:53). */
  function FallbackGroup(n: string): (g: Option<string>)
    ensures g.Some? ==> |g.value| > 0 && IsInfix(g.value, n)
  {
    match FirstFallback(n, 0)
    case None => None
    case Some(j) =>
      var q := FallbackAt(n, j).value;
      SliceIsInfix(n, q, YearGroupEnd(n, q));
      Some(n[q..YearGroupEnd(n, q)])
  }

  // ---------------------------------------------------------------------
  // The cascade.

  /** What the latest rule does with its group (rename_mp3.py:22-26): strip,
      then keep what precedes the first `-`, stripped again. */
  function LatestFinish(g: string): (r: string)
    ensures '-' !in r
    ensures r == [] || (!IsSpace(r[0]) && !IsSpace(r[|r| - 1]))
    ensures '-' !in g ==> r == Strip(g, Space)
  {
    var s := Strip(g, Space);
    InfixLacks(g, StripOffset(g, Space), StripOffset(g, Space) + |s|, '-');
    match FirstIndexOf(s, '-')
    case None => s
    case Some(i) =>
      var r := Strip(s[..i], Space);
      InfixLacks(s[..i], StripOffset(s[..i], Space), StripOffset(s[..i], Space) + |r|, '-');
      r
  }

  /** What the latest rule keeps is a piece of its group. */
  lemma LatestFinishInfix(g: string)
    ensures IsInfix(LatestFinish(g), g)
  {
    var s := Strip(g, Space);
    SliceIsInfix(g, 0, |g|);
    assert g[0..|g|] == g;
    StripStaysInfix(g, g, Space);
    match FirstIndexOf(s, '-')
    case None =>
    case Some(i) =>
      SliceIsInfix(s, 0, i);
      assert s[0..i] == s[..i];
      InfixTrans(s[..i], s, g);
      StripStaysInfix(s[..i], g, Space);
  }

  /** A character missing from a string is missing from its infixes. */
  lemma InfixLacks(s: string, a: nat, b: nat, c: char)
    requires a <= b <= |s|
    ensures c !in s ==> c !in s[a..b]
  {
    if c in s[a..b] {
      var k :| 0 <= k < b - a && s[a..b][k] == c;
      assert s[a + k] == c;
    }
  }

  /** A title a rule returns: a piece of the name without its extension,
      with no whitespace at either end. */
  ghost predicate TitleOf(r: string, n: string) {
    IsInfix(r, n) && (r == [] || (!IsSpace(r[0]) && !IsSpace(r[|r| - 1])))
  }

  /** The stripped group of a rule is a title of the name. */
  lemma StrippedGroupIsTitle(g: string, n: string)
    requires IsInfix(g, n)
    ensures TitleOf(Strip(g, Space), n)
  {
    StripStaysInfix(g, n, Space);
  }

  /** What the latest rule returns is a title of the name. */
  lemma LatestFinishIsTitle(g: string, n: string)
    requires IsInfix(g, n)
    ensures TitleOf(LatestFinish(g), n)
  {
    LatestFinishInfix(g);
    InfixTrans(LatestFinish(g), g, n);
  }

  /** `extract_song_name` as written (rename_mp3.py:12-60). */
  function ExtractSongName(filename: string): (r: string)
    ensures r == DropExtension(filename) || TitleOf(r, DropExtension(filename))
    ensures LatestGroup(DropExtension(filename)).Some? ==> '-' !in r
  {
    var n := DropExtension(filename);
    if LatestGroup(n).Some? then
      LatestFinishIsTitle(LatestGroup(n).value, n);
      LatestFinish(LatestGroup(n).value)
    else if WangJieGroup(n).Some? then
      StrippedGroupIsTitle(WangJieGroup(n).value, n);
      Strip(WangJieGroup(n).value, Space)
    else if OldFormatGroup(n).Some? then
      StrippedGroupIsTitle(OldFormatGroup(n).value, n);
      Strip(OldFormatGroup(n).value, Space)
    else if NaGroup(n).Some? then
      StrippedGroupIsTitle(NaGroup(n).value, n);
      Strip(NaGroup(n).value, Space)
    else if FallbackGroup(n).Some? then
      StrippedGroupIsTitle(FallbackGroup(n).value, n);
      Strip(FallbackGroup(n).value, Space)
    else n
  }

  // ---------------------------------------------------------------------
  // Properties of the cascade.

  /** Every name the Wang Jie pattern accepts, the latest pattern accepts
      too: its marker is followed by a digit, so the title group of the
      latest pattern can start there. */
  lemma {:induction false} LatestShadowsWangJie(n: string)
    ensures WangJieGroup(n).Some? ==> LatestGroup(n).Some?
  {
    if WangJieGroup(n).Some? {
      var a := IndexPrefixEnd(n).value;
      var j := FirstWangJie(n, a).value;
      var mk := MarkerAt(n, j).value;
      assert mk.spacesEnd < |n|;
      assert TitleStart(n, j).Some?;
      assert FirstTitle(n, a).Some?;
    }
  }

  /** The old format 1 accepts exactly the names the latest pattern accepts,
      at the same marker: its bracket is optional and its year suffix too. */
  lemma {:induction false} OldFormatIffLatest(n: string)
    ensures OldFormatGroup(n).Some? <==> LatestGroup(n).Some?
  {
    if IndexPrefixEnd(n).Some? {
      var a := IndexPrefixEnd(n).value;
      assert forall j :: OldFormatAt(n, j).Some? <==> TitleStart(n, j).Some?;
      var o := FirstOldFormat(n, a);
      var t := FirstTitle(n, a);
      if o.Some? {
        assert t.Some?;
      }
      if t.Some? {
        assert o.Some?;
      }
    }
  }

  /** Lines 30-42 never decide: the cascade gives what it would give with
      the Wang Jie rule and the old format 1 removed. */
  lemma {:induction false} ShadowedRulesNeverDecide(f: string)
    ensures var n := DropExtension(f);
      ExtractSongName(f) ==
        if LatestGroup(n).Some? then LatestFinish(LatestGroup(n).value)
        else if NaGroup(n).Some? then Strip(NaGroup(n).value, Space)
        else if FallbackGroup(n).Some? then Strip(FallbackGroup(n).value, Space)
        else n
  {
    LatestShadowsWangJie(DropExtension(f));
    OldFormatIffLatest(DropExtension(f));
  }

  /** A name that starts with `NA_` has no leading digit, so none of the three
      digit patterns accepts it. */
  lemma NaPrefixSkipsDigitRules(n: string)
    requires |n| >= 3 && n[..3] == "NA_"
    ensures LatestGroup(n).None? && WangJieGroup(n).None? && OldFormatGroup(n).None?
  {
    assert n[0] == n[..3][0] == 'N';
  }

  /** A name without whitespace that the `NA_` rule does not take comes back
      as the name without its extension: every other pattern needs a `\s`. */
  lemma NoSpaceKeepsName(f: string)
    requires NoSpaceIn(DropExtension(f))
    requires NaGroup(DropExtension(f)).None?
    ensures ExtractSongName(f) == DropExtension(f)
  {
    var n := DropExtension(f);
    assert FirstFallback(n, 0).None?;
    if IndexPrefixEnd(n).Some? {
      var a := IndexPrefixEnd(n).value;
      assert FirstTitle(n, a).None? && FirstWangJie(n, a).None? && FirstOldFormat(n, a).None?;
    }
  }

  // ---------------------------------------------------------------------
  // The evidently intended cascade.

  /** The cascade with the two more specific rules tried before the latest
      rule: the Wang Jie rule, so that its track number `\d+\.` is dropped
      from the title, and the old format 1 when its year suffix matched, so
      that its `【...】` prefix and its film and year are dropped. */
  function ExtractSongNameFixed(filename: string): (r: string)
    ensures r == DropExtension(filename) || TitleOf(r, DropExtension(filename))
    ensures (WangJieGroup(DropExtension(filename)).None? && !OldFormatDated(DropExtension(filename))
             && LatestGroup(DropExtension(filename)).Some?) ==> '-' !in r
  {
    var n := DropExtension(filename);
    if WangJieGroup(n).Some? then
      StrippedGroupIsTitle(WangJieGroup(n).value, n);
      Strip(WangJieGroup(n).value, Space)
    else if OldFormatDated(n) then
      StrippedGroupIsTitle(OldFormatGroup(n).value, n);
      Strip(OldFormatGroup(n).value, Space)
    else if LatestGroup(n).Some? then
      LatestFinishIsTitle(LatestGroup(n).value, n);
      LatestFinish(LatestGroup(n).value)
    else if OldFormatGroup(n).Some? then
      StrippedGroupIsTitle(OldFormatGroup(n).value, n);
      Strip(OldFormatGroup(n).value, Space)
    else if NaGroup(n).Some? then
      StrippedGroupIsTitle(NaGroup(n).value, n);
      Strip(NaGroup(n).value, Space)
    else if FallbackGroup(n).Some? then
      StrippedGroupIsTitle(FallbackGroup(n).value, n);
      Strip(FallbackGroup(n).value, Space)
    else n
  }

  /** The corrected cascade differs from the original only on names the
      Wang Jie pattern accepts and on dated names of the old format 1. */
  lemma FixedAgreesElsewhere(f: string)
    requires WangJieGroup(DropExtension(f)).None? && !OldFormatDated(DropExtension(f))
    ensures ExtractSongNameFixed(f) == ExtractSongName(f)
  {
  }

  // ---------------------------------------------------------------------
  // The examples in the comments of rename_mp3.py.

  /** A two-digit index and `_` make the prefix `^\d+_`. */
  lemma TwoDigitPrefix(n: string)
    requires |n| >= 3 && IsDigit(n[0]) && IsDigit(n[1]) && n[2] == '_'
    ensures IndexPrefixEnd(n) == Some(3)
  {
    assert RunEnd(n, 0, Digit) == 2;
  }

  /** The scans settle on the first marker. */
  lemma FirstTitleIs(n: string, a: nat, j: nat)
    requires a <= j && TitleStart(n, j).Some?
    requires forall k :: a <= k < j ==> MarkerAt(n, k).None?
    ensures FirstTitle(n, a) == Some(j)
  {
  }

  lemma FirstWangJieIs(n: string, a: nat, j: nat)
    requires a <= j && WangJieAt(n, j).Some?
    requires forall k :: a <= k < j ==> MarkerAt(n, k).None?
    ensures FirstWangJie(n, a) == Some(j)
  {
    assert j < |n|;
  }

  lemma FirstOldFormatIs(n: string, a: nat, j: nat)
    requires a <= j && OldFormatAt(n, j).Some?
    requires forall k :: a <= k < j ==> MarkerAt(n, k).None?
    ensures FirstOldFormat(n, a) == Some(j)
  {
    assert j < |n|;
  }

  /** The Wang Jie scan finds nothing when the only marker from `a` on has
      no track number after it. */
  lemma FirstWangJieNone(n: string, a: nat, j: nat)
    requires a <= j && WangJieAt(n, j).None?
    requires forall k :: a <= k < |n| && k != j ==> MarkerAt(n, k).None?
    ensures FirstWangJie(n, a).None?
  {
  }

  /** Without a later `-`, the title group runs to the end. */
  lemma DashGroupToEnd(n: string, q: nat)
    requires q < |n| && forall k :: q < k < |n| ==> n[k] != '-'
    ensures DashGroupEnd(n, q) == |n|
  {
  }

  lemma LatestGroupIs(n: string, a: nat, j: nat, q: nat, e: nat)
    requires IndexPrefixEnd(n) == Some(a) && FirstTitle(n, a) == Some(j)
    requires TitleStart(n, j) == Some(q) && DashGroupEnd(n, q) == e
    ensures LatestGroup(n) == Some(n[q..e])
  {
  }

  lemma WangJieGroupIs(n: string, a: nat, j: nat, q: nat)
    requires IndexPrefixEnd(n) == Some(a) && FirstWangJie(n, a) == Some(j)
    requires WangJieAt(n, j) == Some(q)
    ensures WangJieGroup(n) == Some(n[q..])
  {
  }

  lemma DecidedByLatest(f: string, n: string, g: string)
    requires DropExtension(f) == n && LatestGroup(n) == Some(g)
    ensures ExtractSongName(f) == LatestFinish(g)
  {
  }

  lemma DecidedByWangJieFixed(f: string, n: string, g: string)
    requires DropExtension(f) == n && WangJieGroup(n) == Some(g)
    ensures ExtractSongNameFixed(f) == Strip(g, Space)
  {
  }

  /** A title without `-` or edge whitespace passes the latest rule's
      post-processing unchanged. */
  lemma PlainTitleFinish(g: string)
    requires '-' !in g && (g == [] || (!IsSpace(g[0]) && !IsSpace(g[|g| - 1])))
    ensures LatestFinish(g) == g
  {
    StripUnchanged(g, Space);
  }

  /** Where the pieces of a collection file name `"01_" + t + u` sit. */
  lemma CollectionLayout(n: string, t: string, u: string)
    requires NoSpaceIn(t)
    requires |u| >= 5 && n == "01_" + t + u
    ensures |n| == 3 + |t| + |u|
    ensures IsDigit(n[0]) && IsDigit(n[1]) && n[2] == '_'
    ensures forall k :: 3 <= k < 3 + |t| ==> !IsSpace(n[k]) && MarkerAt(n, k).None?
    ensures forall k :: 0 <= k < |u| ==> n[3 + |t| + k] == u[k]
  {
    assert forall k :: 3 <= k < 3 + |t| ==> n[k] == t[k - 3];
  }

  /** The marker ` p01 ` at `j`, followed by a character that is not
      whitespace. */
  lemma CollectionMarker(n: string, j: nat, u: string)
    requires |u| >= 6 && u[0] == ' ' && u[1] == 'p' && u[2] == '0' && u[3] == '1' && u[4] == ' '
    requires !IsSpace(u[5])
    requires j + |u| <= |n| && forall k :: 0 <= k < |u| ==> n[j + k] == u[k]
    ensures MarkerAt(n, j) == Some(Marker(j + 4, j + 5))
    ensures TitleStart(n, j) == Some(j + 5)
  {
    assert IsSpace(' ');
    assert n[j] == u[0] && n[j + 1] == u[1];
    assert n[j + 2] == u[2] && n[j + 3] == u[3] && n[j + 4] == u[4];
    assert n[j + 5] == u[5];
    assert RunEnd(n, j + 4, Space) == j + 5;
    assert RunEnd(n, j + 2, Digit) == j + 4;
  }

  // The example at rename_mp3.py:18.

  lemma LatestExampleTitle(t: string)
    requires t == "【合集11首】周华健-经典歌曲高品质立体声伴奏合集-精品伴奏馆"
    ensures NoSpaceIn(t)
  {
    forall i | 0 <= i < |t| ensures !IsSpace(t[i]) {
      NotSpace(t[i]);
    }
  }

  lemma LatestExampleDashEnd(n: string, j: nat, u: string)
    requires u == " p01 爱相随-周华健-立体声伴奏"
    requires j + |u| == |n| && forall k :: 0 <= k < |u| ==> n[j + k] == u[k]
    ensures DashGroupEnd(n, j + 5) == j + 8
    ensures n[j + 5..j + 8] == "爱相随"
  {
    var q := j + 5;
    assert n[q] == u[5] && n[q + 1] == u[6] != '-' && n[q + 2] == u[7] != '-';
    assert n[q + 3] == u[8] == '-' && n[q + 7] == u[12] == '-';
    assert n[q + 7] == n[q + 4..][3];
    assert DashPairAt(n, q + 3);
    assert !DashPairAt(n, q + 1) && !DashPairAt(n, q + 2);
    var e := DashGroupEnd(n, q);
    assert e <= q + 3;
  }

  /** Whatever the collection title, as long as it has no whitespace, the
      latest pattern takes `爱相随` out of the line-18 layout. */
  lemma LatestExampleGroup(n: string, t: string, u: string)
    requires NoSpaceIn(t)
    requires u == " p01 爱相随-周华健-立体声伴奏"
    requires n == "01_" + t + u
    ensures LatestGroup(n) == Some("爱相随")
  {
    var j := 3 + |t|;
    assert u[5] == '爱';
    NotSpace(u[5]);
    CollectionTitle(n, t, u);
    LatestExampleDashEnd(n, j, u);
    LatestGroupIs(n, 3, j, j + 5, j + 8);
  }

  lemma LatestExampleFinish(g: string)
    requires g == "爱相随"
    ensures LatestFinish(g) == g
  {
    NotSpace(g[0]);
    NotSpace(g[2]);
    PlainTitleFinish(g);
  }

  /** The example at rename_mp3.py:18, as the downloaded file
      `"01_" + t + u + ".mp3"`, gives `爱相随`. */
  lemma LatestExample(t: string, u: string)
    requires t == "【合集11首】周华健-经典歌曲高品质立体声伴奏合集-精品伴奏馆"
    requires u == " p01 爱相随-周华健-立体声伴奏"
    ensures ExtractSongName("01_" + t + u + ".mp3") == "爱相随"
  {
    LatestExampleTitle(t);
    var n := "01_" + t + u;
    DropExtensionMp3(n);
    LatestExampleGroup(n, t, u);
    LatestExampleFinish("爱相随");
    DecidedByLatest(n + ".mp3", n, "爱相随");
  }

  // The example at rename_mp3.py:29.

  lemma WangJieExampleTitle(t: string)
    requires t == "【Hi-Res无损音质】2025年王杰100首" + "精选歌曲合集（只选播放量最高的）值得单曲循环的歌单！"
    ensures NoSpaceIn(t)
  {
    forall i | 0 <= i < |t| ensures !IsSpace(t[i]) {
      NotSpace(t[i]);
    }
  }

  /** The latest pattern takes the whole `1.谁明浪子心`, track number
      included. */
  lemma WangJieExampleLatest(n: string, t: string, u: string)
    requires NoSpaceIn(t)
    requires u == " p01 1.谁明浪子心"
    requires n == "01_" + t + u
    ensures LatestGroup(n) == Some("1.谁明浪子心")
  {
    var j := 3 + |t|;
    assert u[5] == '1';
    NotSpace(u[5]);
    CollectionTitle(n, t, u);
    WangJieExampleDashEnd(n, j, u);
    LatestGroupIs(n, 3, j, j + 5, |n|);
  }

  /** Without a `-`, the latest title group runs to the end of the name. */
  lemma WangJieExampleDashEnd(n: string, j: nat, u: string)
    requires u == " p01 1.谁明浪子心"
    requires j + |u| == |n| && forall k :: 0 <= k < |u| ==> n[j + k] == u[k]
    ensures DashGroupEnd(n, j + 5) == |n| && n[j + 5..|n|] == "1.谁明浪子心"
  {
    assert '-' !in u by {
      forall i | 0 <= i < |u| ensures u[i] != '-' {}
    }
    TailAfter(n, j, u, 5);
    DashGroupToEnd(n, j + 5);
    assert u[5..] == "1.谁明浪子心";
  }

  /** In the layout `"01_" + t + u` with `u` starting with the marker
      ` p01 ` and then a title character, the scans of the latest pattern
      settle on that marker. */
  lemma CollectionTitle(n: string, t: string, u: string)
    requires NoSpaceIn(t)
    requires |u| >= 6 && u[0] == ' ' && u[1] == 'p' && u[2] == '0' && u[3] == '1' && u[4] == ' '
    requires !IsSpace(u[5])
    requires n == "01_" + t + u
    ensures 3 + |t| + |u| == |n| && forall k :: 0 <= k < |u| ==> n[3 + |t| + k] == u[k]
    ensures IndexPrefixEnd(n) == Some(3) && FirstTitle(n, 3) == Some(3 + |t|)
    ensures TitleStart(n, 3 + |t|) == Some(3 + |t| + 5)
  {
    var j := 3 + |t|;
    CollectionLayout(n, t, u);
    TwoDigitPrefix(n);
    CollectionMarker(n, j, u);
    FirstTitleIs(n, 3, j);
  }

  /** The name ends with `u` from `j` on: what follows `j + d` is the rest
      of `u`, and lacks what `u` lacks. */
  lemma TailAfter(n: string, j: nat, u: string, d: nat)
    requires d < |u| && j + |u| == |n| && forall k :: 0 <= k < |u| ==> n[j + k] == u[k]
    ensures n[j + d..|n|] == u[d..]
    ensures '-' !in u ==> forall k :: j + d < k < |n| ==> n[k] != '-'
  {
    assert forall k :: j + d <= k < |n| ==> n[k] == u[k - j];
  }

  /** The Wang Jie pattern itself would take `谁明浪子心`. */
  lemma WangJieExampleOwn(n: string, t: string, u: string)
    requires NoSpaceIn(t)
    requires u == " p01 1.谁明浪子心"
    requires n == "01_" + t + u
    ensures WangJieGroup(n) == Some("谁明浪子心")
  {
    var j := 3 + |t|;
    CollectionLayout(n, t, u);
    TwoDigitPrefix(n);
    WangJieExampleTrack(n, j, u);
    FirstWangJieIs(n, 3, j);
    WangJieGroupIs(n, 3, j, j + 7);
    assert n[j + 7..] == u[7..] == "谁明浪子心";
  }

  /** The marker ` p01 ` followed by the track number `1.`. */
  lemma WangJieExampleTrack(n: string, j: nat, u: string)
    requires u == " p01 1.谁明浪子心"
    requires j + |u| <= |n| && forall k :: 0 <= k < |u| ==> n[j + k] == u[k]
    ensures WangJieAt(n, j) == Some(j + 7)
  {
    assert u[5] == '1' && u[6] == '.';
    NotSpace(u[5]);
    CollectionMarker(n, j, u);
    assert n[j + 5] == u[5] && n[j + 6] == u[6];
    assert RunEnd(n, j + 5, Digit) == j + 6;
    assert TrackNumberEnd(n, j + 5) == Some(j + 7);
  }

  lemma WangJieExampleFinish(g: string, h: string)
    requires g == "1.谁明浪子心" && h == "谁明浪子心"
    ensures LatestFinish(g) == g && Strip(h, Space) == h
  {
    NotSpace(g[6]);
    PlainTitleFinish(g);
    NotSpace(h[0]);
    StripUnchanged(h, Space);
  }

  /** The example at rename_mp3.py:29 keeps its track number: the cascade as
      written gives `1.谁明浪子心`, the corrected one `谁明浪子心`. */
  lemma WangJieExample(t: string, u: string)
    requires t == "【Hi-Res无损音质】2025年王杰100首" + "精选歌曲合集（只选播放量最高的）值得单曲循环的歌单！"
    requires u == " p01 1.谁明浪子心"
    ensures ExtractSongName("01_" + t + u + ".mp3") == "1.谁明浪子心"
    ensures ExtractSongNameFixed("01_" + t + u + ".mp3") == "谁明浪子心"
  {
    WangJieExampleTitle(t);
    var n := "01_" + t + u;
    DropExtensionMp3(n);
    WangJieExampleLatest(n, t, u);
    WangJieExampleOwn(n, t, u);
    WangJieExampleFinish("1.谁明浪子心", "谁明浪子心");
    DecidedByLatest(n + ".mp3", n, "1.谁明浪子心");
    DecidedByWangJieFixed(n + ".mp3", n, "谁明浪子心");
  }

  // The example at rename_mp3.py:37.

  lemma OldFormatExampleTitle(t: string)
    requires t == "70后 80后 90后 欧美奥斯卡电影" + "金曲精选合集（1940-2015）" + "珍藏版 值得回味收藏！"
    ensures 'p' !in t
  {
    forall i | 0 <= i < |t| ensures t[i] != 'p' {
    }
  }

  /** Where the pieces of `"01_" + t + u` sit when the collection title `t`
      has whitespace but no `p`: no marker starts inside it. */
  lemma SpacedCollectionLayout(n: string, t: string, u: string)
    requires 'p' !in t
    requires |u| >= 5 && u[0] != 'p' && n == "01_" + t + u
    ensures |n| == 3 + |t| + |u|
    ensures IsDigit(n[0]) && IsDigit(n[1]) && n[2] == '_'
    ensures forall k :: 3 <= k < 3 + |t| ==> MarkerAt(n, k).None?
    ensures forall k :: 0 <= k < |u| ==> n[3 + |t| + k] == u[k]
  {
    assert forall k :: 3 <= k < 3 + |t| ==> n[k] == t[k - 3];
    forall k | 3 <= k < 3 + |t|
      ensures MarkerAt(n, k).None?
    {
      assert n[k + 1] != 'p';
    }
  }

  /** The marker ` p01 ` at `j` is followed by `【`, not by a track number,
      and no other marker follows. */
  lemma OldFormatExampleMarker(n: string, j: nat, u: string)
    requires u == " p01 【开头王炸】My heart will go on-泰坦尼克号-1997"
    requires j + |u| == |n| && forall k :: 0 <= k < |u| ==> n[j + k] == u[k]
    ensures TitleStart(n, j) == Some(j + 5)
    ensures WangJieAt(n, j).None?
    ensures forall k :: j < k < |n| ==> MarkerAt(n, k).None?
  {
    assert u[5] == '【';
    NotSpace(u[5]);
    CollectionMarker(n, j, u);
    assert n[j + 5] == u[5];
    assert RunEnd(n, j + 5, Digit) == j + 5;
    forall k | j < k < |n|
      ensures MarkerAt(n, k).None?
    {
      if k + 1 < |n| {
        assert n[k + 1] == u[k + 1 - j] != 'p';
      }
    }
  }

  /** The bracket `【开头王炸】` is skipped: the old format 1 group starts
      after its `】`. */
  lemma OldFormatExampleBracket(n: string, j: nat, u: string)
    requires u == " p01 【开头王炸】My heart will go on-泰坦尼克号-1997"
    requires j + |u| == |n| && forall k :: 0 <= k < |u| ==> n[j + k] == u[k]
    requires TitleStart(n, j) == Some(j + 5)
    ensures OldFormatAt(n, j) == Some(j + 11)
  {
    var b := n[j + 6..];
    assert n[j + 5] == u[5] == '【';
    assert b[4] == n[j + 10] == u[10] == '】';
    assert b[0] == u[6] && b[1] == u[7] && b[2] == u[8] && b[3] == u[9];
    assert '】' !in b[..4];
    assert FirstIndexOf(b, '】') == Some(4);
  }

  /** The latest title group stops at the `-` before the film. */
  lemma OldFormatExampleDashEnd(n: string, j: nat, u: string)
    requires u == " p01 【开头王炸】My heart will go on-泰坦尼克号-1997"
    requires j + |u| == |n| && forall k :: 0 <= k < |u| ==> n[j + k] == u[k]
    ensures DashGroupEnd(n, j + 5) == j + 30
    ensures n[j + 5..j + 30] == "【开头王炸】My heart will go on"
  {
    OldFormatExampleDashPair(n, j, u);
    Window(n, j, u, 5, 30);
    var h := "【开头王炸】My heart will go on";
    forall k | 0 <= k < |h| ensures u[5 + k] == h[k] {
    }
  }

  /** The first `-` followed later by another `-` after the title start is
      the one before the film. */
  lemma OldFormatExampleDashPair(n: string, j: nat, u: string)
    requires u == " p01 【开头王炸】My heart will go on-泰坦尼克号-1997"
    requires j + |u| == |n| && forall k :: 0 <= k < |u| ==> n[j + k] == u[k]
    ensures DashGroupEnd(n, j + 5) == j + 30
  {
    assert n[j + 30] == u[30] == '-' && n[j + 36] == u[36] == '-';
    assert n[j + 36] == n[j + 31..][5];
    assert DashPairAt(n, j + 30);
    forall k | j + 5 < k < j + 30 ensures !DashPairAt(n, k) {
      assert n[k] == u[k - j] != '-';
    }
  }

  /** Where `u` sits in `n` from `j` on, the pieces of `n` are those of `u`. */
  lemma Window(n: string, j: nat, u: string, a: nat, b: nat)
    requires a <= b <= |u| && j + |u| <= |n| && forall k :: 0 <= k < |u| ==> n[j + k] == u[k]
    ensures n[j + a..j + b] == u[a..b]
  {
    assert forall k :: j + a <= k < j + b ==> n[k] == u[k - j];
  }

  /** The old format 1 group stops at the `-` before the film, since the name
      ends in `-1997`. */
  lemma OldFormatExampleYearEnd(n: string, j: nat, u: string)
    requires u == " p01 【开头王炸】My heart will go on-泰坦尼克号-1997"
    requires j + |u| == |n| && forall k :: 0 <= k < |u| ==> n[j + k] == u[k]
    ensures YearGroupEnd(n, j + 11) == j + 30
  {
    assert n[j + 30] == u[30] == '-' && n[|n| - 5] == u[36] == '-';
    var y := n[|n| - 4..];
    assert forall k :: 0 <= k < 4 ==> y[k] == u[37 + k];
    assert YearTailAt(n, j + 30);
    forall k | j + 11 < k < j + 30 ensures !YearTailAt(n, k) {
      assert n[k] == u[k - j] != '-';
    }
  }

  lemma OldFormatExampleSong(n: string, j: nat, u: string)
    requires u == " p01 【开头王炸】My heart will go on-泰坦尼克号-1997"
    requires j + |u| == |n| && forall k :: 0 <= k < |u| ==> n[j + k] == u[k]
    ensures n[j + 11..j + 30] == "My heart will go on"
  {
    Window(n, j, u, 11, 30);
    var h := "My heart will go on";
    forall k | 0 <= k < |h| ensures u[11 + k] == h[k] {
    }
  }

  /** What the three digit patterns take from the line-37 layout. */
  lemma OldFormatExampleGroups(n: string, t: string, u: string)
    requires 'p' !in t
    requires u == " p01 【开头王炸】My heart will go on-泰坦尼克号-1997"
    requires n == "01_" + t + u
    ensures LatestGroup(n) == Some("【开头王炸】My heart will go on")
    ensures WangJieGroup(n).None?
    ensures OldFormatDated(n) && OldFormatGroup(n) == Some("My heart will go on")
  {
    var j := 3 + |t|;
    SpacedCollectionLayout(n, t, u);
    TwoDigitPrefix(n);
    OldFormatExampleMarker(n, j, u);
    OldFormatExampleBracket(n, j, u);
    FirstTitleIs(n, 3, j);
    OldFormatExampleDashEnd(n, j, u);
    LatestGroupIs(n, 3, j, j + 5, j + 30);
    FirstWangJieNone(n, 3, j);
    FirstOldFormatIs(n, 3, j);
    assert OldFormatStart(n) == Some(j + 11);
    OldFormatExampleYearEnd(n, j, u);
    OldFormatExampleSong(n, j, u);
  }

  lemma OldFormatExampleFinish(g: string, h: string)
    requires g == "【开头王炸】My heart will go on" && h == "My heart will go on"
    ensures LatestFinish(g) == g && Strip(h, Space) == h
  {
    NotSpace(g[0]);
    NotSpace(g[|g| - 1]);
    PlainTitleFinish(g);
    NotSpace(h[0]);
    StripUnchanged(h, Space);
  }

  lemma DecidedByOldFormatFixed(f: string, n: string, g: string)
    requires DropExtension(f) == n && WangJieGroup(n).None? && OldFormatDated(n)
    requires OldFormatGroup(n) == Some(g)
    ensures ExtractSongNameFixed(f) == Strip(g, Space)
  {
  }

  /** The example at rename_mp3.py:37 keeps its bracketed prefix: the cascade
      as written gives `【开头王炸】My heart will go on`, since the latest rule
      decides first; the corrected one gives `My heart will go on`. */
  lemma OldFormatExample(t: string, u: string)
    requires t == "70后 80后 90后 欧美奥斯卡电影" + "金曲精选合集（1940-2015）" + "珍藏版 值得回味收藏！"
    requires u == " p01 【开头王炸】My heart will go on-泰坦尼克号-1997"
    ensures ExtractSongName("01_" + t + u + ".mp3") == "【开头王炸】My heart will go on"
    ensures ExtractSongNameFixed("01_" + t + u + ".mp3") == "My heart will go on"
  {
    OldFormatExampleTitle(t);
    var n := "01_" + t + u;
    DropExtensionMp3(n);
    OldFormatExampleGroups(n, t, u);
    OldFormatExampleFinish("【开头王炸】My heart will go on", "My heart will go on");
    DecidedByLatest(n + ".mp3", n, "【开头王炸】My heart will go on");
    DecidedByOldFormatFixed(n + ".mp3", n, "My heart will go on");
  }

  // The example at rename_mp3.py:45.

  /** The `NA_` rule takes the text between the first `《` and the first `》`
      after it, whatever surrounds them. */
  lemma {:induction false} NaTakesFirstBookTitle(n: string, t: string, title: string, rest: string)
    requires '《' !in t && '》' !in title && |title| > 0
    requires n == "NA_" + t + "《" + title + "》" + rest
    ensures |n| >= 3 && n[..3] == "NA_"
    ensures NaGroup(n) == Some(title)
  {
    NaLayout(n, t, title, rest);
    var i := 3 + |t|;
    var e := i + 1 + |title|;
    NaBookTitle(n, i, e, title);
    assert FirstBookTitle(n, 3) == Some(i);
    NaGroupIs(n, i, e - i - 2);
  }

  /** The `NA_` group once the scan has settled on the `《` at `i`. */
  lemma NaGroupIs(n: string, i: nat, t: nat)
    requires |n| >= 3 && n[..3] == "NA_"
    requires FirstBookTitle(n, 3) == Some(i) && FirstIndexOf(n[i + 2..], '》') == Some(t)
    ensures NaGroup(n) == Some(n[i + 1..i + 2 + t])
  {
  }

  /** The first `》` after `《` at `i` and its title is at `e`. */
  lemma NaBookTitle(n: string, i: nat, e: nat, title: string)
    requires '》' !in title && |title| > 0 && e == i + 1 + |title| < |n|
    requires n[i] == '《' && n[e] == '》' && n[i + 1..e] == title
    ensures BookTitleAt(n, i)
    ensures FirstIndexOf(n[i + 2..], '》') == Some(e - i - 2)
  {
    assert n[i + 2..][e - i - 2] == '》';
    assert n[i + 2..][..e - i - 2] == title[1..];
  }

  /** Where the pieces of `"NA_" + t + "《" + title + "》" + rest` sit. */
  lemma NaLayout(n: string, t: string, title: string, rest: string)
    requires '《' !in t
    requires n == "NA_" + t + "《" + title + "》" + rest
    ensures |n| >= 3 && n[..3] == "NA_"
    ensures |n| == 3 + |t| + |title| + 2 + |rest|
    ensures forall k :: 3 <= k < 3 + |t| ==> n[k] != '《'
    ensures n[3 + |t|] == '《' && n[3 + |t| + 1 + |title|] == '》'
    ensures n[3 + |t| + 1..3 + |t| + 1 + |title|] == title
  {
    assert forall k :: 3 <= k < 3 + |t| ==> n[k] == t[k - 3];
  }

  lemma NaExamplePieces(t: string, title: string)
    requires t == "奥斯卡百年金曲" && title == "Say You, Say Me"
    ensures '《' !in t && '》' !in title
    ensures Strip(title, Space) == title
  {
    NotSpace(title[0]);
    NotSpace(title[|title| - 1]);
    StripUnchanged(title, Space);
  }

  lemma DecidedByNa(f: string, n: string, g: string)
    requires DropExtension(f) == n && |n| >= 3 && n[..3] == "NA_" && NaGroup(n) == Some(g)
    ensures ExtractSongName(f) == Strip(g, Space)
  {
    NaPrefixSkipsDigitRules(n);
  }

  /** The example at rename_mp3.py:45 gives `Say You, Say Me`. */
  lemma NaExample(t: string, title: string, rest: string)
    requires t == "奥斯卡百年金曲" && title == "Say You, Say Me"
    requires rest == "，歌声飘过36年，永恒的经典"
    ensures ExtractSongName("NA_" + t + "《" + title + "》" + rest + ".mp3") == "Say You, Say Me"
  {
    var n := "NA_" + t + "《" + title + "》" + rest;
    NaExamplePieces(t, title);
    DropExtensionMp3(n);
    NaTakesFirstBookTitle(n, t, title, rest);
    DecidedByNa(n + ".mp3", n, title);
  }
}
