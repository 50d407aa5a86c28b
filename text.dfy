/**
 * Character classes and string helpers shared by the regular-expression
 * encodings: the `\s` and `\d` classes, `str.strip`, maximal runs, the
 * leftmost-position search that a lazy `.*?` performs, and decimal
 * formatting as done by f-strings.
 */
module Text {
  import opened Wrappers

  /** `\s`: the characters `\s` matches in a `str` pattern and that
      `str.strip()` removes, CPython's `str.isspace` set written out by code
      point ranges. */
  predicate IsSpace(c: char) {
    if c <= ' ' then
      c == ' ' || '\t' <= c <= '\r' || '\U{1C}' <= c <= '\U{1F}'
    else if c < '\U{85}' then
      false
    else
      (c == '\U{85}' || c == '\U{A0}' || c == '\U{1680}' || '\U{2000}' <= c <= '\U{200A}'
       || c == '\U{2028}' || c == '\U{2029}' || c == '\U{202F}' || c == '\U{205F}' || c == '\U{3000}')
  }

  /** No character of `s` is whitespace. */
  predicate NoSpaceIn(s: string) {
    forall i :: 0 <= i < |s| ==> !IsSpace(s[i])
  }

  /** Characters outside the whitespace table's ranges. */
  lemma NotSpace(c: char)
    requires (' ' < c < '\U{85}') || c > '\U{3000}'
    ensures !IsSpace(c)
  {
  }

  /** `\d`, restricted to the ASCII digits. */
  predicate IsDigit(c: char) {
    '0' <= c <= '9'
  }

  /** The class `[A-Za-z0-9]`. */
  predicate IsAsciiAlnum(c: char) {
    ('A' <= c <= 'Z') || ('a' <= c <= 'z') || IsDigit(c)
  }

  /** The class `[<>:"/\\|?*]` of characters refused in file names. */
  predicate IsIllegal(c: char) {
    c == '<' || c == '>' || c == ':' || c == '"' || c == '/' || c == '\\'
    || c == '|' || c == '?' || c == '*'
  }

  predicate NoIllegal(s: string) {
    forall i :: 0 <= i < |s| ==> !IsIllegal(s[i])
  }

  /** The character classes the patterns of the repository use. */
  datatype CharClass =
    | Space          // `\s`
    | Digit          // `\d`
    | Dot            // the argument of `strip('.')`
    | SpaceOrDot     // the argument of `strip(' .')`
    | NotSlashOrQuery  // `[^/?]`
    | AsciiAlnum     // `[A-Za-z0-9]`

  predicate In(c: char, cls: CharClass) {
    match cls
    case Space => IsSpace(c)
    case Digit => IsDigit(c)
    case Dot => c == '.'
    case SpaceOrDot => c == ' ' || c == '.'
    case NotSlashOrQuery => c != '/' && c != '?'
    case AsciiAlnum => IsAsciiAlnum(c)
  }

  /** `re.sub(r'[<>:"/\\|?*]', '_', s)`: every illegal character becomes `_`,
      one for one, scanning left to right. */
  function ReplaceIllegal(s: string): (r: string)
    ensures |r| == |s|
    ensures forall i :: 0 <= i < |s| ==> r[i] == (if IsIllegal(s[i]) then '_' else s[i])
    ensures NoIllegal(r)
  {
    if s == [] then []
    else [if IsIllegal(s[0]) then '_' else s[0]] + ReplaceIllegal(s[1..])
  }

  /** The end of the maximal run of `p`-characters that starts at `i`
      (what a greedy `p+` or `p*` consumes when nothing after it forces
      backtracking). */
  function RunEnd(s: string, i: nat, p: CharClass): (e: nat)
    requires i <= |s|
    ensures i <= e <= |s|
    ensures forall k :: i <= k < e ==> In(s[k], p)
    ensures e < |s| ==> !In(s[e], p)
    decreases |s| - i
  {
    if i < |s| && In(s[i], p) then RunEnd(s, i + 1, p) else i
  }

  /** The least index in `[from, n)` satisfying `ok`: the position a lazy
      `.*?` (or the scan of `re.search`) settles on. */
  function FirstFrom(n: nat, from: nat, ok: nat -> bool): (r: Option<nat>)
    ensures r.Some? ==> from <= r.value < n && ok(r.value)
    ensures r.Some? ==> forall k :: from <= k < r.value ==> !ok(k)
    ensures r.None? ==> forall k :: from <= k < n ==> !ok(k)
    decreases n - from
  {
    if from >= n then None
    else if ok(from) then Some(from)
    else FirstFrom(n, from + 1, ok)
  }

  /** Drops the leading characters that satisfy `p` (`lstrip`). */
  function TrimStart(s: string, p: CharClass): (r: string)
    ensures |r| <= |s| && r == s[|s| - |r|..]
    ensures forall i :: 0 <= i < |s| - |r| ==> In(s[i], p)
    ensures r == [] || !In(r[0], p)
  {
    if s != [] && In(s[0], p) then TrimStart(s[1..], p) else s
  }

  /** Drops the trailing characters that satisfy `p` (`rstrip`). */
  function TrimEnd(s: string, p: CharClass): (r: string)
    ensures |r| <= |s| && r == s[..|r|]
    ensures forall i :: |r| <= i < |s| ==> In(s[i], p)
    ensures r == [] || !In(r[|r| - 1], p)
  {
    if s != [] && In(s[|s| - 1], p) then TrimEnd(s[..|s| - 1], p) else s
  }

  lemma TrimStartShrinks(s: string, p: CharClass)
    requires |s| > 0 && In(s[0], p)
    ensures |TrimStart(s, p)| < |s|
  {
  }

  lemma TrimStartKeeps(s: string, p: CharClass)
    requires |s| > 0 && !In(s[0], p)
    ensures TrimStart(s, p) == s
  {
  }

  lemma TrimEndShrinks(s: string, p: CharClass)
    requires |s| > 0 && In(s[|s| - 1], p)
    ensures |TrimEnd(s, p)| < |s|
  {
  }

  /** Number of leading characters `Strip` removes. */
  function StripOffset(s: string, p: CharClass): nat
  {
    |s| - |TrimStart(s, p)|
  }

  /** `strip` with the set of characters given by `p`: the longest infix of
      `s` whose first and last characters are outside `p`. */
  function Strip(s: string, p: CharClass): (r: string)
    ensures StripOffset(s, p) + |r| <= |s| && r == s[StripOffset(s, p)..StripOffset(s, p) + |r|]
    ensures r == [] || (!In(r[0], p) && !In(r[|r| - 1], p))
  {
    var t := TrimStart(s, p);
    var r := TrimEnd(t, p);
    assert r == s[|s| - |t|..|s| - |t| + |r|];
    r
  }

  /** `strip` removes only `p`-characters: every character before and after
      the infix it keeps satisfies `p`, so the infix is the longest one with
      no `p`-character at either end. */
  lemma StripCuts(s: string, p: CharClass)
    ensures forall i :: 0 <= i < StripOffset(s, p) ==> In(s[i], p)
    ensures forall i :: StripOffset(s, p) + |Strip(s, p)| <= i < |s| ==> In(s[i], p)
  {
    var t := TrimStart(s, p);
    var r := TrimEnd(t, p);
    assert Strip(s, p) == r;
    assert forall i :: |s| - |t| + |r| <= i < |s| ==> s[i] == t[i - (|s| - |t|)];
  }

  /** `r` occurs in `s` starting at `a`. */
  predicate OccursAt(r: string, s: string, a: nat) {
    a + |r| <= |s| && s[a..a + |r|] == r
  }

  /** `r` occurs in `s` as a contiguous piece. */
  ghost predicate IsInfix(r: string, s: string) {
    exists a: nat :: a <= |s| && OccursAt(r, s, a)
  }

  lemma SliceIsInfix(s: string, a: nat, b: nat)
    requires a <= b <= |s|
    ensures IsInfix(s[a..b], s)
  {
    assert OccursAt(s[a..b], s, a);
  }

  /** An infix of an infix is an infix at the summed offset. */
  lemma InfixOfInfix(c: string, a: nat, t: string, b: nat, r: string)
    requires a + |t| <= |c| && t == c[a..a + |t|]
    requires b + |r| <= |t| && r == t[b..b + |r|]
    ensures r == c[a + b..a + b + |r|]
  {
    forall k | 0 <= k < |r|
      ensures r[k] == c[a + b + k]
    {
      assert r[k] == t[b + k];
      assert t[b + k] == c[a + (b + k)];
    }
  }

  lemma InfixTrans(r: string, t: string, s: string)
    requires IsInfix(r, t) && IsInfix(t, s)
    ensures IsInfix(r, s)
  {
    var b: nat :| b <= |t| && OccursAt(r, t, b);
    var a: nat :| a <= |s| && OccursAt(t, s, a);
    assert b + |r| <= |t| && r == t[b..b + |r|];
    assert a + |t| <= |s| && t == s[a..a + |t|];
    InfixOfInfix(s, a, t, b, r);
    assert OccursAt(r, s, a + b);
  }

  /** A strip of an infix of `s` is an infix of `s`. */
  lemma StripStaysInfix(g: string, s: string, p: CharClass)
    requires IsInfix(g, s)
    ensures IsInfix(Strip(g, p), s)
  {
    assert OccursAt(Strip(g, p), g, StripOffset(g, p));
    InfixTrans(Strip(g, p), g, s);
  }

  /** A string with no `p`-character at either end is its own strip. */
  lemma StripUnchanged(s: string, p: CharClass)
    requires s == [] || (!In(s[0], p) && !In(s[|s| - 1], p))
    ensures Strip(s, p) == s
  {
  }

  /** Index of the last `c` in `s`, if any. */
  function LastIndexOf(s: string, c: char): (r: Option<nat>)
    ensures r.Some? ==> r.value < |s| && s[r.value] == c && c !in s[r.value + 1..]
    ensures r.None? ==> c !in s
  {
    if s == [] then None
    else if s[|s| - 1] == c then Some(|s| - 1)
    else LastIndexOf(s[..|s| - 1], c)
  }

  /** Index of the first `c` in `s`, if any. */
  function FirstIndexOf(s: string, c: char): (r: Option<nat>)
    ensures r.Some? ==> r.value < |s| && s[r.value] == c && c !in s[..r.value]
    ensures r.None? ==> c !in s
  {
    if s == [] then None
    else if s[0] == c then Some(0)
    else match FirstIndexOf(s[1..], c)
      case None => None
      case Some(k) => Some(k + 1)
  }

  // ---------------------------------------------------------------------
  // Decimal formatting: `str(n)`, `f"{n}"` and `f"{n:02d}"`.

  function DigitChar(d: nat): (c: char)
    requires d < 10
    ensures IsDigit(c)
  {
    "0123456789"[d]
  }

  function DigitValue(c: char): nat
    requires IsDigit(c)
  {
    (c as int - '0' as int) as nat
  }

  /** `str(n)` for a non-negative integer. */
  function DecimalString(n: nat): (r: string)
    decreases n
  {
    if n < 10 then [DigitChar(n)] else DecimalString(n / 10) + [DigitChar(n % 10)]
  }

  predicate AllDigits(s: string) {
    forall i :: 0 <= i < |s| ==> IsDigit(s[i])
  }

  /** The number a string of decimal digits denotes. */
  function DecimalValue(s: string): nat
    requires AllDigits(s)
  {
    if s == [] then 0 else DecimalValue(s[..|s| - 1]) * 10 + DigitValue(s[|s| - 1])
  }

  /** `f"{n:02d}"`: `str(n)` padded on the left with zeros to width 2. */
  function ZeroPad2(n: nat): string
  {
    if n < 10 then "0" + DecimalString(n) else DecimalString(n)
  }

  lemma {:induction false} DecimalRoundTrip(n: nat)
    ensures |DecimalString(n)| >= 1 && AllDigits(DecimalString(n))
    ensures DecimalValue(DecimalString(n)) == n
    ensures DecimalString(n)[0] != '0' || n == 0
    decreases n
  {
    if n >= 10 {
      DecimalRoundTrip(n / 10);
      var s := DecimalString(n / 10);
      var t := s + [DigitChar(n % 10)];
      assert t[..|t| - 1] == s;
      assert DigitValue(t[|t| - 1]) == n % 10;
    }
  }

  /** The padded index of a collection item reads back as the index, has at
      least two digits, and has exactly two when the index is below 100. */
  lemma ZeroPad2RoundTrip(n: nat)
    ensures |ZeroPad2(n)| >= 2 && AllDigits(ZeroPad2(n))
    ensures DecimalValue(ZeroPad2(n)) == n
    ensures n < 100 ==> |ZeroPad2(n)| == 2
  {
    DecimalRoundTrip(n);
    if n < 10 {
      var t := "0" + DecimalString(n);
      assert t[..|t| - 1] == "0";
    } else {
      DecimalRoundTrip(n / 10);
      if n < 100 {
        assert |DecimalString(n / 10)| == 1;
      }
    }
  }
}
