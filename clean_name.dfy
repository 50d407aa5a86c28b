/**
 * `clean_filename` of rename_mp3.py: replace the characters refused in file
 * names by `_`, collapse whitespace runs to one space, strip whitespace from
 * both ends, then strip dots from both ends.
 */
module CleanName {
  import opened Text

  /** Every whitespace character is a plain space. */
  predicate OnlyPlainSpaces(s: string) {
    forall i :: 0 <= i < |s| ==> IsSpace(s[i]) ==> s[i] == ' '
  }

  /** Whitespace at both `i` and `i + 1`. */
  predicate SpacePairAt(s: string, i: nat) {
    i + 1 < |s| && IsSpace(s[i]) && IsSpace(s[i + 1])
  }

  /** No two whitespace characters are adjacent. */
  predicate NoAdjacentSpaces(s: string) {
    forall i :: 0 <= i < |s| ==> !SpacePairAt(s, i)
  }

  predicate SingleSpaced(s: string) {
    OnlyPlainSpaces(s) && NoAdjacentSpaces(s)
  }

  predicate HasEdgeSpace(s: string) {
    |s| > 0 && (IsSpace(s[0]) || IsSpace(s[|s| - 1]))
  }

  predicate HasEdgeDot(s: string) {
    |s| > 0 && (s[0] == '.' || s[|s| - 1] == '.')
  }

  /** A name `clean_filename` has nothing to do on. */
  predicate IsClean(s: string) {
    NoIllegal(s) && SingleSpaced(s) && !HasEdgeSpace(s) && !HasEdgeDot(s)
  }

  /** Infixes keep the character-level properties. */
  lemma InfixKeeps(s: string, a: nat, b: nat)
    requires a <= b <= |s|
    ensures NoIllegal(s) ==> NoIllegal(s[a..b])
    ensures SingleSpaced(s) ==> SingleSpaced(s[a..b])
  {
    var t := s[a..b];
    assert forall i :: 0 <= i < |t| ==> t[i] == s[a + i];
    forall i | 0 <= i < |t| && SpacePairAt(t, i)
      ensures SpacePairAt(s, a + i)
    {
    }
  }

  /** Putting a character in front keeps a string single-spaced when the
      character is a plain space followed by a non-space, or not a space. */
  lemma ConsKeepsSingleSpaced(c: char, t: string)
    requires SingleSpaced(t)
    requires IsSpace(c) ==> c == ' ' && (t == [] || !IsSpace(t[0]))
    ensures SingleSpaced([c] + t)
  {
    var u := [c] + t;
    forall i | 0 <= i < |u|
      ensures !SpacePairAt(u, i)
    {
      if i > 0 {
        assert !SpacePairAt(t, i - 1);
        assert u[i] == t[i - 1];
      }
    }
  }

  /** Stripping keeps the character-level properties. */
  lemma StripKeeps(s: string, p: CharClass)
    ensures NoIllegal(s) ==> NoIllegal(Strip(s, p))
    ensures SingleSpaced(s) ==> SingleSpaced(Strip(s, p))
  {
    var r := Strip(s, p);
    var a := StripOffset(s, p);
    assert a + |r| <= |s| && r == s[a..a + |r|];
    InfixKeeps(s, a, a + |r|);
  }

  /** The characters of `s` that are not whitespace, in order. */
  function NonSpace(s: string): string
    decreases |s|
  {
    if s == [] then [] else (if IsSpace(s[0]) then [] else [s[0]]) + NonSpace(s[1..])
  }

  /** `lstrip` of whitespace removes only whitespace. */
  lemma {:induction false} NonSpaceTrimStart(s: string)
    ensures NonSpace(TrimStart(s, Space)) == NonSpace(s)
    decreases |s|
  {
    if s != [] && IsSpace(s[0]) {
      NonSpaceTrimStart(s[1..]);
    }
  }

  /** `re.sub(r'\s+', ' ', s)`: every maximal run of whitespace becomes a
      single space; nothing else changes. */
  function CollapseSpace(s: string): (r: string)
    ensures |r| <= |s|
    ensures |s| > 0 ==> |r| > 0 && r[0] == (if IsSpace(s[0]) then ' ' else s[0])
    ensures SingleSpaced(r)
    ensures NoIllegal(s) ==> NoIllegal(r)
    decreases |s|
  {
    if s == [] then []
    else if IsSpace(s[0]) then
      var rest := CollapseSpace(TrimStart(s, Space));
      ConsKeepsSingleSpaced(' ', rest);
      [' '] + rest
    else
      var rest := CollapseSpace(s[1..]);
      ConsKeepsSingleSpaced(s[0], rest);
      [s[0]] + rest
  }

  /** Collapsing touches only whitespace: the other characters stay, in
      order, and none is added. */
  lemma {:induction false} CollapseKeepsText(s: string)
    ensures NonSpace(CollapseSpace(s)) == NonSpace(s)
    decreases |s|
  {
    if s != [] {
      if IsSpace(s[0]) {
        var rest := CollapseSpace(TrimStart(s, Space));
        CollapseKeepsText(TrimStart(s, Space));
        NonSpaceTrimStart(s);
        assert ([' '] + rest)[1..] == rest;
      } else {
        var rest := CollapseSpace(s[1..]);
        CollapseKeepsText(s[1..]);
        assert ([s[0]] + rest)[1..] == rest;
      }
    }
  }

  /** `r` is `c` with its first `o` characters and everything after them and
      `r` cut off, every cut character satisfying `p`. */
  predicate CutFromEnds(c: string, o: nat, r: string, p: CharClass) {
    o + |r| <= |c| && r == c[o..o + |r|]
    && (forall i :: 0 <= i < o ==> In(c[i], p))
    && (forall i :: o + |r| <= i < |c| ==> In(c[i], p))
  }

  /** The whitespace strip and then the dot strip of a single-spaced `c`
      together cut only spaces and dots from its two ends. */
  lemma StripTwice(c: string, t: string, r: string)
    requires OnlyPlainSpaces(c)
    requires t == Strip(c, Space) && r == Strip(t, Dot)
    ensures CutFromEnds(c, StripOffset(c, Space) + StripOffset(t, Dot), r, SpaceOrDot)
  {
    StripCut(c, Space);
    StripCut(t, Dot);
    CutsCompose(c, StripOffset(c, Space), t, StripOffset(t, Dot), r);
  }

  lemma StripCut(s: string, p: CharClass)
    ensures CutFromEnds(s, StripOffset(s, p), Strip(s, p), p)
  {
    StripCuts(s, p);
  }

  /** A whitespace cut of a string with only plain spaces followed by a dot
      cut is one cut of spaces and dots. */
  lemma CutsCompose(c: string, a: nat, t: string, b: nat, r: string)
    requires OnlyPlainSpaces(c)
    requires CutFromEnds(c, a, t, Space) && CutFromEnds(t, b, r, Dot)
    ensures CutFromEnds(c, a + b, r, SpaceOrDot)
  {
    forall i | 0 <= i < a || a + |t| <= i < |c|
      ensures In(c[i], SpaceOrDot)
    {
      assert IsSpace(c[i]);
    }
    forall i | a <= i < a + b || a + b + |r| <= i < a + |t|
      ensures In(c[i], SpaceOrDot)
    {
      assert c[i] == t[i - a];
      assert In(t[i - a], Dot);
    }
    InfixOfInfix(c, a, t, b, r);
  }

  /** A single-spaced string has no run to collapse. */
  lemma {:induction false} CollapseKeepsSingleSpaced(s: string)
    requires SingleSpaced(s)
    ensures CollapseSpace(s) == s
    decreases |s|
  {
    if s != [] {
      InfixKeeps(s, 1, |s|);
      assert s[1..|s|] == s[1..];
      CollapseKeepsSingleSpaced(s[1..]);
      CollapseFirst(s);
    }
  }

  /** In a single-spaced string the first character is collapsed on its own. */
  lemma CollapseFirst(s: string)
    requires SingleSpaced(s) && s != []
    ensures CollapseSpace(s) == [s[0]] + CollapseSpace(s[1..])
  {
    if IsSpace(s[0]) {
      assert s[0] == ' ';
      if |s| > 1 {
        assert !SpacePairAt(s, 0);
        TrimStartKeeps(s[1..], Space);
      }
      assert TrimStart(s, Space) == TrimStart(s[1..], Space);
    }
  }

  /** How many leading characters of `CollapseSpace(ReplaceIllegal(s))` the
      two strips of `clean_filename` remove. */
  function CleanOffset(s: string): nat {
    var collapsed := CollapseSpace(ReplaceIllegal(s));
    StripOffset(collapsed, Space) + StripOffset(Strip(collapsed, Space), Dot)
  }

  /** `clean_filename` as written (rename_mp3.py:62-72). */
  function CleanFilename(s: string): (r: string)
    ensures NoIllegal(r)
    ensures SingleSpaced(r)
    ensures !HasEdgeDot(r)
    ensures |r| <= |s|
  {
    var replaced := ReplaceIllegal(s);
    var collapsed := CollapseSpace(replaced);
    var spaced := Strip(collapsed, Space);
    StripKeeps(collapsed, Space);
    StripKeeps(spaced, Dot);
    Strip(spaced, Dot)
  }

  /** What `clean_filename` keeps of the collapsed name is one piece of it,
      and what it cuts from the two ends is only spaces and dots. */
  lemma CleanFilenameCuts(s: string)
    ensures CutFromEnds(CollapseSpace(ReplaceIllegal(s)), CleanOffset(s), CleanFilename(s), SpaceOrDot)
  {
    var collapsed := CollapseSpace(ReplaceIllegal(s));
    var spaced := Strip(collapsed, Space);
    var o := StripOffset(collapsed, Space) + StripOffset(spaced, Dot);
    assert CleanOffset(s) == o;
    assert CleanFilename(s) == Strip(spaced, Dot);
    StripTwice(collapsed, spaced, Strip(spaced, Dot));
    CutSame(collapsed, o, CleanOffset(s), Strip(spaced, Dot), CleanFilename(s), SpaceOrDot);
  }

  /** A cut stated with equal offsets and pieces is the same cut. */
  lemma CutSame(c: string, o: nat, o': nat, r: string, r': string, p: CharClass)
    requires CutFromEnds(c, o, r, p) && o == o' && r == r'
    ensures CutFromEnds(c, o', r', p)
  {
  }

  lemma ReplaceIllegalKeepsLegal(s: string)
    requires NoIllegal(s)
    ensures ReplaceIllegal(s) == s
  {
  }

  lemma StripShrinks(s: string, p: CharClass)
    requires |s| > 0 && (In(s[0], p) || In(s[|s| - 1], p))
    ensures |Strip(s, p)| < |s|
  {
    assert Strip(s, p) == TrimEnd(TrimStart(s, p), p);
    if In(s[0], p) {
      TrimStartShrinks(s, p);
    } else {
      TrimStartKeeps(s, p);
      TrimEndShrinks(s, p);
    }
  }

  /** A name with no illegal characters, single plain spaces, and no space or
      dot at either end comes back unchanged. */
  lemma {:induction false} CleanFixesClean(s: string)
    requires IsClean(s)
    ensures CleanFilename(s) == s
  {
    ReplaceIllegalKeepsLegal(s);
    CollapseKeepsSingleSpaced(s);
    StripUnchanged(s, Space);
    StripUnchanged(s, Dot);
  }

  /** Cleaning twice gives the same name exactly when the first cleaning left
      no space at either end; a dot next to an edge space shields it from the
      whitespace strip, which runs before the dot strip. */
  lemma {:induction false} CleanIdempotentIff(s: string)
    ensures CleanFilename(CleanFilename(s)) == CleanFilename(s) <==> !HasEdgeSpace(CleanFilename(s))
  {
    var r := CleanFilename(s);
    if !HasEdgeSpace(r) {
      CleanFixesClean(r);
    } else {
      ReplaceIllegalKeepsLegal(r);
      CollapseKeepsSingleSpaced(r);
      StripShrinks(r, Space);
      assert |CleanFilename(r)| < |r|;
    }
  }

  /** The witness: `". a ."` cleans to `" a "`, which cleans to `"a"`. */
  lemma CleanNotIdempotent(s: string)
    requires s == ". a ."
    ensures CleanFilename(s) == " a "
    ensures CleanFilename(CleanFilename(s)) == "a"
  {
    DottedExample(s);
    SpacedExample(CleanFilename(s));
  }

  lemma DottedExample(s: string)
    requires s == ". a ."
    ensures CleanFilename(s) == " a "
  {
    DottedUntouched(s);
    DottedDotStrip(s);
  }

  /** The first three steps leave `". a ."` alone. */
  lemma DottedUntouched(s: string)
    requires s == ". a ."
    ensures Strip(CollapseSpace(ReplaceIllegal(s)), Space) == s
  {
    assert !IsSpace('.') && !IsSpace('a') && IsSpace(' ');
    assert ReplaceIllegal(s) == s by { ReplaceIllegalKeepsLegal(s); }
    assert CollapseSpace(s) == s by {
      assert !SpacePairAt(s, 1) && !SpacePairAt(s, 3);
      CollapseKeepsSingleSpaced(s);
    }
    StripUnchanged(s, Space);
  }

  /** The dot strip then removes exactly the two dots. */
  lemma DottedDotStrip(s: string)
    requires s == ". a ."
    ensures Strip(s, Dot) == " a "
  {
    var u := s[1..];
    assert u == " a .";
    assert TrimStart(u, Dot) == u;
    assert TrimStart(s, Dot) == u;
    assert TrimEnd(u[..|u| - 1], Dot) == u[..|u| - 1];
    assert u[..|u| - 1] == " a ";
  }

  lemma SpacedExample(t: string)
    requires t == " a "
    ensures CleanFilename(t) == "a"
  {
    assert !IsSpace('a') && IsSpace(' ');
    assert ReplaceIllegal(t) == t by { ReplaceIllegalKeepsLegal(t); }
    assert CollapseSpace(t) == t by {
      assert !SpacePairAt(t, 0) && !SpacePairAt(t, 1);
      CollapseKeepsSingleSpaced(t);
    }
    var u := t[1..];
    assert TrimStart(u, Space) == u;
    assert TrimStart(t, Space) == u;
    assert TrimEnd(u[..|u| - 1], Space) == u[..|u| - 1];
    assert u[..|u| - 1] == "a";
    StripUnchanged(u[..|u| - 1], Dot);
  }

  // ---------------------------------------------------------------------
  // The evidently intended cleaning: spaces and dots stripped together.

  /** `re.sub(r'\s+', ' ', cleaned).strip(' .')` in place of the two strips. */
  function CleanFilenameFixed(s: string): (r: string)
    ensures NoIllegal(r)
    ensures SingleSpaced(r)
    ensures !HasEdgeDot(r) && !HasEdgeSpace(r)
    ensures |r| <= |s|
    ensures CutFromEnds(CollapseSpace(ReplaceIllegal(s)), StripOffset(CollapseSpace(ReplaceIllegal(s)), SpaceOrDot), r, SpaceOrDot)
  {
    var collapsed := CollapseSpace(ReplaceIllegal(s));
    StripKeeps(collapsed, SpaceOrDot);
    StripCut(collapsed, SpaceOrDot);
    Strip(collapsed, SpaceOrDot)
  }

  /** The corrected cleaning is idempotent, and leaves clean names alone. */
  lemma {:induction false} CleanFixedIdempotent(s: string)
    ensures CleanFilenameFixed(CleanFilenameFixed(s)) == CleanFilenameFixed(s)
    ensures IsClean(s) ==> CleanFilenameFixed(s) == s
  {
    var r := CleanFilenameFixed(s);
    assert CleanFilenameFixed(r) == r by {
      ReplaceIllegalKeepsLegal(r);
      CollapseKeepsSingleSpaced(r);
      StripUnchanged(r, SpaceOrDot);
    }
    if IsClean(s) {
      ReplaceIllegalKeepsLegal(s);
      CollapseKeepsSingleSpaced(s);
      StripUnchanged(s, SpaceOrDot);
    }
  }
}
