/**
 * The batch rename of rename_mp3.py (`rename_mp3_files`, lines 95-130).
 * Each listed file gets the name `clean_filename(extract_song_name(file))`
 * plus `.mp3`.  The file is skipped when a different file already has that
 * name, counted when the name is already right, and otherwise renamed and
 * counted when the rename succeeds.
 *
 * The directory is modelled as the set of names in it.  Whether the
 * operating system's rename succeeds is an input, one boolean per file.
 */
module RenameMp3 {
  import opened Text
  import opened CleanName
  import opened SongName

  /** The `.mp3` suffix of every new name. */
  const Mp3: string := ".mp3"

  /** `f"{clean_filename(extract_song_name(file))}.mp3"` (rename_mp3.py:99-105). */
  function NewName(file: string): (r: string)
    ensures |r| >= 4 && r[|r| - 4..] == Mp3
    ensures NoIllegal(r[..|r| - 4]) && SingleSpaced(r[..|r| - 4]) && !HasEdgeDot(r[..|r| - 4])
  {
    var stem := CleanFilename(ExtractSongName(file));
    assert (stem + Mp3)[..|stem|] == stem;
    stem + Mp3
  }

  /** The new names of `files`, in order. */
  function NewNames(files: seq<string>): (r: seq<string>)
    ensures |r| == |files|
    ensures forall k :: 0 <= k < |files| ==> r[k] == NewName(files[k])
  {
    seq(|files|, k requires 0 <= k < |files| => NewName(files[k]))
  }

  /** What the loop does with one file whose new name is `target`. */
  datatype Action =
    | SkipExisting   // a different file already has the new name
    | AlreadyNamed   // the name is already the new name
    | RenameTo       // try to rename to the new name

  /** The two checks of rename_mp3.py:112-120, in their order, against the
      directory as it is when the file's turn comes. */
  function Decide(names: set<string>, file: string, target: string): (a: Action)
    ensures a == SkipExisting <==> target in names && target != file
    ensures a == AlreadyNamed <==> target == file
    ensures a == RenameTo <==> target !in names && target != file
  {
    if target in names && target != file then SkipExisting
    else if file == target then AlreadyNamed
    else RenameTo
  }

  /** The directory and the count after one file.  A rename happens only
      when the operating system allows it (`renameOk`) and the file is
      still there; a failed rename is caught and not counted. */
  datatype StepResult = StepResult(names: set<string>, counted: bool)

  function Step(names: set<string>, file: string, target: string, renameOk: bool): StepResult
  {
    match Decide(names, file, target)
    case SkipExisting => StepResult(names, false)
    case AlreadyNamed => StepResult(names, true)
    case RenameTo =>
      if renameOk && file in names then StepResult(names - {file} + {target}, true)
      else StepResult(names, false)
  }

  /** One step keeps the number of files, removes at most the file being
      processed, and adds at most its new name, and only when that name was
      free. */
  lemma StepFacts(names: set<string>, file: string, target: string, renameOk: bool)
    ensures |Step(names, file, target, renameOk).names| == |names|
    ensures forall x :: x in names && x != file ==> x in Step(names, file, target, renameOk).names
    ensures forall x :: x in Step(names, file, target, renameOk).names && x !in names ==> x == target
    ensures Step(names, file, target, renameOk).names != names ==>
              file in names && target !in names && Step(names, file, target, renameOk).counted
  {
    if Decide(names, file, target) == RenameTo && renameOk && file in names {
      var rest := names - {file};
      assert |rest| == |names| - 1;
      assert target !in rest;
      assert |rest + {target}| == |rest| + 1;
    }
  }

  /** A file is counted exactly when it already had its new name, or the name
      was free and the rename went through; a counted file that was in the
      directory now has its new name. */
  lemma StepCounts(names: set<string>, file: string, target: string, renameOk: bool)
    ensures Step(names, file, target, renameOk).counted <==>
              target == file || (target !in names && renameOk && file in names)
    ensures Step(names, file, target, renameOk).counted && file in names ==>
              target in Step(names, file, target, renameOk).names
  {
  }

  /** The directory and the success count after the whole loop. */
  datatype RunResult = RunResult(names: set<string>, successCount: nat)

  /** The loop over `files`, whose new names are `targets`. */
  function Run(names: set<string>, files: seq<string>, targets: seq<string>, renameOk: seq<bool>): RunResult
    requires |targets| == |files| && |renameOk| == |files|
    decreases |files|
  {
    if files == [] then RunResult(names, 0)
    else
      var s := Step(names, files[0], targets[0], renameOk[0]);
      var rest := Run(s.names, files[1..], targets[1..], renameOk[1..]);
      RunResult(rest.names, rest.successCount + (if s.counted then 1 else 0))
  }

  /** `Run` after the first file: the first step, then the rest. */
  lemma RunFirst(names: set<string>, files: seq<string>, targets: seq<string>, renameOk: seq<bool>)
    requires |targets| == |files| && |renameOk| == |files| && files != []
    ensures var s := Step(names, files[0], targets[0], renameOk[0]);
            var rest := Run(s.names, files[1..], targets[1..], renameOk[1..]);
            Run(names, files, targets, renameOk).names == rest.names
            && Run(names, files, targets, renameOk).successCount == rest.successCount + (if s.counted then 1 else 0)
  {
  }

  /** The loop keeps the number of files, counts at most one success per
      file, and never overwrites a file: every name that is not in the list
      is still there at the end. */
  lemma {:induction false} RunFacts(names: set<string>, files: seq<string>, targets: seq<string>, renameOk: seq<bool>)
    requires |targets| == |files| && |renameOk| == |files|
    ensures |Run(names, files, targets, renameOk).names| == |names|
    ensures Run(names, files, targets, renameOk).successCount <= |files|
    ensures forall x :: x in names && x !in files ==> x in Run(names, files, targets, renameOk).names
    decreases |files|
  {
    if files != [] {
      var s := Step(names, files[0], targets[0], renameOk[0]);
      StepFacts(names, files[0], targets[0], renameOk[0]);
      RunFacts(s.names, files[1..], targets[1..], renameOk[1..]);
      forall x | x in names && x !in files
        ensures x in Run(names, files, targets, renameOk).names
      {
        assert x != files[0];
        assert x !in files[1..];
      }
    }
  }

  /** Every name in the directory at the end was there at the start or is
      the new name of a listed file. */
  lemma {:induction false} RunOnlyAddsNewNames(names: set<string>, files: seq<string>, targets: seq<string>, renameOk: seq<bool>)
    requires |targets| == |files| && |renameOk| == |files|
    ensures forall x :: x in Run(names, files, targets, renameOk).names && x !in names ==> x in targets
    decreases |files|
  {
    if files != [] {
      var s := Step(names, files[0], targets[0], renameOk[0]);
      StepFacts(names, files[0], targets[0], renameOk[0]);
      RunOnlyAddsNewNames(s.names, files[1..], targets[1..], renameOk[1..]);
      forall x | x in Run(names, files, targets, renameOk).names && x !in names
        ensures x in targets
      {
        if x in s.names {
          assert x == targets[0];
        } else {
          assert x in targets[1..];
        }
      }
    }
  }

  /** A directory whose every listed file already carries its new name is
      left alone, and every file is counted. */
  lemma {:induction false} RunAllNamed(names: set<string>, files: seq<string>, targets: seq<string>, renameOk: seq<bool>)
    requires |targets| == |files| && |renameOk| == |files|
    requires forall k :: 0 <= k < |files| ==> targets[k] == files[k]
    ensures Run(names, files, targets, renameOk) == RunResult(names, |files|)
    decreases |files|
  {
    if files != [] {
      RunAllNamed(names, files[1..], targets[1..], renameOk[1..]);
    }
  }

  /** Every name the loop adds ends in `.mp3` and is a cleaned name. */
  lemma RenamedAreMp3(names: set<string>, files: seq<string>, renameOk: seq<bool>)
    requires |renameOk| == |files|
    ensures forall x :: x in Run(names, files, NewNames(files), renameOk).names && x !in names ==>
              |x| >= 4 && x[|x| - 4..] == Mp3 && NoIllegal(x[..|x| - 4])
  {
    var targets := NewNames(files);
    RunOnlyAddsNewNames(names, files, targets, renameOk);
    forall x | x in Run(names, files, targets, renameOk).names && x !in names
      ensures |x| >= 4 && x[|x| - 4..] == Mp3 && NoIllegal(x[..|x| - 4])
    {
      var k :| 0 <= k < |targets| && targets[k] == x;
      assert x == NewName(files[k]);
    }
  }

  /** A directory holding names; `RenameMp3Files` renames in it. */
  class Mp3Directory {
    var names: set<string>

    constructor (initial: set<string>)
      ensures names == initial
    {
      names := initial;
    }

    /** The loop of rename_mp3.py:94-130 over `files` (the `*.mp3` files
        found, in the order found), with `renameOk[i]` saying whether the
        operating system accepts the rename of `files[i]`. */
    method RenameMp3Files(files: seq<string>, renameOk: seq<bool>) returns (successCount: nat)
      requires |renameOk| == |files|
      modifies this
      ensures RunResult(names, successCount) == Run(old(names), files, NewNames(files), renameOk)
    {
      ghost var targets := NewNames(files);
      successCount := 0;
      var i := 0;
      while i < |files|
        invariant 0 <= i <= |files|
        invariant Run(names, files[i..], targets[i..], renameOk[i..]).names
                  == Run(old(names), files, targets, renameOk).names
        invariant successCount + Run(names, files[i..], targets[i..], renameOk[i..]).successCount
                  == Run(old(names), files, targets, renameOk).successCount
        decreases |files| - i
      {
        var target := NewName(files[i]);
        RunFirst(names, files[i..], targets[i..], renameOk[i..]);
        assert files[i..][1..] == files[i + 1..] && targets[i..][1..] == targets[i + 1..];
        assert renameOk[i..][1..] == renameOk[i + 1..];
        match Decide(names, files[i], target) {
          case SkipExisting =>
          case AlreadyNamed =>
            successCount := successCount + 1;
          case RenameTo =>
            if renameOk[i] && files[i] in names {
              names := names - {files[i]} + {target};
              successCount := successCount + 1;
            }
        }
        i := i + 1;
      }
    }
  }
}
