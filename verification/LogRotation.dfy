/** Size-capped, numbered log files: the server log and the per-run logs. */
module LogRotation {

  /** The files of one log: number 0 is the current file, `n` is `path.n`. */
  type Files = map<nat, string>

  function Content(files: Files, n: nat): string {
    if n in files then files[n] else ""
  }

  /** Everything still on disk in files `n` to 0, oldest first. */
  function Retained(files: Files, n: nat): string
    decreases n, 1
  {
    Content(files, n) + Below(files, n)
  }

  function Below(files: Files, n: nat): string
    decreases n, 0
  {
    if n == 0 then "" else Retained(files, n - 1)
  }

  predicate IsSuffix(s: string, whole: string) {
    |s| <= |whole| && whole[|whole| - |s|..] == s
  }

  lemma SuffixTransitive(a: string, b: string, c: string)
    requires IsSuffix(a, b) && IsSuffix(b, c)
    ensures IsSuffix(a, c)
  {
    assert c[|c| - |b|..][|b| - |a|..] == c[|c| - |a|..];
  }

  lemma SuffixGrows(a: string, b: string, line: string)
    requires IsSuffix(a, b)
    ensures IsSuffix(a + line, b + line)
  {
    var k := |b| - |a|;
    assert (b + line)[k..] == b[k..] + line;
  }

  function Rename(files: Files, from: nat, to: nat): Files {
    if from in files then files[to := files[from]] - {from} else files
  }

  /** At most the text of the highest number is lost. */
  predicate Drops(files: Files, files': Files, n: nat) {
    Retained(files, n) == Retained(files', n) || Retained(files, n) == Content(files, n) + Retained(files', n)
  }

  lemma EmptyFront(front: string, text: string)
    requires front == ""
    ensures front + text == text
  {
  }

  /** After the move, the file's text follows directly on what was below it. */
  lemma MovedText(files: Files, i: nat)
    requires i in files
    ensures Retained(Rename(files, i, i + 1), i + 1) == files[i] + Below(files, i)
  {
    var files' := Rename(files, i, i + 1);
    SameBelow(files, files', i);
    EmptyFront(Content(files', i), Below(files', i));
    assert Retained(files', i) == Below(files', i);
    assert Below(files', i + 1) == Retained(files', i);
  }

  /** Moving the file next to the highest number onto it replaces what was there. */
  lemma RenameOntoTop(files: Files, i: nat)
    requires i in files
    ensures Retained(files, i + 1) == Content(files, i + 1) + Retained(Rename(files, i, i + 1), i + 1)
  {
    MovedText(files, i);
    assert Retained(files, i) == files[i] + Below(files, i);
  }

  /** Moving a file onto a free number keeps all text. */
  lemma {:induction false} RenameOntoFree(files: Files, i: nat, n: nat)
    requires i < n && i in files && i + 1 !in files
    ensures Retained(Rename(files, i, i + 1), n) == Retained(files, n)
  {
    if i + 1 < n {
      RenameOntoFree(files, i, n - 1);
    } else {
      RenameOntoTop(files, i);
    }
  }

  lemma RenameRetains(files: Files, i: nat, n: nat)
    requires i < n && (i + 1 !in files || i + 1 == n)
    ensures Drops(files, Rename(files, i, i + 1), n)
    ensures i + 1 !in files ==> Retained(Rename(files, i, i + 1), n) == Retained(files, n)
  {
    if i in files {
      if i + 1 in files {
        RenameOntoTop(files, i);
      } else {
        RenameOntoFree(files, i, n);
      }
    }
  }

  lemma {:induction false} SameBelow(files: Files, files': Files, n: nat)
    requires forall k: nat :: k < n ==> Content(files, k) == Content(files', k)
    ensures Below(files, n) == Below(files', n)
  {
    if n > 1 {
      SameBelow(files, files', n - 1);
    }
  }

  /**
   * Numbers above `i` have been shifted up, those up to `i` are untouched, and number `i + 1` is free or the highest.
   */
  ghost predicate Shifted(files: Files, rotated: Files, i: int, maxFiles: nat) {
    && (if i + 1 == maxFiles then rotated == files else i + 1 !in rotated)
    && (forall n: nat :: n <= i ==> (n in rotated <==> n in files) && (n in files ==> rotated[n] == files[n]))
    && (forall n :: n in files && i < n < maxFiles ==> n + 1 in rotated && rotated[n + 1] == files[n])
    && Drops(files, rotated, maxFiles)
    && (forall n :: n in rotated ==> rotated[n] in Kept(files, maxFiles).Values || n > maxFiles)
    && Leftover(rotated, maxFiles) == Leftover(files, maxFiles)
  }

  /** The numbers that rotation manages. */
  function Kept(files: Files, maxFiles: nat): Files {
    map n | n in files && n <= maxFiles :: files[n]
  }

  /** Files left behind by an earlier, larger limit; rotation never touches them. */
  function Leftover(files: Files, maxFiles: nat): Files {
    map n | n in files && n > maxFiles :: files[n]
  }

  lemma KeptValues(files: Files, maxFiles: nat)
    ensures forall n :: n in files ==> files[n] in Kept(files, maxFiles).Values || n > maxFiles
  {
    forall n | n in files && n <= maxFiles
      ensures files[n] in Kept(files, maxFiles).Values
    {
      assert Kept(files, maxFiles)[n] == files[n];
    }
  }

  lemma ShiftOne(files: Files, rotated: Files, i: nat, maxFiles: nat)
    requires i < maxFiles && Shifted(files, rotated, i, maxFiles)
    ensures Shifted(files, Rename(rotated, i, i + 1), i - 1, maxFiles)
  {
    ShiftOneText(files, rotated, i, maxFiles);
    ShiftOneNumbers(files, rotated, Rename(rotated, i, i + 1), i, maxFiles);
  }

  lemma ShiftOneText(files: Files, rotated: Files, i: nat, maxFiles: nat)
    requires i < maxFiles && (if i + 1 == maxFiles then rotated == files else i + 1 !in rotated)
    requires Drops(files, rotated, maxFiles)
    ensures Drops(files, Rename(rotated, i, i + 1), maxFiles)
  {
    RenameRetains(rotated, i, maxFiles);
  }

  lemma ShiftOneNumbers(files: Files, rotated: Files, rotated': Files, i: nat, maxFiles: nat)
    requires i < maxFiles && Shifted(files, rotated, i, maxFiles) && rotated' == Rename(rotated, i, i + 1)
    ensures i !in rotated'
    ensures forall n: nat :: n < i ==> (n in rotated' <==> n in files) && (n in files ==> rotated'[n] == files[n])
    ensures forall n :: n in files && i - 1 < n < maxFiles ==> n + 1 in rotated' && rotated'[n + 1] == files[n]
    ensures forall n :: n in rotated' ==> rotated'[n] in Kept(files, maxFiles).Values || n > maxFiles
    ensures Leftover(rotated', maxFiles) == Leftover(files, maxFiles)
  {
    assert i in files ==> i in rotated && rotated[i] == files[i];
    assert Leftover(rotated', maxFiles) == Leftover(rotated, maxFiles);
  }

  /** `rotate_numbered`: shift every numbered file up by one from the top, then the current file to number 1. */
  method RotateNumbered(files: Files, maxFiles: nat) returns (rotated: Files)
    ensures maxFiles == 0 ==> rotated == files
    ensures maxFiles > 0 ==> 0 !in rotated
    ensures forall n :: n in files && n < maxFiles ==> n + 1 in rotated && rotated[n + 1] == files[n]
    ensures Drops(files, rotated, maxFiles) && Leftover(rotated, maxFiles) == Leftover(files, maxFiles)
    ensures forall n :: n in rotated ==> rotated[n] in Kept(files, maxFiles).Values || n > maxFiles
  {
    rotated := files;
    KeptValues(files, maxFiles);
    if maxFiles == 0 {
      return;
    }
    var i := maxFiles - 1;
    while i >= 1
      invariant 0 <= i < maxFiles && Shifted(files, rotated, i, maxFiles)
    {
      ShiftOne(files, rotated, i, maxFiles);
      rotated := Rename(rotated, i, i + 1);
      i := i - 1;
    }
    ShiftOne(files, rotated, 0, maxFiles);
    rotated := Rename(rotated, 0, 1);
  }

  lemma {:induction false} AppendRetains(files: Files, line: string, n: nat)
    ensures Retained(files[0 := Content(files, 0) + line], n) == Retained(files, n) + line
  {
    var files' := files[0 := Content(files, 0) + line];
    if n > 0 {
      AppendRetains(files, line, n - 1);
      assert Content(files', n) == Content(files, n);
      assert Content(files, n) + (Retained(files, n - 1) + line) == Content(files, n) + Retained(files, n - 1) + line;
    }
  }

  /** Of the current file and the `maxFiles` numbered ones none is longer than `bound`. */
  predicate Bounded(files: Files, maxFiles: nat, bound: nat) {
    forall n :: n in files && n <= maxFiles ==> |files[n]| <= bound
  }

  /** One line appended to what a rotation left. */
  lemma AppendKeepsSuffix(before: Files, rotated: Files, history: string, line: string, n: nat)
    requires IsSuffix(Retained(before, n), history) && Drops(before, rotated, n)
    ensures IsSuffix(Retained(rotated[0 := Content(rotated, 0) + line], n), history + line)
  {
    AppendRetains(rotated, line, n);
    var was, kept := Retained(before, n), Retained(rotated, n);
    assert IsSuffix(kept, was) by {
      assert was[|was| - |kept|..] == kept;
    }
    SuffixTransitive(Retained(rotated, n), Retained(before, n), history);
    SuffixGrows(Retained(rotated, n), history, line);
  }

  lemma RotatedBounded(before: Files, rotated: Files, maxFiles: nat, bound: nat)
    requires Bounded(before, maxFiles, bound)
    requires forall n :: n in rotated ==> rotated[n] in Kept(before, maxFiles).Values || n > maxFiles
    ensures Bounded(rotated, maxFiles, bound)
  {
  }

  lemma AppendKeepsBounded(rotated: Files, maxFiles: nat, bound: nat, line: string, bound': nat)
    requires Bounded(rotated, maxFiles, bound) && bound <= bound' && |Content(rotated, 0)| + |line| <= bound'
    ensures Bounded(rotated[0 := Content(rotated, 0) + line], maxFiles, bound')
  {
  }

  function Larger(a: nat, b: nat): nat {
    if a >= b then a else b
  }

  lemma LargerOfThree(a: nat, b: nat, c: nat)
    ensures Larger(Larger(a, b), c) == Larger(a, Larger(b, c))
  {
  }

  /**
   * `ServerLog`; `history` is what was on disk when it was opened and everything logged since, `longest` the length of
   * the longest line or file found, `leftover` the files found beyond the limit.
   */
  class ServerLog {
    var files: Files
    const maxBytes: nat
    const maxFiles: nat
    ghost var history: string
    ghost var longest: nat
    ghost const leftover: Files

    ghost predicate Valid()
      reads this
    {
      && maxBytes >= 1 && maxFiles >= 1 && Leftover(files, maxFiles) == leftover
      && IsSuffix(Retained(files, maxFiles), history)
      && Bounded(files, maxFiles, Larger(maxBytes, longest))
    }

    /** Both limits are raised to at least one; the log goes on where an earlier server left it. */
    constructor (bytes: nat, numbered: nat, existing: Files, ghost longestFile: nat)
      requires forall n :: n in existing ==> |existing[n]| <= longestFile
      ensures Valid() && files == existing && longest == longestFile && history == Retained(existing, maxFiles)
      ensures leftover == Leftover(existing, maxFiles)
      ensures maxBytes == (if bytes >= 1 then bytes else 1) && maxFiles == if numbered >= 1 then numbered else 1
    {
      files, maxBytes, maxFiles := existing, if bytes >= 1 then bytes else 1, if numbered >= 1 then numbered else 1;
      history, longest := Retained(existing, if numbered >= 1 then numbered else 1), longestFile;
      leftover := Leftover(existing, if numbered >= 1 then numbered else 1);
    }

    /** Rotates first when the line would not fit. */
    method Log(line: string)
      requires Valid()
      modifies this
      ensures Valid() && history == old(history) + (line + "\n") && longest == Larger(old(longest), |line| + 1)
      ensures var rotate := |Content(old(files), 0)| + |line| + 1 > maxBytes;
              && Content(files, 0) == (if rotate then "" else Content(old(files), 0)) + (line + "\n")
              && (!rotate ==> forall n :: n > 0 ==> Content(files, n) == Content(old(files), n))
              && (rotate ==> forall n :: n in old(files) && n < maxFiles ==>
                               n + 1 in files && files[n + 1] == old(files)[n])
    {
      var text := line + "\n";
      ghost var before, bound := files, Larger(maxBytes, longest);
      if |Content(files, 0)| + |line| + 1 > maxBytes {
        files := RotateNumbered(files, maxFiles);
        RotatedBounded(before, files, maxFiles, bound);
      }
      AppendKeepsSuffix(before, files, history, text, maxFiles);
      AppendKeepsBounded(files, maxFiles, bound, text, Larger(bound, |text|));
      LargerOfThree(maxBytes, longest, |text|);
      assert Leftover(files[0 := Content(files, 0) + text], maxFiles) == Leftover(files, maxFiles);
      files := files[0 := Content(files, 0) + text];
      history := history + text;
      longest := Larger(longest, |text|);
    }
  }

  // ---- run logs ----

  /** A run log and, for the proof, everything ever appended and its longest line. */
  datatype RunState = RunState(files: Files, written: nat, history: string, longest: nat)

  /** Rotation is on: there is a size limit and at least one number to move the file to. */
  predicate Rotates(maxBytes: nat, maxFiles: nat) {
    maxBytes > 0 && maxFiles > 0
  }

  /** With rotation on, a bounded suffix is kept and the byte count is exact; with it off, everything is kept. */
  ghost predicate RunOk(s: RunState, maxBytes: nat, maxFiles: nat) {
    if Rotates(maxBytes, maxFiles) then
      && IsSuffix(Retained(s.files, maxFiles), s.history) && s.written == |Content(s.files, 0)|
      && Bounded(s.files, maxFiles, Larger(maxBytes, s.longest))
    else
      Retained(s.files, maxFiles) == s.history
  }

  function Appended(s: RunState, line: string): RunState {
    RunState(s.files[0 := Content(s.files, 0) + line], s.written + |line|, s.history + line, Larger(s.longest, |line|))
  }

  /** An append behind a rotation, if there was one, when rotation is on. */
  lemma AppendRotating(s: RunState, rotated: RunState, line: string, maxBytes: nat, maxFiles: nat)
    requires Rotates(maxBytes, maxFiles) && RunOk(s, maxBytes, maxFiles)
    requires rotated.history == s.history && rotated.longest == s.longest
    requires Drops(s.files, rotated.files, maxFiles) && Bounded(rotated.files, maxFiles, Larger(maxBytes, s.longest))
    requires rotated.written == |Content(rotated.files, 0)|
    requires rotated.written == 0 || rotated.written + |line| <= maxBytes
    ensures RunOk(Appended(rotated, line), maxBytes, maxFiles)
  {
    AppendKeepsSuffix(s.files, rotated.files, s.history, line, maxFiles);
    LargerOfThree(maxBytes, s.longest, |line|);
    AppendKeepsBounded(rotated.files, maxFiles, Larger(maxBytes, s.longest), line,
                       Larger(maxBytes, Larger(s.longest, |line|)));
  }

  lemma OthersKept(files: Files, text: string)
    ensures Content(files[0 := text], 0) == text
    ensures forall n :: n > 0 ==> Content(files[0 := text], n) == Content(files, n)
    ensures forall n :: n > 0 && n in files ==> n in files[0 := text] && files[0 := text][n] == files[n]
  {
  }

  /** `RunLog`: counts what it wrote instead of asking for the size; a limit of zero turns rotation off. */
  class RunLog {
    var files: Files
    var written: nat
    const maxBytes: nat
    const maxFiles: nat
    ghost var history: string
    ghost var longest: nat
    ghost const leftover: Files

    ghost function State(): RunState
      reads this
    {
      RunState(files, written, history, longest)
    }

    ghost predicate Valid()
      reads this
    {
      RunOk(State(), maxBytes, maxFiles) && Leftover(files, maxFiles) == leftover
    }

    /** The count starts at the size of the file that is already there. */
    constructor (bytes: nat, numbered: nat, existing: Files, ghost longestFile: nat)
      requires forall n :: n in existing ==> |existing[n]| <= longestFile
      ensures Valid() && leftover == Leftover(existing, numbered) && maxBytes == bytes && maxFiles == numbered
      ensures State() == RunState(existing, |Content(existing, 0)|, Retained(existing, numbered), longestFile)
    {
      files, written, maxBytes, maxFiles := existing, |Content(existing, 0)|, bytes, numbered;
      history, longest, leftover := Retained(existing, numbered), longestFile, Leftover(existing, numbered);
    }

    /** Rotates when the line would not fit; without a number to move the file to, the same file goes on growing. */
    method Append(line: string)
      requires Valid()
      modifies this
      ensures Valid() && history == old(history) + line && longest == Larger(old(longest), |line|)
      ensures var rotate := maxBytes > 0 && maxFiles > 0 && old(written) + |line| > maxBytes;
              && Content(files, 0) == (if rotate then "" else Content(old(files), 0)) + line
              && (!rotate ==> forall n :: n > 0 ==> Content(files, n) == Content(old(files), n))
              && (rotate ==> forall n :: n in old(files) && n < maxFiles ==>
                               n + 1 in files && files[n + 1] == old(files)[n])
    {
      ghost var before := State();
      if maxBytes > 0 && written + |line| > maxBytes {
        files := RotateNumbered(files, maxFiles);
        written := 0;
        if maxFiles > 0 {
          RotatedBounded(before.files, files, maxFiles, Larger(maxBytes, longest));
        }
      }
      if maxBytes > 0 && maxFiles > 0 {
        AppendRotating(before, State(), line, maxBytes, maxFiles);
      } else {
        AppendRetains(files, line, maxFiles);
      }
      OthersKept(files, Content(files, 0) + line);
      assert Leftover(files[0 := Content(files, 0) + line], maxFiles) == Leftover(files, maxFiles);
      files := files[0 := Content(files, 0) + line];
      written := written + |line|;
      history := history + line;
      longest := Larger(longest, |line|);
    }
  }
}
