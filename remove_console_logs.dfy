/** scripts/remove-console-logs.js: drops every line containing
    'console.log' from four source files, rewriting a file only when a line
    was dropped. The files are a map from path to contents; a path absent
    from it is a file that does not exist. */
module RemoveConsoleLogs {
  import opened Base

  const FILES_TO_CLEAN: seq<string> := [
    "components/PlaylistView.tsx",
    "components/AlbumDisplay.tsx",
    "hooks/useAudioPlayer.ts",
    "app/api/media/route.ts"
  ]

  predicate HasConsoleLog(line: string) {
    Contains(line, "console.log")
  }

  predicate Keep(line: string) {
    !HasConsoleLog(line)
  }

  /** Filtering by a predicate and by its negation splits the list. */
  lemma {:induction false} FilterSplitsCount(lines: seq<string>)
    ensures |Filter(lines, Keep)| + |Filter(lines, HasConsoleLog)| == |lines|
  {
    if lines != [] {
      FilterSplitsCount(lines[..|lines| - 1]);
    }
  }

  /** The loop over the lines of one file: the kept lines, in order, and the
      number of dropped ones. */
  method CleanLines(originalLines: seq<string>) returns (modifiedLines: seq<string>, removedCount: nat)
    ensures modifiedLines == Filter(originalLines, Keep)
    ensures removedCount == |Filter(originalLines, HasConsoleLog)|
    ensures removedCount + |modifiedLines| == |originalLines|
  {
    modifiedLines := [];
    removedCount := 0;
    var i := 0;
    while i < |originalLines|
      invariant 0 <= i <= |originalLines|
      invariant modifiedLines == Filter(originalLines[..i], Keep)
      invariant removedCount == |Filter(originalLines[..i], HasConsoleLog)|
    {
      var line := originalLines[i];
      assert originalLines[..i + 1][..i] == originalLines[..i];
      if HasConsoleLog(line) {
        removedCount := removedCount + 1;
      } else {
        modifiedLines := modifiedLines + [line];
      }
      i := i + 1;
    }
    assert originalLines[..|originalLines|] == originalLines;
    FilterSplitsCount(originalLines);
  }

  /** The contents a file has after the script: the kept lines joined by
      '\n' when a line was dropped, the original contents otherwise; so a file
      changes only when one of its lines contains 'console.log'. */
  function Cleaned(content: string): (r: string)
    ensures (forall i :: 0 <= i < |Split(content, '\n')| ==> Keep(Split(content, '\n')[i])) ==> r == content
  {
    var lines := Split(content, '\n');
    var kept := Filter(lines, Keep);
    if |kept| < |lines| then
      assert !(forall i :: 0 <= i < |lines| ==> Keep(lines[i])) by {
        if forall i :: 0 <= i < |lines| ==> Keep(lines[i]) {
          FilterAllPass(lines, Keep);
        }
      }
      Join(kept, '\n')
    else content
  }

  /** No line of the cleaned contents contains 'console.log'. */
  lemma CleanedHasNoConsoleLog(content: string)
    ensures forall i :: 0 <= i < |Split(Cleaned(content), '\n')| ==> Keep(Split(Cleaned(content), '\n')[i])
  {
    var lines := Split(content, '\n');
    var kept := Filter(lines, Keep);
    if |kept| < |lines| {
      forall i | 0 <= i < |kept| ensures '\n' !in kept[i] {
        var j :| 0 <= j < |lines| && lines[j] == kept[i];
      }
      SplitJoin(kept, '\n');
      if kept == [] {
        assert Split(Cleaned(content), '\n') == [""];
        assert !Contains("", "console.log");
      }
    } else {
      assert kept == lines by {
        FilterAllKept(lines);
      }
    }
  }

  /** A filter that keeps as many elements as it is given keeps them all. */
  lemma {:induction false} FilterAllKept(lines: seq<string>)
    requires |Filter(lines, Keep)| >= |lines|
    ensures Filter(lines, Keep) == lines
    ensures forall i :: 0 <= i < |lines| ==> Keep(lines[i])
  {
    if lines != [] {
      var init := lines[..|lines| - 1];
      assert |Filter(init, Keep)| <= |init|;
      FilterAllKept(init);
    }
  }

  /** Running the script again changes nothing. */
  lemma CleanedIsIdempotent(content: string)
    ensures Cleaned(Cleaned(content)) == Cleaned(content)
  {
    CleanedHasNoConsoleLog(content);
    var lines := Split(Cleaned(content), '\n');
    FilterAllPass(lines, Keep);
  }

  /** One existing file: its new contents. */
  method CleanFile(content: string) returns (newContent: string)
    ensures newContent == Cleaned(content)
  {
    var modifiedLines, removedCount := CleanLines(Split(content, '\n'));
    if removedCount > 0 {
      newContent := Join(modifiedLines, '\n');
    } else {
      newContent := content;
    }
  }

  /** The forEach over the four files: a missing file is skipped, a file
      without such lines is left as it is. */
  method CleanFiles(disk: map<string, string>) returns (result: map<string, string>)
    ensures result.Keys == disk.Keys
    ensures forall f :: f in disk ==> result[f] == if f in FILES_TO_CLEAN then Cleaned(disk[f]) else disk[f]
  {
    result := CleanEach(disk, FILES_TO_CLEAN);
  }

  /** The forEach loop itself, over any list of file names. */
  method CleanEach(disk: map<string, string>, files: seq<string>) returns (result: map<string, string>)
    ensures result.Keys == disk.Keys
    ensures forall f :: f in disk ==> result[f] == if f in files then Cleaned(disk[f]) else disk[f]
  {
    result := disk;
    var k := 0;
    while k < |files|
      invariant 0 <= k <= |files|
      invariant result.Keys == disk.Keys
      invariant forall f :: f in disk ==> result[f] == if f in files[..k] then Cleaned(disk[f]) else disk[f]
    {
      var file := files[k];
      assert files[..k + 1] == files[..k] + [file];
      if file in result {
        var newContent := CleanFile(result[file]);
        result := result[file := newContent];
        if file in files[..k] {
          CleanedIsIdempotent(disk[file]);
        }
      }
      k := k + 1;
    }
    assert files[..|files|] == files;
  }
}
