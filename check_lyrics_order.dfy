/** scripts/check-lyrics-order.js: for each lyrics document, flags every line
    whose timestamp is strictly below the one before it (the first line is
    compared with -1), and lists the documents with a flagged line in
    directory order. Reading the directory and the files is left to the
    caller: the documents come in as a sequence in listing order. */
module CheckLyricsOrder {
  import opened Base
  import opened PlaylistTypes
  import FixLyricsTimestamps

  /** The value line i is compared with: -1 for the first line, the previous
      line's timestamp otherwise. */
  function PrevTimestamp(lines: seq<LyricLine>, i: int): int
    requires 0 <= i < |lines|
  {
    if i == 0 then -1 else lines[i - 1].timestamp
  }

  /** Line i gets a warning: past the first line, exactly when the repair
      script sees it step back; the first line only when it lies below -1. */
  function IsFlagged(lines: seq<LyricLine>, i: int): (flagged: bool)
    requires 0 <= i < |lines|
    ensures i > 0 ==> (flagged <==> FixLyricsTimestamps.StepsBack(lines, i))
    ensures i == 0 ==> (flagged <==> lines[0].timestamp < -1)
  {
    lines[i].timestamp < PrevTimestamp(lines, i)
  }

  /** The flagged positions below `n`, ascending. */
  function FlaggedBefore(lines: seq<LyricLine>, n: nat): (r: seq<nat>)
    requires n <= |lines|
    ensures forall k :: k in r <==> 0 <= k < n && IsFlagged(lines, k)
  {
    if n == 0 then []
    else
      var prefix := FlaggedBefore(lines, n - 1);
      if IsFlagged(lines, n - 1) then prefix + [n - 1] else prefix
  }

  /** The document is reported: some line is flagged. */
  predicate HasOrderingIssue(lines: seq<LyricLine>) {
    FlaggedBefore(lines, |lines|) != []
  }

  /** The per-document loop, carrying the previous timestamp; `flagged` are
      the lines it prints a warning for. */
  method CheckLines(lines: seq<LyricLine>) returns (hasIssue: bool, flagged: seq<nat>)
    ensures flagged == FlaggedBefore(lines, |lines|)
    ensures hasIssue <==> HasOrderingIssue(lines)
  {
    hasIssue := false;
    flagged := [];
    var prevTimestamp := -1;
    var i := 0;
    while i < |lines|
      invariant 0 <= i <= |lines|
      invariant i < |lines| ==> prevTimestamp == PrevTimestamp(lines, i)
      invariant flagged == FlaggedBefore(lines, i)
      invariant hasIssue <==> flagged != []
    {
      var line := lines[i];
      if line.timestamp < prevTimestamp {
        if !hasIssue {
          hasIssue := true;
        }
        flagged := flagged + [i];
      }
      prevTimestamp := line.timestamp;
      i := i + 1;
    }
  }

  /** Past the first line this checker flags exactly the lines the repair
      script counts as out of order; so, unless the first timestamp is below
      -1, both list the same positions. */
  lemma {:induction false} FlaggedAreOutOfOrder(lines: seq<LyricLine>, n: nat)
    requires 1 <= n <= |lines| && lines[0].timestamp >= -1
    ensures FlaggedBefore(lines, n) == FixLyricsTimestamps.OutOfOrderBefore(lines, n)
  {
    if n > 1 {
      FlaggedAreOutOfOrder(lines, n - 1);
    }
  }

  /** A document is reported exactly when its timestamps ever decrease or
      its first timestamp is below -1. */
  lemma ReportedIff(lines: seq<LyricLine>)
    ensures HasOrderingIssue(lines)
        <==> !NonDecreasing(lines) || (|lines| > 0 && lines[0].timestamp < -1)
  {
    var r := FlaggedBefore(lines, |lines|);
    if r != [] {
      assert r[0] in r;
    }
    if !NonDecreasing(lines) && r == [] {
      var i, j :| 0 <= i < j < |lines| && lines[i].timestamp > lines[j].timestamp;
      forall k | 0 < k < |lines| ensures lines[k - 1].timestamp <= lines[k].timestamp {
        assert k !in r;
      }
      FixLyricsTimestamps.ChainOrdered(lines, i, j);
    }
    if |lines| > 0 && lines[0].timestamp < -1 {
      assert 0 in r;
    }
  }

  /** Equal neighbours are never flagged, and a non-decreasing document of
      non-negative timestamps is never reported. */
  lemma SortedDocumentNotReported(lines: seq<LyricLine>)
    requires NonDecreasing(lines)
    requires forall i :: 0 <= i < |lines| ==> lines[i].timestamp >= 0
    ensures !HasOrderingIssue(lines)
  {
    ReportedIff(lines);
  }

  /** One entry of issuesFound. */
  datatype Issue = Issue(track: string, artist: string, file: string)

  function IssueOf(f: LyricsFile): Issue {
    Issue(f.doc.trackName, f.doc.artistName, f.name)
  }

  predicate FileHasIssue(f: LyricsFile) {
    HasOrderingIssue(f.doc.lines)
  }

  /** issuesFound after the documents `files`, in listing order: one entry
      per document with a flagged line, and nothing else. */
  function Reported(files: seq<LyricsFile>): (r: seq<Issue>)
    ensures |r| <= |files|
    ensures forall k :: 0 <= k < |r| ==>
              exists j :: 0 <= j < |files| && FileHasIssue(files[j]) && r[k] == IssueOf(files[j])
    ensures forall j :: 0 <= j < |files| && FileHasIssue(files[j]) ==> IssueOf(files[j]) in r
  {
    if files == [] then []
    else
      var prefix := Reported(files[..|files| - 1]);
      var last := files[|files| - 1];
      if FileHasIssue(last) then prefix + [IssueOf(last)] else prefix
  }

  /** The loop over the directory listing. */
  method CheckAll(files: seq<LyricsFile>) returns (issuesFound: seq<Issue>)
    ensures issuesFound == Reported(files)
  {
    issuesFound := [];
    var i := 0;
    while i < |files|
      invariant 0 <= i <= |files|
      invariant issuesFound == Reported(files[..i])
    {
      var file := files[i];
      var hasIssue, _ := CheckLines(file.doc.lines);
      assert files[..i + 1][..i] == files[..i];
      if hasIssue {
        issuesFound := issuesFound + [IssueOf(file)];
      }
      i := i + 1;
    }
    assert files[..|files|] == files;
  }

  function Issues(files: seq<LyricsFile>): (r: seq<Issue>)
    ensures |r| == |files| && forall k :: 0 <= k < |files| ==> r[k] == IssueOf(files[k])
  {
    seq(|files|, k requires 0 <= k < |files| => IssueOf(files[k]))
  }

  /** The report lists one issue per reported document, in listing order:
      it is the listing filtered to the reported documents. */
  lemma {:induction false} ReportedInListingOrder(files: seq<LyricsFile>)
    ensures Reported(files) == Issues(Filter(files, FileHasIssue))
  {
    if files != [] {
      var init := files[..|files| - 1];
      var last := files[|files| - 1];
      ReportedInListingOrder(init);
      var kept := Filter(init, FileHasIssue);
      if FileHasIssue(last) {
        assert Issues(kept + [last]) == Issues(kept) + [IssueOf(last)];
      }
    }
  }
}
